/**
 * The reusable dropdown: which option the trigger shows, which options the
 * open menu lists for the search term, and the open/close and selection
 * handlers.
 */
module CustomDropdown {
  import opened Wrappers
  import opened Text
  import opened Seqs

  /**
   * One option (`caption` is the source's `label`): what it shows, the value it reports (`None` when it has
   * none), an optional badge, and the caller's own data (`type`, `code`).
   */
  datatype Choice = Choice(caption: string, value: Option<string>, badge: Option<string>, kind: string, code: string)

  /** A caller-supplied `filterOptions(options, searchTerm)`. */
  type FilterFn = (seq<Choice>, string) -> seq<Choice>

  /** `providedSelectedOption || options.find(opt => opt.value === value)` */
  function Selected(provided: Option<Choice>, options: seq<Choice>, value: Option<string>): (r: Option<Choice>)
    ensures provided.Some? ==> r == provided
    ensures provided.None? && r.Some? ==> r.value in options && r.value.value == value
    ensures provided.None? && r.Some? ==>
      exists i :: 0 <= i < |options| && options[i] == r.value && forall j :: 0 <= j < i ==> options[j].value != value
    ensures provided.None? && r.None? ==> forall k :: 0 <= k < |options| ==> options[k].value != value
  {
    if provided.Some? then provided else Find(options, (o: Choice) => o.value == value)
  }

  /** The default search: the label, lower-cased, contains the lower-cased term. */
  predicate LabelMatches(o: Choice, term: string) {
    Contains(Lower(o.caption), Lower(term))
  }

  /**
   * `filteredOptions`: with search enabled and a non-empty term, the
   * caller's filter when given, else the options whose label matches, in
   * their order; otherwise every option.
   */
  function Filtered(options: seq<Choice>, withSearch: bool, searchTerm: string, custom: Option<FilterFn>): (r: seq<Choice>)
    ensures !withSearch || searchTerm == "" ==> r == options
    ensures withSearch && searchTerm != "" && custom.Some? ==> r == custom.value(options, searchTerm)
    ensures withSearch && searchTerm != "" && custom.None? ==>
      && |r| <= |options|
      && (forall k :: 0 <= k < |r| ==> r[k] in options && LabelMatches(r[k], searchTerm))
      && (forall k :: 0 <= k < |options| && LabelMatches(options[k], searchTerm) ==> options[k] in r)
  {
    if withSearch && searchTerm != "" then
      if custom.Some? then custom.value(options, searchTerm)
      else Filter(options, (o: Choice) => LabelMatches(o, searchTerm))
    else options
  }

  /** The default search keeps the options' order: filtering a concatenation filters each half. */
  lemma DefaultFilterKeepsOrder(a: seq<Choice>, b: seq<Choice>, term: string)
    requires term != ""
    ensures Filtered(a + b, true, term, None) == Filtered(a, true, term, None) + Filtered(b, true, term, None)
  {
    FilterAppend(a, b, (o: Choice) => LabelMatches(o, term));
  }

  class Dropdown {
    var isOpen: bool
    var searchTerm: string
    /** Every value passed to `onChange`, oldest first. */
    var reported: seq<Option<string>>

    constructor()
      ensures !isOpen && searchTerm == "" && reported == []
    {
      isOpen := false;
      searchTerm := "";
      reported := [];
    }

    /** A click on the trigger flips the menu. */
    method Toggle()
      modifies this
      ensures isOpen == !old(isOpen)
      ensures searchTerm == old(searchTerm) && reported == old(reported)
    {
      isOpen := !isOpen;
    }

    /** A mouse-down anywhere: outside the wrapper it closes the menu, inside it does nothing. */
    method MouseDown(insideWrapper: bool)
      modifies this
      ensures isOpen == (old(isOpen) && insideWrapper)
      ensures searchTerm == old(searchTerm) && reported == old(reported)
    {
      if !insideWrapper {
        isOpen := false;
      }
    }

    /** Typing in the search box. */
    method TypeSearch(term: string)
      modifies this
      ensures searchTerm == term
      ensures isOpen == old(isOpen) && reported == old(reported)
    {
      searchTerm := term;
    }

    /** `handleSelect`: reports the option's value, clears the search and closes the menu. */
    method HandleSelect(option: Choice)
      modifies this
      ensures reported == old(reported) + [option.value]
      ensures searchTerm == "" && !isOpen
    {
      reported := reported + [option.value];
      searchTerm := "";
      isOpen := false;
    }
  }
}
