/**
 * The tag editor shared by the registration wizard and the settings page:
 * add without duplicates, remove by position, toggle membership. Each
 * operation computes the new array; the pages store it in their state.
 */
module TagList {
  import opened Seqs

  /** `value && !xs.includes(value)`: the condition under which an add goes ahead. */
  predicate CanAdd(xs: seq<string>, value: string) {
    value != "" && value !in xs
  }

  /**
   * `addToArray`: appends a non-empty value that is not yet present and
   * reports whether it did; otherwise the list is unchanged.
   */
  function Add(xs: seq<string>, value: string): (r: (seq<string>, bool))
    ensures r.1 <==> CanAdd(xs, value)
    ensures r.0 == if r.1 then xs + [value] else xs
    ensures value != "" ==> value in r.0
  {
    if CanAdd(xs, value) then (xs + [value], true) else (xs, false)
  }

  /** Adding keeps a duplicate-free list duplicate-free. */
  lemma AddKeepsNoDuplicates(xs: seq<string>, value: string)
    requires NoDuplicates(xs)
    ensures NoDuplicates(Add(xs, value).0)
  {
  }

  /** Adding the same value again changes nothing and reports false. */
  lemma AddTwice(xs: seq<string>, value: string)
    ensures var once := Add(xs, value).0;
            Add(once, value) == (once, false)
  {
  }

  /** `xs.filter((_, i) => i !== index)`: everything except the element at `index`. */
  function RemoveAt<T>(xs: seq<T>, index: int): (r: seq<T>)
    ensures |r| == if 0 <= index < |xs| then |xs| - 1 else |xs|
    decreases |xs|
  {
    if xs == [] then []
    else (if index == 0 then [] else [xs[0]]) + RemoveAt(xs[1..], index - 1)
  }

  /**
   * Removing by position drops exactly the element at that position and
   * keeps the rest in order; an index out of range changes nothing.
   */
  lemma {:induction false} RemoveAtSlices<T>(xs: seq<T>, index: int)
    ensures 0 <= index < |xs| ==> RemoveAt(xs, index) == xs[..index] + xs[index + 1..]
    ensures !(0 <= index < |xs|) ==> RemoveAt(xs, index) == xs
  {
    if xs != [] {
      RemoveAtSlices(xs[1..], index - 1);
      if 0 < index < |xs| {
        assert xs[..index] == [xs[0]] + xs[1..][..index - 1];
        assert xs[index + 1..] == xs[1..][index..];
      }
    }
  }

  /** Removing by position keeps a duplicate-free list duplicate-free. */
  lemma RemoveAtKeepsNoDuplicates<T>(xs: seq<T>, index: int)
    requires NoDuplicates(xs)
    ensures NoDuplicates(RemoveAt(xs, index))
  {
    RemoveAtSlices(xs, index);
    if 0 <= index < |xs| {
      var r := RemoveAt(xs, index);
      forall i, j | 0 <= i < j < |r| ensures r[i] != r[j] {
        var i' := if i < index then i else i + 1;
        var j' := if j < index then j else j + 1;
        assert r[i] == xs[i'] && r[j] == xs[j'];
      }
    }
  }

  /** `xs.filter(item => item !== value)`. */
  function Without(xs: seq<string>, value: string): (r: seq<string>)
    ensures value !in r
    ensures forall x :: x in r <==> x in xs && x != value
  {
    Filter(xs, x => x != value)
  }

  /** `handleArrayToggle`: removes the value when present, appends it otherwise. */
  function Toggle(xs: seq<string>, value: string): (r: seq<string>)
    ensures value in r <==> value !in xs
    ensures forall x :: x != value ==> (x in r <==> x in xs)
  {
    if value in xs then Without(xs, value) else xs + [value]
  }

  /** Toggling twice restores the original membership. */
  lemma ToggleTwiceMembership(xs: seq<string>, value: string)
    ensures forall x :: x in Toggle(Toggle(xs, value), value) <==> x in xs
  {
  }

  /** Toggling a value that is absent and then toggling it again restores the list exactly. */
  lemma ToggleTwiceAbsent(xs: seq<string>, value: string)
    requires value !in xs
    ensures Toggle(Toggle(xs, value), value) == xs
  {
    assert Toggle(xs, value) == xs + [value];
    FilterAppend(xs, [value], x => x != value);
    FilterAllKept(xs, x => x != value);
  }

  /** Filtering keeps a duplicate-free list duplicate-free. */
  lemma {:induction false} FilterKeepsNoDuplicates<T>(xs: seq<T>, keep: T -> bool)
    requires NoDuplicates(xs)
    ensures NoDuplicates(Filter(xs, keep))
  {
    if xs != [] {
      FilterKeepsNoDuplicates(xs[1..], keep);
      assert xs[0] !in xs[1..];
    }
  }

  /** Toggling keeps a duplicate-free list duplicate-free. */
  lemma ToggleKeepsNoDuplicates(xs: seq<string>, value: string)
    requires NoDuplicates(xs)
    ensures NoDuplicates(Toggle(xs, value))
  {
    if value in xs {
      FilterKeepsNoDuplicates(xs, x => x != value);
    }
  }
}
