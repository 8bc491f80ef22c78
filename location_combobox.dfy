/**
 * The location picker built on the dropdown: the option list (Remote, then
 * every country), the option the trigger shows for a stored location text,
 * and the search that adds matching cities, capped, after the matching
 * countries. The country and city datasets are inputs.
 */
module LocationCombobox {
  import opened Wrappers
  import opened Text
  import opened Seqs
  import opened CustomDropdown

  datatype Country = Country(name: string, isoCode: string)
  datatype City = City(name: string, countryCode: string)

  /** Cities are searched only for a term of at least this many characters. */
  const MinCitySearch := 2
  /** The loop stops once more than this many cities have matched. */
  const CityCap := 50

  /** A country's option: its name as caption and value, its ISO code. */
  function CountryOption(c: Country): (o: Choice)
    ensures o.caption == c.name && o.value == Some(c.name) && o.code == c.isoCode && o.kind == "country"
  {
    Choice(c.name, Some(c.name), None, "country", c.isoCode)
  }

  /** The Remote entry at the top of the list. */
  const RemoteOption := Choice("Remote", Some("Remote"), None, "special", "W")
  /** The option shown for a stored "Remote": the same entry, without a value. */
  const RemoteSelected := Choice("Remote", None, None, "special", "W")

  /** `locationOptions`: Remote first, then one option per country, in order. */
  function LocationOptions(countries: seq<Country>): (r: seq<Choice>)
    ensures |r| == |countries| + 1
    ensures r[0] == RemoteOption
    ensures forall k :: 0 <= k < |countries| ==> r[k + 1] == CountryOption(countries[k])
  {
    [RemoteOption] + seq(|countries|, k requires 0 <= k < |countries| => CountryOption(countries[k]))
  }

  /** `countries.find(c => c.label === name)`: the first country with that name. */
  function CountryNamed(countries: seq<Country>, name: string): (r: Option<Country>)
    ensures r.None? <==> forall k :: 0 <= k < |countries| ==> countries[k].name != name
    ensures r.Some? ==> r.value in countries && r.value.name == name
  {
    Find(countries, (c: Country) => c.name == name)
  }

  /** `countries.find(c => c.code === code)`: the first country with that ISO code. */
  function CountryCoded(countries: seq<Country>, code: string): (r: Option<Country>)
    ensures r.None? <==> forall k :: 0 <= k < |countries| ==> countries[k].isoCode != code
    ensures r.Some? ==> r.value in countries && r.value.isoCode == code
  {
    Find(countries, (c: Country) => c.isoCode == code)
  }

  /**
   * `v.split(",")[1].trim()`: the text after the first comma, up to the next
   * comma or the end, trimmed; the country part of "City, Country".
   */
  function CountryPart(v: string): string
    requires ',' in v
  {
    var rest := v[IndexOf(v, ',').value + 1..];
    match IndexOf(rest, ',')
    case None => Trim(rest)
    case Some(j) => Trim(rest[..j])
  }

  /**
   * `selectedOption` for the stored text `value`: nothing for a missing or
   * empty value; the Remote entry; a country whose name is the value; a
   * city when the value has a comma and its country part names a country,
   * carrying that country's code; otherwise an "unknown" option with no
   * code. Whatever is shown is captioned with the value itself.
   */
  function SelectedOption(countries: seq<Country>, value: Option<string>): (r: Option<Choice>)
    ensures r.None? <==> value.None? || value.value == ""
    ensures r.Some? ==> r.value.caption == value.value
    ensures value == Some("Remote") ==> r == Some(RemoteSelected)
    ensures r.Some? && value.value != "Remote" ==> r.value.value == value && r.value.badge.None?
    ensures r.Some? && r.value.kind == "country" ==>
      exists k :: 0 <= k < |countries| && countries[k].name == value.value && r.value == CountryOption(countries[k])
    ensures r.Some? && r.value.kind == "city" ==>
      && ',' in value.value
      && (forall k :: 0 <= k < |countries| ==> countries[k].name != value.value)
      && exists k :: 0 <= k < |countries| && countries[k].name == CountryPart(value.value) && r.value.code == countries[k].isoCode
    ensures r.Some? && r.value.kind == "unknown" ==>
      && r.value.code == ""
      && (forall k :: 0 <= k < |countries| ==> countries[k].name != value.value)
      && (',' in value.value ==> forall k :: 0 <= k < |countries| ==> countries[k].name != CountryPart(value.value))
    ensures r.Some? ==> r.value.kind in ["special", "country", "city", "unknown"]
  {
    if value.None? || value.value == "" then None
    else
      var v := value.value;
      if v == "Remote" then Some(RemoteSelected)
      else match CountryNamed(countries, v)
        case Some(c) => Some(CountryOption(c))
        case None =>
          if ',' in v && CountryNamed(countries, CountryPart(v)).Some? then
            Some(Choice(v, Some(v), None, "city", CountryNamed(countries, CountryPart(v)).value.isoCode))
          else Some(Choice(v, Some(v), None, "unknown", ""))
  }

  /** "Name, Country" for a city, with the code itself when no country has that code. */
  function CityCaption(countries: seq<Country>, city: City): (s: string)
    ensures StartsWith(s, city.name + ", ")
  {
    var countryName := match CountryCoded(countries, city.countryCode)
      case Some(c) => c.name
      case None => city.countryCode;
    city.name + ", " + countryName
  }

  /** The suggestion for a city: its caption as value, a "City" badge and its own country code. */
  function CityOption(countries: seq<Country>, city: City): (o: Choice)
    ensures o.value == Some(o.caption) && o.badge == Some("City") && o.kind == "city" && o.code == city.countryCode
  {
    var caption := CityCaption(countries, city);
    Choice(caption, Some(caption), Some("City"), "city", city.countryCode)
  }

  /** The city's lower-cased name contains the search. */
  predicate CityMatches(city: City, search: string) {
    Contains(Lower(city.name), search)
  }

  /** The options whose lower-cased caption contains the search. */
  predicate CaptionMatches(o: Choice, search: string) {
    Contains(Lower(o.caption), search)
  }

  /** `opt => opt.label.toLowerCase().includes(search)` */
  function CaptionTest(search: string): Choice -> bool {
    (o: Choice) => CaptionMatches(o, search)
  }

  /** `city => city.name.toLowerCase().includes(search)` */
  function CityTest(search: string): City -> bool {
    (c: City) => CityMatches(c, search)
  }

  /** The options whose caption matches, in their order. */
  function MatchingOptions(options: seq<Choice>, search: string): (r: seq<Choice>)
    ensures |r| <= |options|
    ensures forall k :: 0 <= k < |r| ==> r[k] in options && CaptionMatches(r[k], search)
    ensures forall k :: 0 <= k < |options| && CaptionMatches(options[k], search) ==> options[k] in r
  {
    Filter(options, CaptionTest(search))
  }

  /** The cities whose name matches, in dataset order. */
  function MatchingCities(cities: seq<City>, search: string): (r: seq<City>)
    ensures |r| <= |cities|
    ensures forall k :: 0 <= k < |r| ==> r[k] in cities && CityMatches(r[k], search)
    ensures forall k :: 0 <= k < |cities| && CityMatches(cities[k], search) ==> cities[k] in r
  {
    Filter(cities, CityTest(search))
  }

  /** Every matching city's option, in dataset order, without a cap. */
  function CitySuggestions(countries: seq<Country>, cities: seq<City>, search: string): (r: seq<Choice>)
    ensures |r| <= |cities|
    ensures forall k :: 0 <= k < |r| ==> r[k].badge == Some("City")
  {
    if cities == [] then []
    else
      var last := cities[|cities| - 1];
      CitySuggestions(countries, cities[..|cities| - 1], search)
        + (if CityMatches(last, search) then [CityOption(countries, last)] else [])
  }

  /**
   * The suggestions are exactly the matching cities' options: the k-th
   * suggestion is the option of the k-th matching city in dataset order,
   * and there is one per matching city.
   */
  lemma {:induction false} CitySuggestionsMatching(countries: seq<Country>, cities: seq<City>, search: string)
    ensures var r := CitySuggestions(countries, cities, search);
            var matching := MatchingCities(cities, search);
            && |r| == |matching|
            && forall k :: 0 <= k < |r| ==> r[k] == CityOption(countries, matching[k])
  {
    if cities != [] {
      var init, last := cities[..|cities| - 1], cities[|cities| - 1];
      assert cities == init + [last];
      FilterAppend(init, [last], CityTest(search));
      assert Filter([last], CityTest(search)) == if CityMatches(last, search) then [last] else [];
      CitySuggestionsMatching(countries, init, search);
    }
  }

  /** The suggestions for a prefix of the cities are a prefix of the suggestions for all of them. */
  lemma {:induction false} CitySuggestionsPrefix(countries: seq<Country>, cities: seq<City>, i: nat, search: string)
    requires i <= |cities|
    ensures var pre := CitySuggestions(countries, cities[..i], search);
            var all := CitySuggestions(countries, cities, search);
            |pre| <= |all| && all[..|pre|] == pre
    decreases |cities| - i
  {
    if i < |cities| {
      CitySuggestionsPrefix(countries, cities, i + 1, search);
      assert cities[..i + 1][..i] == cities[..i];
    } else {
      assert cities[..i] == cities;
    }
  }

  /**
   * What `filterLocationOptions` returns: for a blank search the options
   * unchanged; otherwise the options whose caption matches, in order,
   * followed, for a search of at least two characters, by the suggestions
   * of the first 51 matching cities (all of them when there are fewer).
   */
  function LocationResults(countries: seq<Country>, cities: seq<City>, options: seq<Choice>, searchTerm: string): (r: seq<Choice>)
    ensures IsBlank(Lower(searchTerm)) ==> r == options
    ensures !IsBlank(Lower(searchTerm)) ==> |r| <= |options| + CityCap + 1
    ensures var search := Trim(Lower(searchTerm));
      var base := MatchingOptions(options, search);
      var all := CitySuggestions(countries, cities, search);
      && (search != [] ==> |base| <= |r| && r[..|base|] == base)
      && (search != [] && |search| < MinCitySearch ==> r == base)
      && (|search| >= MinCitySearch ==>
            && |r| - |base| == (if |all| <= CityCap then |all| else CityCap + 1)
            && r[|base|..] == all[..|r| - |base|])
  {
    var search := Trim(Lower(searchTerm));
    if search == [] then options
    else
      var base := MatchingOptions(options, search);
      var extra := if |search| >= MinCitySearch then Take(CitySuggestions(countries, cities, search), CityCap + 1) else [];
      assert (base + extra)[..|base|] == base;
      assert (base + extra)[|base|..] == extra;
      base + extra
  }

  /**
   * Every result of a non-blank search is an option whose caption matches
   * or the suggestion of a city whose name matches.
   */
  lemma LocationResultsSources(countries: seq<Country>, cities: seq<City>, options: seq<Choice>, searchTerm: string)
    requires !IsBlank(Lower(searchTerm))
    ensures var search := Trim(Lower(searchTerm));
      var r := LocationResults(countries, cities, options, searchTerm);
      forall k :: 0 <= k < |r| ==>
           || (r[k] in options && CaptionMatches(r[k], search))
           || exists c :: c in cities && CityMatches(c, search) && r[k] == CityOption(countries, c)
  {
    var search := Trim(Lower(searchTerm));
    var r := LocationResults(countries, cities, options, searchTerm);
    var base := MatchingOptions(options, search);
    var all := CitySuggestions(countries, cities, search);
    var matching := MatchingCities(cities, search);
    CitySuggestionsMatching(countries, cities, search);
    forall k | 0 <= k < |r|
      ensures || (r[k] in options && CaptionMatches(r[k], search))
              || exists c :: c in cities && CityMatches(c, search) && r[k] == CityOption(countries, c)
    {
      if k < |base| {
        assert r[k] == r[..|base|][k] == base[k];
      } else {
        assert r[k] == r[|base|..][k - |base|] == all[k - |base|];
        assert matching[k - |base|] in cities && CityMatches(matching[k - |base|], search);
      }
    }
  }

  /** `filterLocationOptions(options, searchTerm)`, with the city dataset scanned in a loop that stops at the cap. */
  method FilterLocationOptions(countries: seq<Country>, cities: seq<City>, options: seq<Choice>, searchTerm: string)
    returns (results: seq<Choice>)
    ensures results == LocationResults(countries, cities, options, searchTerm)
  {
    var search := Trim(Lower(searchTerm));
    if search == [] {
      return options;
    }
    results := MatchingOptions(options, search);
    if |search| >= MinCitySearch {
      var matched: seq<Choice> := [];
      var i := 0;
      while i < |cities|
        invariant 0 <= i <= |cities|
        invariant matched == CitySuggestions(countries, cities[..i], search)
        invariant |matched| <= CityCap + 1
      {
        if |matched| > CityCap {
          break;
        }
        assert cities[..i + 1][..i] == cities[..i];
        if CityMatches(cities[i], search) {
          matched := matched + [CityOption(countries, cities[i])];
        }
        i := i + 1;
      }
      CitySuggestionsPrefix(countries, cities, i, search);
      if i == |cities| {
        assert cities[..i] == cities;
      }
      results := results + matched;
    }
  }

  /** Trimming a space-prefixed string that has no blank at either end removes just the space. */
  lemma TrimLeadingSpace(b: string)
    requires b != [] ==> !IsJsWhitespace(b[0]) && !IsJsWhitespace(b[|b| - 1])
    ensures Trim([' '] + b) == b
  {
    var s := [' '] + b;
    assert SkipLeading(s, 1) == 1;
    assert SkipLeading(s, 0) == 1;
    assert SkipTrailing(s, 1, |s|) == |s|;
    assert s[1..] == b;
  }

  /** The country part of a city's caption is the country's name. */
  lemma CaptionCountryPart(v: string, name: string, countryName: string)
    requires v == name + ", " + countryName
    requires ',' !in name && ',' !in countryName
    requires countryName != [] && !IsJsWhitespace(countryName[0]) && !IsJsWhitespace(countryName[|countryName| - 1])
    ensures ',' in v && v != "Remote"
    ensures CountryPart(v) == countryName
  {
    assert v[|name|] == ',';
    assert v[..|name|] == name;
    var i := IndexOf(v, ',').value;
    assert i == |name|;
    var rest := v[i + 1..];
    assert rest == [' '] + countryName;
    assert ',' !in rest;
    TrimLeadingSpace(countryName);
  }

  /** The city branch of `SelectedOption`, stated on its own. */
  lemma SelectedCity(countries: seq<Country>, v: string, c: Country)
    requires v != "" && v != "Remote" && ',' in v
    requires CountryNamed(countries, v).None?
    requires CountryNamed(countries, CountryPart(v)) == Some(c)
    ensures SelectedOption(countries, Some(v)) == Some(Choice(v, Some(v), None, "city", c.isoCode))
  {
  }

  /** No country is named by a text with a comma when no country name has one. */
  lemma NoCountryNamed(countries: seq<Country>, v: string)
    requires ',' in v
    requires forall d :: d in countries ==> ',' !in d.name
    ensures CountryNamed(countries, v).None?
  {
    forall k | 0 <= k < |countries|
      ensures countries[k].name != v
    {
      assert countries[k] in countries;
    }
  }

  /** A country whose name no other country carries is the one found by that name. */
  lemma UniqueCountryNamed(countries: seq<Country>, c: Country)
    requires c in countries
    requires forall d :: d in countries && d.name == c.name ==> d == c
    ensures CountryNamed(countries, c.name) == Some(c)
  {
  }

  /** The caption of a city whose code finds country `c`. */
  lemma CityCaptionOf(countries: seq<Country>, city: City, c: Country)
    requires CountryCoded(countries, city.countryCode) == Some(c)
    ensures CityCaption(countries, city) == city.name + ", " + c.name
  {
  }

  /**
   * Choosing a city suggestion shows it again as a city with that city's
   * own country code, provided the dataset's names carry no commas or outer
   * blanks and the country's name is its own.
   */
  lemma CitySelectionRoundTrip(countries: seq<Country>, city: City, c: Country)
    requires CountryCoded(countries, city.countryCode) == Some(c)
    requires ',' !in city.name
    requires forall d :: d in countries ==> ',' !in d.name
    requires c.name != [] && !IsJsWhitespace(c.name[0]) && !IsJsWhitespace(c.name[|c.name| - 1])
    requires forall d :: d in countries && d.name == c.name ==> d == c
    ensures var v := CityCaption(countries, city);
            SelectedOption(countries, Some(v)) == Some(Choice(v, Some(v), None, "city", city.countryCode))
  {
    var v := CityCaption(countries, city);
    CityCaptionOf(countries, city, c);
    CaptionCountryPart(v, city.name, c.name);
    NoCountryNamed(countries, v);
    UniqueCountryNamed(countries, c);
    SelectedCity(countries, v, c);
  }
}
