/**
 * The site header: which navigation links it shows and which of them is
 * highlighted, the job-search target it builds from the query and the
 * chosen location, and its logout handler.
 */
module Navbar {
  import opened Wrappers
  import opened Text
  import opened Seqs
  import AuthProvider

  /** `isActivePath(path)` for the current `location.pathname`: "/" only matches itself, any other path matches by prefix. */
  predicate IsActivePath(pathname: string, path: string) {
    if path == "/" then pathname == "/" else StartsWith(pathname, path)
  }

  /** A link is active on its own path and on every path below it; the home link only on "/". */
  lemma ActivePathBelow(path: string, below: string)
    requires path != "/"
    ensures IsActivePath(path + below, path)
    ensures IsActivePath(below, "/") <==> below == "/"
  {
    assert (path + below)[..|path|] == path;
  }

  datatype NavLink = NavLink(path: string, caption: string)

  const HomeLink := NavLink("/", "Home")
  const FindJobLink := NavLink("/jobs", "Find Job")
  const DashboardLink := NavLink("/dashboard", "Dashboard")
  const ApplicationsLink := NavLink("/applications", "Applications")
  const SavedJobsLink := NavLink("/jobs/saved", "Saved Jobs")

  /** `navLinks`: Home, Find Job and Dashboard always; Applications and Saved Jobs only when signed in. */
  function NavLinks(isAuthenticated: bool): (r: seq<NavLink>)
    ensures |r| >= 3
    ensures r[..3] == [HomeLink, FindJobLink, DashboardLink]
    ensures isAuthenticated <==> |r| == 5
    ensures !isAuthenticated ==> |r| == 3
    ensures isAuthenticated ==> r[3..] == [ApplicationsLink, SavedJobsLink]
  {
    [HomeLink, FindJobLink, DashboardLink]
      + (if isAuthenticated then [ApplicationsLink, SavedJobsLink] else [])
  }

  /** The links highlighted on a page. */
  function ActiveLinks(pathname: string, isAuthenticated: bool): seq<NavLink> {
    Filter(NavLinks(isAuthenticated), (l: NavLink) => IsActivePath(pathname, l.path))
  }

  /** On the saved-jobs page, prefix matching highlights Find Job as well as Saved Jobs. */
  lemma SavedJobsPageHighlightsTwo()
    ensures ActiveLinks("/jobs/saved", true) == [FindJobLink, SavedJobsLink]
  {
    var keep := (l: NavLink) => IsActivePath("/jobs/saved", l.path);
    SavedJobsPathMatches();
    var h, f, d, a, s := [HomeLink], [FindJobLink], [DashboardLink], [ApplicationsLink], [SavedJobsLink];
    assert Filter(h, keep) == [] && Filter(f, keep) == f && Filter(d, keep) == [];
    assert Filter(a, keep) == [] && Filter(s, keep) == s;
    assert NavLinks(true) == h + f + d + a + s;
    FilterAppend(h + f + d + a, s, keep);
    FilterAppend(h + f + d, a, keep);
    FilterAppend(h + f, d, keep);
    FilterAppend(h, f, keep);
  }

  /** Which link paths "/jobs/saved" matches: "/jobs" and itself, not "/", "/dashboard" or "/applications". */
  lemma SavedJobsPathMatches()
    ensures !IsActivePath("/jobs/saved", HomeLink.path) && IsActivePath("/jobs/saved", FindJobLink.path)
    ensures !IsActivePath("/jobs/saved", DashboardLink.path) && !IsActivePath("/jobs/saved", ApplicationsLink.path)
    ensures IsActivePath("/jobs/saved", SavedJobsLink.path)
  {
    var p := "/jobs/saved";
    assert !IsActivePath(p, "/dashboard") by { assert p[1] != "/dashboard"[1]; }
    assert !IsActivePath(p, "/applications") by { assert p[1] != "/applications"[1]; }
  }

  /** A query parameter: name and value. */
  type Param = (string, string)

  /**
   * The parameters `handleSearch` appends, in order: `search` with the
   * trimmed query when that is not empty; then `type=remote` for the
   * location "Remote", or `location` with any other non-empty location.
   */
  function SearchParams(query: string, location: string): seq<Param> {
    var q := Trim(query);
    (if q != "" then [("search", q)] else [])
      + (if location != "" && location != "Remote" then [("location", location)]
         else if location == "Remote" then [("type", "remote")]
         else [])
  }

  /**
   * At most two parameters: `search` first exactly when the trimmed query
   * is not empty, then the one the location calls for; none at all exactly
   * when both are empty.
   */
  lemma SearchParamsMeaning(query: string, location: string)
    ensures var ps := SearchParams(query, location);
      && |ps| <= 2
      && (Trim(query) != "" <==> |ps| >= 1 && ps[0] == ("search", Trim(query)))
      && (location == "" ==> forall k :: 0 <= k < |ps| ==> ps[k].0 == "search")
      && (location == "Remote" ==> |ps| >= 1 && ps[|ps| - 1] == ("type", "remote"))
      && (location != "" && location != "Remote" ==> |ps| >= 1 && ps[|ps| - 1] == ("location", location))
      && (ps == [] <==> Trim(query) == "" && location == "")
  {
  }

  /** The UTF-8 encoding of one character, as byte values. */
  function Utf8(c: char): (bs: seq<int>)
    ensures 1 <= |bs| <= 4
    ensures forall k :: 0 <= k < |bs| ==> 0 <= bs[k] < 256
    ensures c as int < 0x80 <==> bs == [c as int]
    ensures c as int >= 0x80 ==> forall k :: 0 <= k < |bs| ==> bs[k] >= 0x80
  {
    var n := c as int;
    if n < 0x80 then [n]
    else if n < 0x800 then [0xC0 + n / 64, 0x80 + n % 64]
    else if n < 0x1_0000 then [0xE0 + n / 4096, 0x80 + (n / 64) % 64, 0x80 + n % 64]
    else [0xF0 + n / 262144, 0x80 + (n / 4096) % 64, 0x80 + (n / 64) % 64, 0x80 + n % 64]
  }

  /** The bytes `application/x-www-form-urlencoded` leaves as they are: `*`, `-`, `.`, `_`, digits and ASCII letters. */
  predicate Unreserved(b: int) {
    b == 0x2A || b == 0x2D || b == 0x2E || b == 0x5F
    || (0x30 <= b <= 0x39) || (0x41 <= b <= 0x5A) || (0x61 <= b <= 0x7A)
  }

  function HexDigit(d: int): (c: char)
    requires 0 <= d < 16
    ensures c in "0123456789ABCDEF"
  {
    "0123456789ABCDEF"[d]
  }

  /** One byte of the form encoding: space as `+`, unreserved bytes as themselves, the rest as `%XX`. */
  function EncodeByte(b: int): (s: string)
    requires 0 <= b < 256
    ensures 1 <= |s| <= 3
    ensures '&' !in s && '=' !in s && ' ' !in s
    ensures Unreserved(b) ==> s == [b as char]
  {
    if b == 0x20 then "+"
    else if Unreserved(b) then [b as char]
    else ['%', HexDigit(b / 16), HexDigit(b % 16)]
  }

  function EncodeBytes(bs: seq<int>): (s: string)
    requires forall k :: 0 <= k < |bs| ==> 0 <= bs[k] < 256
    ensures '&' !in s && '=' !in s && ' ' !in s
  {
    if bs == [] then [] else EncodeByte(bs[0]) + EncodeBytes(bs[1..])
  }

  /**
   * How `URLSearchParams` writes a name or a value: each character's UTF-8
   * bytes encoded one by one. The result never holds the separators `&`
   * and `=`, nor a space.
   */
  function FormEncode(s: string): (r: string)
    ensures '&' !in r && '=' !in r && ' ' !in r
    ensures |r| >= |s|
  {
    if s == [] then [] else EncodeBytes(Utf8(s[0])) + FormEncode(s[1..])
  }

  /** Text made of unreserved ASCII characters is written as it is. */
  lemma {:induction false} FormEncodeUnreserved(s: string)
    requires forall k :: 0 <= k < |s| ==> Unreserved(s[k] as int)
    ensures FormEncode(s) == s
  {
    if s != [] {
      FormEncodeUnreserved(s[1..]);
      assert EncodeBytes(Utf8(s[0])) == [s[0]];
    }
  }

  /** One `name=value` pair as written. */
  function PairText(p: Param): string {
    FormEncode(p.0) + "=" + FormEncode(p.1)
  }

  function PairTexts(ps: seq<Param>): (r: seq<string>)
    ensures |r| == |ps|
    ensures forall k :: 0 <= k < |ps| ==> r[k] == PairText(ps[k])
  {
    seq(|ps|, k requires 0 <= k < |ps| => PairText(ps[k]))
  }

  /** `params.toString()`: the pairs joined with `&`; empty exactly when there are no parameters. */
  function ParamsToString(ps: seq<Param>): (r: string)
    ensures r == [] <==> ps == []
  {
    var texts := PairTexts(ps);
    if ps == [] then [] else JoinLength(texts, '&'); Join(texts, '&')
  }

  /** A join of pieces is at least as long as its first piece. */
  lemma JoinLength(parts: seq<string>, sep: char)
    requires parts != []
    ensures |Join(parts, sep)| >= |parts[0]|
    ensures parts[0] != [] ==> Join(parts, sep) != []
  {
  }

  /** Splitting the query string at `&` gives back exactly one piece per parameter, in order. */
  lemma ParamsSplit(ps: seq<Param>)
    requires ps != []
    ensures Split(ParamsToString(ps), '&') == PairTexts(ps)
  {
    var texts := PairTexts(ps);
    forall k | 0 <= k < |texts|
      ensures '&' !in texts[k]
    {
      var p := ps[k];
      assert texts[k] == FormEncode(p.0) + "=" + FormEncode(p.1);
    }
    SplitJoin(texts, '&');
  }

  /**
   * The navigation target as written: "/jobs" without parameters, and
   * otherwise a template with spaces around "jobs" and "?" and after the
   * parameters.
   */
  function SearchTargetAsWritten(ps: seq<Param>): string {
    var s := ParamsToString(ps);
    if s != [] then "/ jobs ? " + s + " " else "/jobs"
  }

  /** The intended navigation target: "/jobs", with "?" and the query string when there are parameters. */
  function SearchTarget(ps: seq<Param>): (t: string)
    ensures ps == [] ==> t == "/jobs"
    ensures ps != [] ==> StartsWith(t, "/jobs?") && t[|"/jobs?"|..] == ParamsToString(ps)
  {
    var s := ParamsToString(ps);
    if s != [] then "/jobs?" + s else "/jobs"
  }

  /** With any parameter, the target as written does not lead to the job search page, and it differs from the intended one. */
  lemma SearchTargetAsWrittenMissesJobs(ps: seq<Param>)
    requires ps != []
    ensures !StartsWith(SearchTargetAsWritten(ps), "/jobs")
    ensures SearchTargetAsWritten(ps) != SearchTarget(ps)
  {
    var t := SearchTargetAsWritten(ps);
    assert t[1] == ' ';
    assert SearchTarget(ps)[1] == 'j';
  }

  /** A single parameter whose name and value need no encoding is written `name=value`. */
  lemma SingleParamText(name: string, value: string)
    requires forall k :: 0 <= k < |name| ==> Unreserved(name[k] as int)
    requires forall k :: 0 <= k < |value| ==> Unreserved(value[k] as int)
    ensures ParamsToString([(name, value)]) == name + "=" + value
  {
    FormEncodeUnreserved(name);
    FormEncodeUnreserved(value);
    assert PairTexts([(name, value)]) == [name + "=" + value];
  }

  /** Searching for "react" with no location gives one parameter. */
  lemma ReactParams()
    ensures SearchParams("react", "") == [("search", "react")]
  {
    TrimUnpadded("react");
  }

  /** Searching for "react" anywhere: the target as written and as intended. */
  lemma SearchForReact()
    ensures SearchTargetAsWritten(SearchParams("react", "")) == "/ jobs ? " + ("search" + "=" + "react") + " "
    ensures SearchTarget(SearchParams("react", "")) == "/jobs?" + ("search" + "=" + "react")
  {
    ReactParams();
    SingleParamText("search", "react");
  }

  /** The `URLSearchParams` of `handleSearch`, filled one `append` at a time. */
  method AppendSearchParams(query: string, location: string) returns (params: seq<Param>)
    ensures params == SearchParams(query, location)
  {
    params := [];
    var q := Trim(query);
    if q != "" {
      params := params + [("search", q)];
    }
    if location != "" && location != "Remote" {
      params := params + [("location", location)];
    } else if location == "Remote" {
      params := params + [("type", "remote")];
    }
  }

  /**
   * The target `handleSearch` navigates to: the parameters appended one by
   * one, then "/jobs" alone when the query string is empty, and "/jobs?"
   * followed by it otherwise.
   */
  method SearchNavigation(query: string, location: string) returns (target: string)
    ensures target == SearchTarget(SearchParams(query, location))
  {
    var params := AppendSearchParams(query, location);
    var s := ParamsToString(params);
    if s != "" {
      target := "/jobs?" + s;
    } else {
      target := "/jobs";
    }
  }

  class Header {
    const auth: AuthProvider.Session
    var isMobileMenuOpen: bool
    var isSearchOpen: bool
    var searchQuery: string
    var selectedLocation: string
    /** Every `navigate` target, oldest first. */
    var navigations: seq<string>

    constructor(session: AuthProvider.Session)
      ensures auth == session
      ensures !isMobileMenuOpen && !isSearchOpen && searchQuery == "" && selectedLocation == "" && navigations == []
    {
      auth := session;
      isMobileMenuOpen := false;
      isSearchOpen := false;
      searchQuery := "";
      selectedLocation := "";
      navigations := [];
    }

    method SetSearch(query: string, location: string)
      modifies this
      ensures searchQuery == query && selectedLocation == location
      ensures isMobileMenuOpen == old(isMobileMenuOpen) && isSearchOpen == old(isSearchOpen) && navigations == old(navigations)
    {
      searchQuery := query;
      selectedLocation := location;
    }

    /** The search toggle on small screens. */
    method ToggleSearch()
      modifies this
      ensures isSearchOpen == !old(isSearchOpen)
      ensures isMobileMenuOpen == old(isMobileMenuOpen) && navigations == old(navigations)
      ensures searchQuery == old(searchQuery) && selectedLocation == old(selectedLocation)
    {
      isSearchOpen := !isSearchOpen;
    }

    method SetMobileMenu(open: bool)
      modifies this
      ensures isMobileMenuOpen == open
      ensures isSearchOpen == old(isSearchOpen) && navigations == old(navigations)
      ensures searchQuery == old(searchQuery) && selectedLocation == old(selectedLocation)
    {
      isMobileMenuOpen := open;
    }

    /**
     * `handleSearch`: the parameters are appended one by one, the page
     * navigates to the intended search target, and the search panel closes.
     */
    method HandleSearch()
      modifies this
      ensures navigations == old(navigations) + [SearchTarget(SearchParams(old(searchQuery), old(selectedLocation)))]
      ensures !isSearchOpen
      ensures unchanged(this`isMobileMenuOpen, this`searchQuery, this`selectedLocation)
    {
      var target := SearchNavigation(searchQuery, selectedLocation);
      navigations := navigations + [target];
      isSearchOpen := false;
    }

    /** `handleLogout`: the session is cleared, the page goes to "/" and the mobile menu closes. */
    method HandleLogout()
      modifies this, auth, auth.window
      ensures auth.window.storedToken == None && auth.user == None && !auth.isAuthenticated
      ensures auth.loading == old(auth.loading)
      ensures auth.window.pathname == old(auth.window.pathname)
      ensures auth.window.hrefAssignments == old(auth.window.hrefAssignments)
      ensures navigations == old(navigations) + ["/"]
      ensures !isMobileMenuOpen
      ensures isSearchOpen == old(isSearchOpen)
      ensures searchQuery == old(searchQuery) && selectedLocation == old(selectedLocation)
    {
      auth.Logout();
      navigations := navigations + ["/"];
      isMobileMenuOpen := false;
    }
  }
}
