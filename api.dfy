/**
 * The shared HTTP client's two interceptors: the request interceptor that
 * attaches the stored bearer token, and the response interceptor that
 * forgets the token on a 401 and sends the browser to the login page when
 * the current page needs a session.
 */
module Api {
  import opened Wrappers
  import opened Text
  import opened Http
  import opened Browser

  type Headers = map<string, string>

  const AuthorizationHeader := "Authorization"
  const LoginPath := "/login"

  /**
   * The request interceptor's effect on the headers: with a stored token it
   * sets `Authorization` to "Bearer <token>" and leaves every other header
   * alone; without one the headers are untouched.
   */
  function WithBearer(headers: Headers, token: Option<string>): (r: Headers)
    ensures Truthy(token) ==> AuthorizationHeader in r && r[AuthorizationHeader] == "Bearer " + token.value
    ensures !Truthy(token) ==> r == headers
    ensures forall k :: k != AuthorizationHeader ==> (k in r <==> k in headers)
    ensures forall k :: k != AuthorizationHeader && k in r ==> r[k] == headers[k]
  {
    if Truthy(token) then headers[AuthorizationHeader := "Bearer " + token.value] else headers
  }

  /** The request interceptor: reads the stored token and decorates the request's headers. */
  method AttachToken(w: Window, headers: Headers) returns (h: Headers)
    ensures h == WithBearer(headers, w.storedToken)
  {
    var token := w.storedToken;
    h := WithBearer(headers, token);
  }

  /** The pages that need a session. */
  const ProtectedPaths := ["/dashboard", "/profile", "/resume", "/applications", "/settings", "/admin"]
  const SavedJobsPath := "/jobs/saved"

  /** `protectedPaths.some(p => currentPath.startsWith(p) || currentPath === "/jobs/saved")` */
  predicate IsProtectedRoute(path: string) {
    exists i :: 0 <= i < |ProtectedPaths| && (StartsWith(path, ProtectedPaths[i]) || path == SavedJobsPath)
  }

  /**
   * The route check spelled out: a path is protected exactly when it starts
   * with one of the six prefixes or is exactly "/jobs/saved".
   */
  lemma ProtectedRouteCases(path: string)
    ensures IsProtectedRoute(path) <==>
      || StartsWith(path, "/dashboard") || StartsWith(path, "/profile")
      || StartsWith(path, "/resume") || StartsWith(path, "/applications")
      || StartsWith(path, "/settings") || StartsWith(path, "/admin")
      || path == "/jobs/saved"
  {
    if path == SavedJobsPath {
      assert StartsWith(path, ProtectedPaths[0]) || path == SavedJobsPath;
    } else {
      if StartsWith(path, "/dashboard") { assert StartsWith(path, ProtectedPaths[0]); }
      if StartsWith(path, "/profile") { assert StartsWith(path, ProtectedPaths[1]); }
      if StartsWith(path, "/resume") { assert StartsWith(path, ProtectedPaths[2]); }
      if StartsWith(path, "/applications") { assert StartsWith(path, ProtectedPaths[3]); }
      if StartsWith(path, "/settings") { assert StartsWith(path, ProtectedPaths[4]); }
      if StartsWith(path, "/admin") { assert StartsWith(path, ProtectedPaths[5]); }
    }
  }

  /** `error.config && error.config.url && error.config.url.includes("/users/login")` */
  predicate IsLoginRequest(url: Option<string>) {
    url.Some? && Contains(url.value, "/users/login")
  }

  /** The response interceptor's redirect decision. */
  predicate ShouldRedirect(e: HttpError, path: string) {
    e.status == Some(401) && IsProtectedRoute(path) && !IsLoginRequest(e.requestUrl) && path != LoginPath
  }

  /**
   * The login page itself is never a protected route, so the interceptor's
   * separate "not on /login" test never changes its decision.
   */
  lemma LoginPageTestRedundant(e: HttpError, path: string)
    ensures ShouldRedirect(e, path) <==>
      e.status == Some(401) && IsProtectedRoute(path) && !IsLoginRequest(e.requestUrl)
  {
    if path == LoginPath {
      ProtectedRouteCases(path);
      assert !StartsWith(path, "/dashboard") by { assert path[1] != "/dashboard"[1]; }
      assert !StartsWith(path, "/profile") by { assert path[1] != "/profile"[1]; }
      assert !StartsWith(path, "/resume") by { assert path[1] != "/resume"[1]; }
      assert !StartsWith(path, "/applications") by { assert path[1] != "/applications"[1]; }
      assert !StartsWith(path, "/settings") by { assert path[1] != "/settings"[1]; }
      assert !StartsWith(path, "/admin") by { assert path[1] != "/admin"[1]; }
    }
  }

  /**
   * The response interceptor for a failed request: a 401 removes the stored
   * token and, when `ShouldRedirect`, assigns "/login" to the location; any
   * other error touches nothing. The error is always passed on.
   */
  method OnResponseError(w: Window, e: HttpError) returns (rejected: HttpError)
    modifies w
    ensures rejected == e
    ensures e.status == Some(401) ==> w.storedToken == None
    ensures e.status != Some(401) ==> w.storedToken == old(w.storedToken)
    ensures w.hrefAssignments == old(w.hrefAssignments) + (if ShouldRedirect(e, old(w.pathname)) then [LoginPath] else [])
    ensures w.pathname == old(w.pathname)
  {
    var isLoginRequest := IsLoginRequest(e.requestUrl);
    var isLoginPage := w.pathname == LoginPath;
    if e.status == Some(401) {
      w.RemoveToken();
      var currentPath := w.pathname;
      var isProtected := IsProtectedRoute(currentPath);
      if isProtected && !isLoginRequest && !isLoginPage {
        w.AssignHref(LoginPath);
      }
    }
    rejected := e;
  }

  /** The stored token once the response interceptor has seen `o`: only a 401 removes it. */
  function TokenAfter<T>(token: Option<string>, o: Outcome<T>): Option<string> {
    if o.Failure? && o.error.status == Some(401) then None else token
  }

  /** What the response interceptor assigns to the location for `o`, seen from `path`. */
  function RedirectAfter<T>(o: Outcome<T>, path: string): seq<string> {
    if o.Failure? && ShouldRedirect(o.error, path) then [LoginPath] else []
  }

  /**
   * A request through the shared client settling with `o`: a response passes
   * through untouched, an error goes through `OnResponseError` before the
   * caller's own `catch` sees it.
   */
  method Settle<T>(w: Window, o: Outcome<T>)
    modifies w
    ensures w.storedToken == TokenAfter(old(w.storedToken), o)
    ensures w.hrefAssignments == old(w.hrefAssignments) + RedirectAfter(o, old(w.pathname))
    ensures w.pathname == old(w.pathname)
  {
    if o.Failure? {
      var _ := OnResponseError(w, o.error);
    }
  }

  /** The url `login` posts to. */
  const LoginUrl := "/users/login"

  /**
   * A failed login never navigates: its url marks it as the login request,
   * so even a 401 only removes the stored token.
   */
  lemma LoginFailureStays<T>(o: Outcome<T>, path: string)
    requires o.Failure? && o.error.requestUrl == Some(LoginUrl)
    ensures RedirectAfter(o, path) == []
  {
    ContainsTrivial(LoginUrl);
  }
}
