/**
 * The session context: the signed-in user, the authenticated flag and the
 * start-up `loading` flag, kept in step with the token in `localStorage`.
 */
module AuthProvider {
  import opened Wrappers
  import opened Http
  import opened Browser
  import opened Profile
  import opened FormData
  import opened Api

  const TokenKey := "token"
  const NoTokenMessage := "No authentication token received"

  datatype AuthError = RequestFailed(error: HttpError) | NoTokenReceived

  /** What `login`/`register` resolve to: the user data, or the error they reject with. */
  datatype AuthResult = Signed(user: User) | Rejected(error: AuthError)

  /** The message of the error a rejected call throws. */
  function ErrorMessage(e: AuthError): string {
    match e
    case RequestFailed(err) => err.message
    case NoTokenReceived => NoTokenMessage
  }

  /**
   * `const { token, ...rest } = response.data`: the token, if any, and every
   * other attribute, unchanged.
   */
  function SplitToken(data: map<string, string>): (r: (Option<string>, User))
    ensures r.0.Some? <==> TokenKey in data
    ensures r.0.Some? ==> r.0.value == data[TokenKey]
    ensures TokenKey !in r.1
    ensures forall k :: k != TokenKey ==> (k in r.1 <==> k in data)
    ensures forall k :: k in r.1 ==> r.1[k] == data[k]
  {
    (if TokenKey in data then Some(data[TokenKey]) else None, data - {TokenKey})
  }

  /** Putting the token back into the user data gives the response data again. */
  lemma SplitTokenRoundTrip(data: map<string, string>)
    ensures var (token, rest) := SplitToken(data);
            (token.Some? ==> rest[TokenKey := token.value] == data)
            && (token.None? ==> rest == data)
  {
  }

  /** `localStorage.setItem("token", token)` stores a missing token as the text "undefined". */
  function StoredForm(token: Option<string>): string {
    if token.Some? then token.value else "undefined"
  }

  /** What `register` is called with: the wizard's multipart payload, or a plain object. */
  datatype RegisterInput =
    | FormDataInput(parts: seq<Part>)
    | PlainInput(firstName: string, lastName: string, email: string, password: string)

  datatype RegisterBody =
    | MultipartBody(parts: seq<Part>)
    | JsonBody(name: string, email: string, password: string)

  /**
   * The body and extra headers `register` posts: a multipart payload is
   * passed through with a multipart content type; any other input is
   * reduced to a name "first last", the email and the password.
   */
  function RegisterRequest(input: RegisterInput): (r: (RegisterBody, map<string, string>))
    ensures input.FormDataInput? ==> r.0 == MultipartBody(input.parts)
    ensures input.FormDataInput? ==> r.1 == map["Content-Type" := "multipart/form-data"]
    ensures input.PlainInput? ==> r.1 == map[]
    ensures input.PlainInput? ==>
      r.0 == JsonBody(input.firstName + " " + input.lastName, input.email, input.password)
  {
    match input
    case FormDataInput(parts) => (MultipartBody(parts), map["Content-Type" := "multipart/form-data"])
    case PlainInput(first, last, email, password) => (JsonBody(first + " " + last, email, password), map[])
  }

  class Session {
    const window: Window
    var user: Option<User>
    var isAuthenticated: bool
    var loading: bool
    /** Every body and header set posted to `/users/register`, oldest first. */
    var registrations: seq<(RegisterBody, map<string, string>)>

    /** Mounting: `loading` starts true exactly when a token is stored. */
    constructor(w: Window)
      ensures window == w
      ensures user == None && !isAuthenticated
      ensures loading == Truthy(w.storedToken)
      ensures registrations == []
    {
      window := w;
      user := None;
      isAuthenticated := false;
      loading := Truthy(w.storedToken);
      registrations := [];
    }

    /**
     * `checkAuth`, with `me` the outcome of `GET /users/me` (only requested
     * when a token is stored): success signs the user in; failure, once the
     * response interceptor has dealt with it, forgets the token. `loading`
     * ends false in every case.
     */
    method CheckAuth(me: Outcome<User>)
      modifies this, window
      ensures !loading && registrations == old(registrations)
      ensures window.pathname == old(window.pathname)
      ensures window.hrefAssignments == old(window.hrefAssignments)
        + (if Truthy(old(window.storedToken)) then RedirectAfter(me, old(window.pathname)) else [])
      ensures Truthy(old(window.storedToken)) && me.Success? ==>
        user == Some(me.data) && isAuthenticated && window.storedToken == old(window.storedToken)
      ensures Truthy(old(window.storedToken)) && me.Failure? ==>
        window.storedToken == None && !isAuthenticated && user == old(user)
      ensures !Truthy(old(window.storedToken)) ==>
        user == old(user) && isAuthenticated == old(isAuthenticated) && window.storedToken == old(window.storedToken)
    {
      var token := window.storedToken;
      if Truthy(token) {
        Settle(window, me);
        match me
        case Success(data) =>
          user := Some(data);
          isAuthenticated := true;
        case Failure(_) =>
          window.RemoveToken();
          isAuthenticated := false;
      }
      loading := false;
    }

    /**
     * `login`, with `response` the outcome of `POST /users/login`. A token
     * in the response is stored and the rest becomes the user; a response
     * without one is rejected with "No authentication token received" and
     * changes nothing; a failed request passes the response interceptor (a
     * 401 forgets the stored token) and is re-thrown, leaving the session
     * as it was.
     */
    method Login(email: string, password: string, response: Outcome<map<string, string>>)
      returns (r: AuthResult)
      modifies this, window
      ensures window.pathname == old(window.pathname)
      ensures window.hrefAssignments == old(window.hrefAssignments) + RedirectAfter(response, old(window.pathname))
      ensures loading == old(loading) && registrations == old(registrations)
      ensures response.Failure? ==>
        && r == Rejected(RequestFailed(response.error))
        && window.storedToken == TokenAfter(old(window.storedToken), response)
      ensures response.Success? && Truthy(SplitToken(response.data).0) ==>
        var (token, rest) := SplitToken(response.data);
        && r == Signed(rest) && user == Some(rest) && isAuthenticated
        && window.storedToken == token
      ensures response.Success? && !Truthy(SplitToken(response.data).0) ==>
        r == Rejected(NoTokenReceived) && window.storedToken == old(window.storedToken)
      ensures r.Rejected? ==> user == old(user) && isAuthenticated == old(isAuthenticated)
    {
      Settle(window, response);
      match response
      case Failure(e) =>
        r := Rejected(RequestFailed(e));
      case Success(data) =>
        var (token, rest) := SplitToken(data);
        if Truthy(token) {
          window.StoreToken(token.value);
          user := Some(rest);
          isAuthenticated := true;
          r := Signed(rest);
        } else {
          r := Rejected(NoTokenReceived);
        }
    }

    /**
     * `register`, with `response` the outcome of posting `RegisterRequest(input)`
     * to `/users/register`; the posted request is recorded. Success stores the token (a missing one as the text
     * "undefined"), sets the user to the rest of the response and signs in; a
     * failed request passes the response interceptor and is re-thrown,
     * leaving the user and the authenticated flag as they were.
     */
    method Register(input: RegisterInput, response: Outcome<map<string, string>>)
      returns (r: AuthResult)
      modifies this, window
      ensures window.pathname == old(window.pathname)
      ensures window.hrefAssignments == old(window.hrefAssignments) + RedirectAfter(response, old(window.pathname))
      ensures loading == old(loading)
      ensures registrations == old(registrations) + [RegisterRequest(input)]
      ensures response.Failure? ==>
        && r == Rejected(RequestFailed(response.error))
        && user == old(user) && isAuthenticated == old(isAuthenticated)
        && window.storedToken == TokenAfter(old(window.storedToken), response)
      ensures response.Success? ==>
        var (token, rest) := SplitToken(response.data);
        && r == Signed(rest) && user == Some(rest) && isAuthenticated
        && window.storedToken == Some(StoredForm(token))
    {
      registrations := registrations + [RegisterRequest(input)];
      Settle(window, response);
      match response
      case Failure(e) =>
        r := Rejected(RequestFailed(e));
      case Success(data) =>
        var (token, rest) := SplitToken(data);
        window.StoreToken(StoredForm(token));
        user := Some(rest);
        isAuthenticated := true;
        r := Signed(rest);
    }

    /** `logout`: forgets the token and the user. */
    method Logout()
      modifies this, window
      ensures window.storedToken == None && user == None && !isAuthenticated
      ensures loading == old(loading) && registrations == old(registrations)
      ensures window.pathname == old(window.pathname) && window.hrefAssignments == old(window.hrefAssignments)
    {
      window.RemoveToken();
      user := None;
      isAuthenticated := false;
    }

    /** `updateUser`: replaces the user and nothing else. */
    method UpdateUser(updated: Option<User>)
      modifies this
      ensures user == updated
      ensures isAuthenticated == old(isAuthenticated) && loading == old(loading)
      ensures registrations == old(registrations)
    {
      user := updated;
    }
  }
}
