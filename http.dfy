/**
 * What the client sees of a request made through its HTTP client: either the
 * response data, or a rejected promise carrying an error. The network and
 * the server are not modelled; each handler receives the outcome of its
 * request as an input.
 */
module Http {
  import opened Wrappers

  /**
   * A rejected request: the HTTP status when a response arrived
   * (`error.response.status`), the server's `message` field
   * (`error.response.data.message`), the exception text (`error.message`)
   * and the request URL (`error.config.url`).
   */
  datatype HttpError = HttpError(
    status: Option<int>,
    serverMessage: Option<string>,
    message: string,
    requestUrl: Option<string>)

  datatype Outcome<T> = Success(data: T) | Failure(error: HttpError)

  /** JavaScript truthiness of a possibly missing string: present and non-empty. */
  predicate Truthy(s: Option<string>) {
    s.Some? && s.value != ""
  }

  /** `x || ""` for a possibly missing string. */
  function OrEmpty(s: Option<string>): (r: string)
    ensures Truthy(s) ==> r == s.value
    ensures !Truthy(s) ==> r == ""
  {
    if s.Some? then s.value else ""
  }

  /** `error.response?.data?.message || fallback`. */
  function ServerMessageOr(e: HttpError, fallback: string): (r: string)
    ensures Truthy(e.serverMessage) ==> r == e.serverMessage.value
    ensures !Truthy(e.serverMessage) ==> r == fallback
  {
    if Truthy(e.serverMessage) then e.serverMessage.value else fallback
  }

  /** `err.response?.data?.message || err.message || fallback`. */
  function ErrorText(e: HttpError, fallback: string): (r: string)
    ensures Truthy(e.serverMessage) ==> r == e.serverMessage.value
    ensures !Truthy(e.serverMessage) && e.message != "" ==> r == e.message
    ensures !Truthy(e.serverMessage) && e.message == "" ==> r == fallback
  {
    ServerMessageOr(e, if e.message != "" then e.message else fallback)
  }
}
