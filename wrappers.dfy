/** Optional values, request outcomes and the shape of an HTTP client error,
    shared by every component of the two front-ends. */
module Wrappers {

  datatype Option<+T> = None | Some(value: T)

  /** The body of an error response: its `message` field, when it has one. */
  datatype ResponseData = ResponseData(message: Option<string>)

  /** The part of an error response the components read: the status code and
      the body (`data`), absent when the body is `null`. */
  datatype ErrorResponse = ErrorResponse(status: int, data: Option<ResponseData>)

  /** A rejected HTTP request as the client library reports it.
      `response` is present when the server answered; `requestSent` says
      whether a request went out at all; `message` is the library's own text. */
  datatype HttpError = HttpError(response: Option<ErrorResponse>, requestSent: bool, message: string)

  /** What an awaited request settles to: the response body, or the error
      the request was rejected with. */
  datatype Outcome<+T> = Ok(value: T) | Failed(error: HttpError)

  /** JavaScript truthiness of an optional string: present and non-empty. */
  predicate Truthy(s: Option<string>)
  {
    s.Some? && s.value != ""
  }

  /** The server's message for an error, when the response carries a
      non-empty one (`err.response?.data?.message`). */
  function ServerMessage(e: HttpError): (m: Option<string>)
    ensures m.Some? ==>
      e.response.Some? && e.response.value.data.Some? && e.response.value.data.value.message == m && m.value != ""
    ensures m.None? ==>
      e.response.None? || e.response.value.data.None? || !Truthy(e.response.value.data.value.message)
  {
    if e.response.Some? && e.response.value.data.Some? && Truthy(e.response.value.data.value.message)
    then e.response.value.data.value.message
    else None
  }

  /** `err.response?.data?.message || fallback`. */
  function MessageOr(e: HttpError, fallback: string): (r: string)
    ensures ServerMessage(e).Some? ==> r == ServerMessage(e).value
    ensures ServerMessage(e).None? ==> r == fallback
  {
    match ServerMessage(e)
    case Some(m) => m
    case None => fallback
  }
}
