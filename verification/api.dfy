/** The REST client wrapper (services/api.ts): the error-message decision and
    the request interceptor that attaches the bearer token. */
module Api {
  import opened Base

  /** The JSON body of an error response; only its `message` is read. */
  datatype ErrorBody = ErrorBody(message: Option<string>)

  /** An error thrown by the HTTP client: without a response (network failure,
      timeout, blocked request) or with the server's response, whose body may be absent. */
  datatype HttpError = NoResponse | ErrorResponse(data: Option<ErrorBody>)

  /** How an awaited request settled. */
  datatype Settled<+T> = Resolved(value: T) | Rejected(error: HttpError)

  const SecurityBlockMessage := "Security Block: You are using HTTPS but the backend is HTTP. Please use HTTP for both."
  const UnreachableMessage := "Server Unreachable: Ensure your Django server is running at http://127.0.0.1:8000."
  const GenericServerMessage := "An unexpected server error occurred."

  /** `error.response?.data?.message` */
  function ServerMessage(e: HttpError): Option<string> {
    match e
    case NoResponse => None
    case ErrorResponse(data) => if data.Some? then data.value.message else None
  }

  /** `handleApiError`: the user-facing text for a failed request, given the page's
      `window.location.protocol`. */
  function HandleApiError(e: HttpError, protocol: string): (msg: string)
    ensures msg != ""
    ensures e.NoResponse? && protocol == "https:" ==> msg == SecurityBlockMessage
    ensures e.NoResponse? && protocol != "https:" ==> msg == UnreachableMessage
    ensures e.ErrorResponse? && StringTruthy(ServerMessage(e)) ==> msg == ServerMessage(e).value
    ensures e.ErrorResponse? && !StringTruthy(ServerMessage(e)) ==> msg == GenericServerMessage
  {
    match e
    case NoResponse =>
      if protocol == "https:" then SecurityBlockMessage else UnreachableMessage
    case ErrorResponse(_) =>
      StringOr(ServerMessage(e), GenericServerMessage)
  }

  const AuthorizationHeader := "Authorization"

  /** The headers every request starts with. */
  const DefaultHeaders: map<string, string> := map["Content-Type" := "application/json"]

  /** The request interceptor: adds `Authorization: Bearer <token>` iff the stored
      token is truthy, and leaves every other header as it was. */
  function AttachBearer(headers: map<string, string>, stored: Option<string>): (r: map<string, string>)
    ensures StringTruthy(stored) ==> AuthorizationHeader in r && r[AuthorizationHeader] == "Bearer " + stored.value
    ensures !StringTruthy(stored) ==> r == headers
    ensures forall k :: k != AuthorizationHeader ==> (k in r <==> k in headers)
    ensures forall k :: k in headers && k != AuthorizationHeader ==> k in r && r[k] == headers[k]
  {
    if StringTruthy(stored) then headers[AuthorizationHeader := "Bearer " + stored.value] else headers
  }
}
