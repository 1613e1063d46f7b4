/**
 * What crosses the HTTP boundary: the error a route raises (FastAPI's
 * HTTPException), the request the backend sends to a StackStorm server,
 * and what comes back from it. The transport itself is not modelled: a
 * route receives the remote side as a function from request to outcome.
 */
module Http {
  import opened Wrappers
  import opened Json

  const OK := 200
  const BAD_REQUEST := 400
  const UNAUTHORIZED := 401
  const NOT_FOUND := 404
  const INTERNAL_SERVER_ERROR := 500
  const SERVICE_UNAVAILABLE := 503

  /** HTTPException(status_code, detail) */
  datatype HttpError = HttpError(status: int, detail: Json)

  function Raise(status: int, message: string): HttpError {
    HttpError(status, Str(message))
  }

  /** An outbound GET: target URL and headers. */
  datatype OutboundRequest = GetRequest(url: string, headers: map<string, Json>)

  /**
   * What awaiting client.get(...) yields:
   * a response (status, response.text, and response.json() or the message
   * of the exception it raises), an httpx.RequestError, or any other
   * exception, each with str(e).
   */
  datatype RemoteOutcome =
    | Responded(status: int, text: string, body: Result<Json, string>)
    | RequestError(message: string)
    | OtherError(message: string)

  type Remote = OutboundRequest -> RemoteOutcome
}
