/** The request configuration, transport outcomes and the shapes the client
    hands to its callers: the success envelope, the normalised error and the
    unauthorised-session event. */
module HttpTypes {
  import opened JsValues

  /** Header name to value; names are compared exactly. */
  type Headers = map<string, string>

  /** The axios error code for an aborted (timed out) request. */
  const ECONNABORTED := "ECONNABORTED"

  /** The per-request configuration seen by the interceptors. `baseUrl` is
      the origin of the client instance that sends it; `withAuth`, `retry`,
      `retryCount` and `requestId` are the client's own additions. */
  datatype RequestConfig = RequestConfig(
    httpMethod: Option<string>,
    baseUrl: string,
    url: string,
    headers: Headers,
    withAuth: Option<bool>,
    retry: Option<int>,
    retryCount: nat,
    requestId: Option<string>)

  /** A response received from the server. */
  datatype Response = Response(status: int, statusText: string, headers: Headers, data: Json)

  /** A failed attempt: the response when one arrived, and the transport's error code. */
  datatype TransportError = TransportError(response: Option<Response>, code: Option<string>)

  /** The outcome of handing one request to the transport. */
  datatype Attempt = Delivered(response: Response) | Failed(error: TransportError)

  /** The envelope every successful call resolves with. */
  datatype ApiResponse = ApiResponse(data: Json, status: int, headers: Headers, requestId: Option<string>)

  /** The only error shape callers observe. */
  datatype ApiError = ApiError(
    message: string,
    status: Option<int>,
    code: Option<string>,
    details: Option<Json>,
    requestId: Option<string>)

  /** The detail of an `auth:unauthorized` event. */
  datatype UnauthorizedEvent = UnauthorizedEvent(
    at: int,
    status: int,
    requestId: Option<string>,
    url: Option<string>,
    httpMethod: string,
    reason: Json)

  function HeaderValue(headers: Headers, name: string): Option<string> {
    if name in headers then Some(headers[name]) else None
  }

  /** The correlation id of an outcome: the non-empty `x-request-id` the
      server echoed, else the one the client stamped on the request. */
  function CorrelationId(responseHeaders: Option<Headers>, cfg: Option<RequestConfig>): (id: Option<string>)
    ensures responseHeaders.Some? && Truthy(HeaderValue(responseHeaders.value, "x-request-id")) ==>
              id == Some(responseHeaders.value["x-request-id"])
    ensures !(responseHeaders.Some? && Truthy(HeaderValue(responseHeaders.value, "x-request-id"))) ==>
              id == (if cfg.Some? then cfg.value.requestId else None)
  {
    var echoed := if responseHeaders.Some? then HeaderValue(responseHeaders.value, "x-request-id") else None;
    if Truthy(echoed) then echoed
    else if cfg.Some? then cfg.value.requestId
    else None
  }
}
