/**
 * One `session.get(...)` exchange, collapsed into the value the integration
 * observes. URLs, headers and the 10-second client timeout are not modelled:
 * each request is represented only by its outcome.
 */
module Http {
  import opened Wrappers
  import opened JsonValues

  /** Status codes from which aiohttp's `raise_for_status` raises. */
  const FirstErrorStatus: int := 400

  /** "401 Unauthorized", section 15.5.2 of RFC 9110. */
  const Unauthorized: int := 401

  /** What `await response.json()` would make of the body. */
  datatype Body =
    | Parsed(obj: map<string, Json>)   // a JSON object
    | NotJson                          // wrong content type: aiohttp raises ContentTypeError
    | Undecodable                      // malformed JSON text: json raises JSONDecodeError

  /** The outcome of one GET request. */
  datatype Outcome =
    | Response(status: int, body: Body)
    | TimedOut                         // asyncio.TimeoutError
    | ConnectionFailed                 // a ClientConnectionError such as connection refused

  /** The exception a GET (and, where it is read, its body) ends in. */
  datatype Raised =
    | ResponseError(status: int)       // ClientResponseError, including ContentTypeError
    | ConnectionError                  // any other aiohttp.ClientError
    | Timeout                          // asyncio.TimeoutError
    | DecodeError                      // ValueError from the JSON decoder

  /** Caught by `except (aiohttp.ClientError, asyncio.TimeoutError)`. */
  predicate IsClientErrorOrTimeout(e: Raised)
  {
    !e.DecodeError?
  }

  /** Whether the exception object has a `status` attribute. */
  predicate HasStatus(e: Raised)
  {
    e.ResponseError?
  }

  /** `response.raise_for_status()` without reading the body. */
  function RaiseForStatus(o: Outcome): (r: Option<Raised>)
    ensures r.None? <==> o.Response? && o.status < FirstErrorStatus
    ensures o.Response? && o.status >= FirstErrorStatus ==> r == Some(ResponseError(o.status))
    ensures r == Some(Timeout) <==> o.TimedOut?
    ensures r == Some(ConnectionError) <==> o.ConnectionFailed?
    ensures r.Some? ==> r.value != DecodeError
  {
    match o
    case Response(status, _) =>
      if status >= FirstErrorStatus then Some(ResponseError(status)) else None
    case TimedOut => Some(Timeout)
    case ConnectionFailed => Some(ConnectionError)
  }

  /** `response.raise_for_status()` followed by `await response.json()`. */
  function ReadJson(o: Outcome): (r: Result<map<string, Json>, Raised>)
    ensures r.Success? <==> o.Response? && o.status < FirstErrorStatus && o.body.Parsed?
    ensures r.Success? ==> r.value == o.body.obj
    ensures r == Failure(DecodeError) <==> o.Response? && o.status < FirstErrorStatus && o.body.Undecodable?
    ensures RaiseForStatus(o).Some? ==> r == Failure(RaiseForStatus(o).value)
    ensures o.Response? && o.status < FirstErrorStatus && o.body.NotJson? ==> r == Failure(ResponseError(o.status))
    ensures r.Failure? && r.error.ResponseError? ==> o.Response? && r.error.status == o.status
  {
    match RaiseForStatus(o)
    case Some(e) => Failure(e)
    case None =>
      match o.body
      case Parsed(obj) => Success(obj)
      case NotJson => Failure(ResponseError(o.status))
      case Undecodable => Failure(DecodeError)
  }
}
