/**
  The downstream client: the classifier that turns a failed REST call into the shared error
  record, and the envelope every call (get, post, put, patch, delete) returns.
 */
module AirTableClient {
  import opened Wrappers
  import opened Http

  /**
    The body's `error` member: an object with optional `type` and `message`. A bare string
    error (`"NOT_FOUND"`) is truthy but has neither, so it is `AirBodyError(None, None)`.
   */
  datatype AirBodyError = AirBodyError(kind: Option<string>, message: Option<string>)

  /** What a call that raised carries: status, body error, transport code, message. */
  datatype CallFailure = CallFailure(
    status: Option<int>,
    bodyError: Option<AirBodyError>,
    code: Option<string>,
    message: Option<string>)

  /** `AIRTABLE_ERROR_CODES` */
  const AirTableErrorCodes: map<int, CodeEntry> := map[
    400 := CodeEntry("BAD_REQUEST",
                     "The request encoding is invalid; the request cannot be parsed as valid JSON.",
                     "Invalid request format. Please check your data and try again."),
    401 := CodeEntry("UNAUTHORIZED",
                     "Accessing a protected resource without authorization or with invalid credentials.",
                     "Authentication failed. Please check your API key."),
    402 := CodeEntry("PAYMENT_REQUIRED", "The account associated with the API key has hit a quota limit.",
                     "API quota exceeded. Please upgrade your AirTable plan."),
    403 := CodeEntry("FORBIDDEN",
                     "Accessing a protected resource with API credentials that do not have access.",
                     "Access denied. Check your API key permissions."),
    404 := CodeEntry("NOT_FOUND", "Route or resource is not found.", "The requested resource was not found."),
    413 := CodeEntry("REQUEST_ENTITY_TOO_LARGE", "The request exceeded the maximum allowed payload size.",
                     "Request data is too large. Please reduce the payload size."),
    422 := CodeEntry("INVALID_REQUEST", "The request data is invalid.",
                     "Invalid request data. Please check your input."),
    429 := CodeEntry("RATE_LIMIT_EXCEEDED", "Rate limit exceeded. Please try again later.",
                     "Too many requests. Please wait 30 seconds and try again."),
    500 := CodeEntry("INTERNAL_SERVER_ERROR", "The server encountered an unexpected condition.",
                     "Server error occurred. Please try again later."),
    502 := CodeEntry("BAD_GATEWAY",
                     "AirTable servers are restarting or an unexpected outage is in progress.",
                     "Service temporarily unavailable. Please try again."),
    503 := CodeEntry("SERVICE_UNAVAILABLE", "The server could not process your request in time.",
                     "Service is temporarily unavailable. Please try again.")
  ]

  /** `parseAirTableError`: body error, then status table, then transport code, then unknown. */
  function ParseAirTableError(e: CallFailure): (r: ErrorInfo)
    ensures r.message != "" && r.userMessage != ""
    ensures r.status == 0 || r.status == StatusOrZero(e.status)
  {
    var status := StatusOrZero(e.status);
    match e.bodyError
    case Some(b) =>
      ErrorInfo(OrElse(b.kind, "UNKNOWN_ERROR"),
                OrElse(b.message, "Unknown error occurred"),
                OrElse(b.message, "An error occurred while processing your request."),
                status)
    case None =>
      if status in AirTableErrorCodes then
        FromEntry(AirTableErrorCodes[status], status)
      else if e.code == Some("ECONNABORTED") then
        ErrorInfo("TIMEOUT", "Request timeout", "Request timed out. Please try again.", 0)
      else if e.code == Some("ENOTFOUND") || e.code == Some("ECONNREFUSED") then
        ErrorInfo("NETWORK_ERROR", "Network connection error",
                  "Unable to connect to AirTable. Please check your internet connection.", 0)
      else
        ErrorInfo("UNKNOWN_ERROR", OrElse(e.message, "Unknown error occurred"),
                  "An unexpected error occurred. Please try again.", status)
  }

  /** The statuses the table maps: 400, 401, 402, 403, 404, 413, 422, 429, 500, 502 and 503. */
  lemma AirTableTableDomain()
    ensures AirTableErrorCodes.Keys == {400, 401, 402, 403, 404, 413, 422, 429, 500, 502, 503}
    ensures AirTableErrorCodes[422].kind == "INVALID_REQUEST"
  {
  }

  /**
    The decision table: a body error wins over the status (keeping the status, mapped or not),
    and a mapped status wins over the transport code.
   */
  lemma ParseAirTableErrorCases(e: CallFailure)
    ensures e.bodyError.Some? ==>
              ParseAirTableError(e).kind == OrElse(e.bodyError.value.kind, "UNKNOWN_ERROR") &&
              ParseAirTableError(e).status == StatusOrZero(e.status)
    ensures e.bodyError.None? && StatusOrZero(e.status) in AirTableErrorCodes ==>
              ParseAirTableError(e) == FromEntry(AirTableErrorCodes[StatusOrZero(e.status)], StatusOrZero(e.status))
  {
  }

  /**
    An unmapped status without a body error falls to the transport code, then to UNKNOWN_ERROR:
    a status such as 418 without a transport code is UNKNOWN_ERROR carrying that status.
   */
  lemma ParseAirTableErrorFallback(e: CallFailure)
    ensures e.bodyError.None? && StatusOrZero(e.status) !in AirTableErrorCodes ==>
              (e.code == Some("ECONNABORTED") ==> ParseAirTableError(e).kind == "TIMEOUT" && ParseAirTableError(e).status == 0) &&
              (e.code == Some("ENOTFOUND") || e.code == Some("ECONNREFUSED") ==>
                 ParseAirTableError(e).kind == "NETWORK_ERROR" && ParseAirTableError(e).status == 0) &&
              (e.code != Some("ECONNABORTED") && e.code != Some("ENOTFOUND") && e.code != Some("ECONNREFUSED") ==>
                 ParseAirTableError(e).kind == "UNKNOWN_ERROR" && ParseAirTableError(e).status == StatusOrZero(e.status))
  {
  }

  /** The outcome of one REST call: a response (status and body) or a raised failure. */
  datatype CallOutcome<D> = Responded(status: int, body: D) | Failed(failure: CallFailure)

  /** `{errors, data, status, success}` */
  datatype Envelope<D> = Envelope(errors: seq<ErrorInfo>, data: Option<D>, status: int, success: bool)

  /**
    The envelope of `airTableWrapper.get`, `post`, `put`, `patch` and `delete`, which differ
    only in the HTTP verb: never raises, success exactly when the call responded.
   */
  function Request<D>(outcome: CallOutcome<D>): (r: Envelope<D>)
    ensures r.success <==> r.errors == []
    ensures r.success <==> outcome.Responded?
    ensures r.success ==> r.data == Some(outcome.body) && r.status == outcome.status
    ensures !r.success ==> r.data.None? && r.errors == [ParseAirTableError(outcome.failure)] &&
                           r.status == r.errors[0].status
  {
    match outcome
    case Responded(status, body) => Envelope([], Some(body), status, true)
    case Failed(failure) =>
      var parsed := ParseAirTableError(failure);
      Envelope([parsed], None, parsed.status, false)
  }
}
