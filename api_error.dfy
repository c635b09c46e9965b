/**
 * The error record every service raises: a code, its status, a message,
 * optional field issues, a timestamp and the operational flag; its wire form;
 * and the seven fixed-purpose constructors. The class hierarchy of the
 * original becomes one record with one constructor function per subclass.
 * The clock is the `now` parameter; an absent optional argument is `None`.
 */
module ApiErrors {
  import opened Wrappers
  import opened ErrorTypes

  datatype ApiError = ApiError(
    code: ErrorCode,
    statusCode: int,
    message: string,
    details: Option<seq<ErrorDetails>>,
    timestamp: string,
    isOperational: bool)

  /** The invariant every constructed error keeps: its status is the table's status for its code. */
  predicate Valid(e: ApiError) {
    e.statusCode == HttpStatus(e.code)
  }

  /** `new ApiError(code, message, details, isOperational)`; `isOperational` defaults to true. */
  function NewApiError(
    code: ErrorCode, message: string, details: Option<seq<ErrorDetails>>,
    isOperational: Option<bool>, now: string): (e: ApiError)
    ensures Valid(e)
    ensures e.code == code && e.message == message && e.details == details && e.timestamp == now
    ensures !e.isOperational <==> isOperational == Some(false)
  {
    ApiError(code, HttpStatus(code), message, details, now, isOperational.GetOr(true))
  }

  /** `toJSON`: the failure envelope without path, request id or stack. */
  function ToJson(e: ApiError): (r: ErrorResponse)
    ensures IsFailureEnvelope(r)
    ensures r.error.code == e.code && r.error.message == e.message
    ensures r.error.details == e.details && r.error.timestamp == e.timestamp
    ensures r.error.path.None? && r.error.requestId.None? && r.error.stack.None?
  {
    ErrorResponse(false, ErrorBody(e.code, e.message, e.details, e.timestamp, None, None, None))
  }

  /** A message argument with a JavaScript default parameter: only an absent argument takes the default. */
  function MessageOr(message: Option<string>, default: string): string {
    message.GetOr(default)
  }

  function ValidationError(message: Option<string>, details: Option<seq<ErrorDetails>>, now: string): (e: ApiError)
    ensures Valid(e) && e.isOperational && e.timestamp == now
    ensures e.code == ErrorCode.ValidationError && e.statusCode == 400
    ensures e.message == (if message.Some? then message.value else "Validation failed")
    ensures e.details == details
  {
    NewApiError(ErrorCode.ValidationError, MessageOr(message, "Validation failed"), details, None, now)
  }

  function AuthenticationError(message: Option<string>, now: string): (e: ApiError)
    ensures Valid(e) && e.isOperational && e.details.None? && e.timestamp == now
    ensures e.code == ErrorCode.AuthenticationError && e.statusCode == 401
    ensures e.message == (if message.Some? then message.value else "Authentication required")
  {
    NewApiError(ErrorCode.AuthenticationError, MessageOr(message, "Authentication required"), None, None, now)
  }

  function AuthorizationError(message: Option<string>, now: string): (e: ApiError)
    ensures Valid(e) && e.isOperational && e.details.None? && e.timestamp == now
    ensures e.code == ErrorCode.AuthorizationError && e.statusCode == 403
    ensures e.message == (if message.Some? then message.value else "Insufficient permissions")
  {
    NewApiError(ErrorCode.AuthorizationError, MessageOr(message, "Insufficient permissions"), None, None, now)
  }

  /** `new NotFoundError(resource)`: the message names the resource, "Resource" by default. */
  function NotFoundError(resource: Option<string>, now: string): (e: ApiError)
    ensures Valid(e) && e.isOperational && e.details.None? && e.timestamp == now
    ensures e.code == ResourceNotFound && e.statusCode == 404
    ensures e.message == (if resource.Some? then resource.value else "Resource") + " not found"
  {
    NewApiError(ResourceNotFound, MessageOr(resource, "Resource") + " not found", None, None, now)
  }

  function ConflictError(message: Option<string>, now: string): (e: ApiError)
    ensures Valid(e) && e.isOperational && e.details.None? && e.timestamp == now
    ensures e.code == DuplicateResource && e.statusCode == 409
    ensures e.message == (if message.Some? then message.value else "Resource already exists")
  {
    NewApiError(DuplicateResource, MessageOr(message, "Resource already exists"), None, None, now)
  }

  /**
   * `new ExternalServiceError(service, message)`: the message is substituted by `||`,
   * so an empty message is replaced as well as an absent one.
   */
  function ExternalServiceError(service: string, message: Option<string>, now: string): (e: ApiError)
    ensures Valid(e) && e.isOperational && e.details.None? && e.timestamp == now
    ensures e.code == ErrorCode.ExternalServiceError && e.statusCode == 502
    ensures message.Some? && message.value != "" ==> e.message == message.value
    ensures message.None? || message == Some("") ==>
      e.message == "External service " + service + " is unavailable"
    ensures e.message != ""
  {
    var text := if message.Some? && message.value != "" then message.value
                else "External service " + service + " is unavailable";
    NewApiError(ErrorCode.ExternalServiceError, text, None, None, now)
  }

  function RateLimitError(message: Option<string>, now: string): (e: ApiError)
    ensures Valid(e) && e.isOperational && e.details.None? && e.timestamp == now
    ensures e.code == TooManyRequests && e.statusCode == 429
    ensures e.message == (if message.Some? then message.value else "Too many requests")
  {
    NewApiError(TooManyRequests, MessageOr(message, "Too many requests"), None, None, now)
  }
}
