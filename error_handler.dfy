/**
 * The terminal error stage: it classifies whatever was thrown into an
 * ApiError (first match wins), builds the one failure envelope, and writes it
 * with the error's status. NODE_ENV is a parameter: `createEnv` is its value
 * when the handler is created (it fixes the stack-trace default), `nodeEnv`
 * its value when an error is handled (it decides redaction). The request's
 * path and its `x-request-id` header are parameters too.
 */
module ErrorHandler {
  import opened Wrappers
  import opened Json
  import opened ErrorTypes
  import opened ApiErrors
  import opened Zod
  import opened Exceptions
  import opened Transport

  /** The options object; every member may be left out. The logger itself is the exchange's log. */
  datatype ErrorHandlerOptions = ErrorHandlerOptions(includeStackTrace: Option<bool>, logErrors: Option<bool>)

  /** The handler's settings after defaults are applied. */
  datatype Handler = Handler(includeStackTrace: bool, logErrors: bool)

  function CreateErrorHandler(options: ErrorHandlerOptions, createEnv: Option<string>): (h: Handler)
    ensures options.includeStackTrace.Some? ==> h.includeStackTrace == options.includeStackTrace.value
    ensures options.includeStackTrace.None? ==> (h.includeStackTrace <==> createEnv == Some("development"))
    ensures h.logErrors <==> options.logErrors != Some(false)
  {
    Handler(options.includeStackTrace.GetOr(createEnv == Some("development")), options.logErrors.GetOr(true))
  }

  const UNKNOWN_ERROR_MESSAGE := "Internal server error"

  /** A third-party error shape the chain recognises by name (and, for MongoError, by code). */
  predicate IsKnownShape(name: string, code: Option<Value>) {
    name == "ValidationError" || name == "CastError"
    || (name == "MongoError" && code == Some(JNumber(11000)))
    || name == "JsonWebTokenError" || name == "TokenExpiredError"
  }

  /** The classification chain of the handler. */
  function Classify(error: Thrown, nodeEnv: Option<string>, now: string): (e: ApiError)
    ensures error.ThrownApiError? ==> e == error.apiError
    ensures error.ThrownZodError? ==>
      e.code == ErrorCode.ValidationError && e.message == "Validation failed"
      && e.details == Some(ZodDetails(error.issues))
    ensures !error.ThrownApiError? ==> Valid(e) && e.timestamp == now
    ensures error.ThrownOther? ==> e.details.None?
    ensures error.ThrownOther? ==> (e.isOperational <==> IsKnownShape(error.name, error.code))
    ensures error.ThrownZodError? ==> e.isOperational
    ensures error.ThrownOther? && !IsKnownShape(error.name, error.code) ==>
      e.code == InternalServerError
      && e.message == (if nodeEnv == Some("production") then UNKNOWN_ERROR_MESSAGE else error.message)
  {
    match error
    case ThrownApiError(apiError, _) => apiError
    case ThrownZodError(issues, _) =>
      NewApiError(ErrorCode.ValidationError, "Validation failed", Some(ZodDetails(issues)), None, now)
    case ThrownOther(name, message, code, _) =>
      if name == "ValidationError" then NewApiError(ErrorCode.ValidationError, message, None, None, now)
      else if name == "CastError" then NewApiError(BadRequest, "Invalid data format", None, None, now)
      else if name == "MongoError" && code == Some(JNumber(11000)) then
        NewApiError(DuplicateResource, "Resource already exists", None, None, now)
      else if name == "JsonWebTokenError" then NewApiError(AuthenticationError, "Invalid token", None, None, now)
      else if name == "TokenExpiredError" then NewApiError(AuthenticationError, "Token expired", None, None, now)
      else
        NewApiError(InternalServerError,
                    if nodeEnv == Some("production") then UNKNOWN_ERROR_MESSAGE else message,
                    None, Some(false), now)
  }

  /** Codes and messages the chain gives the recognised third-party shapes. */
  lemma KnownShapes(message: string, code: Option<Value>, stack: Option<string>, nodeEnv: Option<string>, now: string)
    ensures var e := Classify(ThrownOther("ValidationError", message, code, stack), nodeEnv, now);
      e.code == ErrorCode.ValidationError && e.message == message && e.statusCode == 400
    ensures var e := Classify(ThrownOther("CastError", message, code, stack), nodeEnv, now);
      e.code == BadRequest && e.message == "Invalid data format" && e.statusCode == 400
    ensures var e := Classify(ThrownOther("MongoError", message, Some(JNumber(11000)), stack), nodeEnv, now);
      e.code == DuplicateResource && e.message == "Resource already exists" && e.statusCode == 409
    ensures var e := Classify(ThrownOther("JsonWebTokenError", message, code, stack), nodeEnv, now);
      e.code == AuthenticationError && e.message == "Invalid token" && e.statusCode == 401
    ensures var e := Classify(ThrownOther("TokenExpiredError", message, code, stack), nodeEnv, now);
      e.code == AuthenticationError && e.message == "Token expired" && e.statusCode == 401
  {
  }

  /** A MongoError with any other code is an unknown error: 500 and non-operational. */
  lemma OtherMongoErrorIsInternal(message: string, code: Option<Value>, stack: Option<string>,
                                  nodeEnv: Option<string>, now: string)
    requires code != Some(JNumber(11000))
    ensures var e := Classify(ThrownOther("MongoError", message, code, stack), nodeEnv, now);
      e.code == InternalServerError && e.statusCode == 500 && !e.isOperational
  {
  }

  /** Redaction: in production an unknown error never reveals its own message. */
  lemma ProductionRedactsUnknown(error: Thrown, now: string)
    requires error.ThrownOther? && !IsKnownShape(error.name, error.code)
    ensures Classify(error, Some("production"), now).message == UNKNOWN_ERROR_MESSAGE
    ensures forall env :: env != Some("production") ==> Classify(error, env, now).message == error.message
  {
  }

  /** Every error the chain lets through carries the table's status for its code. */
  lemma ClassifyKeepsValid(error: Thrown, nodeEnv: Option<string>, now: string)
    requires error.ThrownApiError? ==> Valid(error.apiError)
    ensures Valid(Classify(error, nodeEnv, now))
  {
  }

  /** The failure envelope: the classified error, the request path and request id, and the stack when allowed. */
  function ErrorEnvelope(h: Handler, error: Thrown, nodeEnv: Option<string>, path: string,
                         requestIdHeader: Option<string>, now: string): (r: ErrorResponse)
    ensures IsFailureEnvelope(r)
    ensures var e := Classify(error, nodeEnv, now);
      r.error.code == e.code && r.error.message == e.message
      && r.error.details == e.details && r.error.timestamp == e.timestamp
    ensures r.error.path == Some(path) && r.error.requestId == requestIdHeader
    ensures r.error.stack.Some? <==>
      h.includeStackTrace && !Classify(error, nodeEnv, now).isOperational && error.stack.Some?
    ensures r.error.stack.Some? ==> r.error.stack == error.stack
  {
    var e := Classify(error, nodeEnv, now);
    var stack := if h.includeStackTrace && !e.isOperational then error.stack else None;
    ErrorResponse(false, ErrorBody(e.code, e.message, e.details, e.timestamp, Some(path), requestIdHeader, stack))
  }

  /** An error created by the chain never shows its stack unless it was an unknown one. */
  lemma StackOnlyForUnknown(h: Handler, error: Thrown, nodeEnv: Option<string>, path: string,
                            requestIdHeader: Option<string>, now: string)
    requires !error.ThrownApiError?
    ensures ErrorEnvelope(h, error, nodeEnv, path, requestIdHeader, now).error.stack.Some? ==>
      error.ThrownOther? && !IsKnownShape(error.name, error.code)
  {
  }

  /** The status written agrees with the table entry for the code in the body. */
  lemma StatusMatchesBody(h: Handler, error: Thrown, nodeEnv: Option<string>, path: string,
                          requestIdHeader: Option<string>, now: string)
    requires error.ThrownApiError? ==> Valid(error.apiError)
    ensures Classify(error, nodeEnv, now).statusCode ==
      HttpStatus(ErrorEnvelope(h, error, nodeEnv, path, requestIdHeader, now).error.code)
  {
  }

  /**
   * The handler: log (when enabled) before anything else, then write exactly one
   * failure envelope. It does not check `headersSent`, so when a response has
   * already started the write fails and no envelope is sent.
   */
  method HandleError(h: Handler, error: Thrown, nodeEnv: Option<string>, path: string,
                     requestIdHeader: Option<string>, now: string, ex: Exchange<Thrown, ErrorResponse>)
    modifies ex
    ensures !old(ex.headersSent) ==>
              ex.events == old(ex.events)
                + (if h.logErrors then [Logged(error)] else [])
                + [Responded(Classify(error, nodeEnv, now).statusCode,
                             ErrorEnvelope(h, error, nodeEnv, path, requestIdHeader, now))]
    ensures old(ex.headersSent) ==>
              ex.events == old(ex.events)
                + (if h.logErrors then [Logged(error)] else [])
                + [HeadersAlreadySent(Classify(error, nodeEnv, now).statusCode)]
    ensures ex.headersSent
  {
    if h.logErrors {
      ex.Log(error);
    }
    var apiError := Classify(error, nodeEnv, now);
    var response := ErrorResponse(false, ErrorBody(apiError.code, apiError.message, apiError.details,
                                                   apiError.timestamp, Some(path), requestIdHeader, None));
    if h.includeStackTrace && !apiError.isOperational {
      response := response.(error := response.error.(stack := error.stack));
    }
    ex.Respond(apiError.statusCode, response);
  }

  /** The error the not-found handler passes on for an unmatched route. */
  function RouteNotFound(httpMethod: string, path: string, now: string): (e: ApiError)
    ensures Valid(e) && e.isOperational && e.details.None?
    ensures e.code == NotFound && e.statusCode == 404
    ensures e.message == "Route " + httpMethod + " " + path + " not found"
  {
    NewApiError(NotFound, "Route " + httpMethod + " " + path + " not found", None, None, now)
  }

  /** `notFoundHandler`: hands the not-found error to `next` and writes nothing itself. */
  method NotFoundHandler(httpMethod: string, path: string, now: string, ex: Exchange<Thrown, ErrorResponse>)
    modifies ex
    ensures ex.events == old(ex.events) + [NextCalled(Some(ThrownApiError(RouteNotFound(httpMethod, path, now), None)))]
    ensures ex.headersSent == old(ex.headersSent)
  {
    ex.Next(Some(ThrownApiError(RouteNotFound(httpMethod, path, now), None)));
  }

  /** An unmatched route, once handled, answers 404 with a NOT_FOUND envelope naming method and path. */
  lemma UnmatchedRouteEnvelope(h: Handler, httpMethod: string, path: string, nodeEnv: Option<string>,
                               requestIdHeader: Option<string>, now: string)
    ensures var error := ThrownApiError(RouteNotFound(httpMethod, path, now), None);
      var r := ErrorEnvelope(h, error, nodeEnv, path, requestIdHeader, now);
      Classify(error, nodeEnv, now).statusCode == 404
      && r.error.code == NotFound && r.error.stack.None? && r.error.path == Some(path)
      && r.error.message == "Route " + httpMethod + " " + path + " not found"
  {
  }
}
