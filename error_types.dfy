/**
 * The error taxonomy: the closed set of error codes, the fixed code-to-status
 * table, and the shapes of a field issue and of a failure envelope.
 */
module ErrorTypes {
  import opened Wrappers
  import opened Json

  /** The 19 error codes: eight generic client codes, five generic server codes, six domain codes. */
  datatype ErrorCode =
    | BadRequest | Unauthorized | Forbidden | NotFound | MethodNotAllowed
    | Conflict | UnprocessableEntity | TooManyRequests
    | InternalServerError | NotImplemented | BadGateway | ServiceUnavailable | GatewayTimeout
    | ValidationError | AuthenticationError | AuthorizationError | ResourceNotFound
    | DuplicateResource | ExternalServiceError

  predicate IsGenericClientCode(c: ErrorCode) {
    c.BadRequest? || c.Unauthorized? || c.Forbidden? || c.NotFound? || c.MethodNotAllowed?
    || c.Conflict? || c.UnprocessableEntity? || c.TooManyRequests?
  }

  predicate IsGenericServerCode(c: ErrorCode) {
    c.InternalServerError? || c.NotImplemented? || c.BadGateway? || c.ServiceUnavailable?
    || c.GatewayTimeout?
  }

  predicate IsDomainCode(c: ErrorCode) {
    c.ValidationError? || c.AuthenticationError? || c.AuthorizationError?
    || c.ResourceNotFound? || c.DuplicateResource? || c.ExternalServiceError?
  }

  /** Every code, each once, in declaration order. */
  function AllCodes(): (codes: seq<ErrorCode>)
    ensures |codes| == 19
    ensures forall i, j :: 0 <= i < j < |codes| ==> codes[i] != codes[j]
  {
    [BadRequest, Unauthorized, Forbidden, NotFound, MethodNotAllowed, Conflict,
     UnprocessableEntity, TooManyRequests, InternalServerError, NotImplemented,
     BadGateway, ServiceUnavailable, GatewayTimeout, ValidationError,
     AuthenticationError, AuthorizationError, ResourceNotFound, DuplicateResource,
     ExternalServiceError]
  }

  /** The enum is closed: every code is one of the 19 listed. */
  lemma AllCodesComplete(c: ErrorCode)
    ensures c in AllCodes()
  {
    var codes := AllCodes();
    match c
    case BadRequest => assert codes[0] == c;
    case Unauthorized => assert codes[1] == c;
    case Forbidden => assert codes[2] == c;
    case NotFound => assert codes[3] == c;
    case MethodNotAllowed => assert codes[4] == c;
    case Conflict => assert codes[5] == c;
    case UnprocessableEntity => assert codes[6] == c;
    case TooManyRequests => assert codes[7] == c;
    case InternalServerError => assert codes[8] == c;
    case NotImplemented => assert codes[9] == c;
    case BadGateway => assert codes[10] == c;
    case ServiceUnavailable => assert codes[11] == c;
    case GatewayTimeout => assert codes[12] == c;
    case ValidationError => assert codes[13] == c;
    case AuthenticationError => assert codes[14] == c;
    case AuthorizationError => assert codes[15] == c;
    case ResourceNotFound => assert codes[16] == c;
    case DuplicateResource => assert codes[17] == c;
    case ExternalServiceError => assert codes[18] == c;
  }

  /** The string value each enum member carries on the wire. */
  function CodeName(c: ErrorCode): string {
    match c
    case BadRequest => "BAD_REQUEST"
    case Unauthorized => "UNAUTHORIZED"
    case Forbidden => "FORBIDDEN"
    case NotFound => "NOT_FOUND"
    case MethodNotAllowed => "METHOD_NOT_ALLOWED"
    case Conflict => "CONFLICT"
    case UnprocessableEntity => "UNPROCESSABLE_ENTITY"
    case TooManyRequests => "TOO_MANY_REQUESTS"
    case InternalServerError => "INTERNAL_SERVER_ERROR"
    case NotImplemented => "NOT_IMPLEMENTED"
    case BadGateway => "BAD_GATEWAY"
    case ServiceUnavailable => "SERVICE_UNAVAILABLE"
    case GatewayTimeout => "GATEWAY_TIMEOUT"
    case ValidationError => "VALIDATION_ERROR"
    case AuthenticationError => "AUTHENTICATION_ERROR"
    case AuthorizationError => "AUTHORIZATION_ERROR"
    case ResourceNotFound => "RESOURCE_NOT_FOUND"
    case DuplicateResource => "DUPLICATE_RESOURCE"
    case ExternalServiceError => "EXTERNAL_SERVICE_ERROR"
  }

  /**
   * The member a wire name could belong to, told apart by its length and its
   * first and fifth characters.
   */
  function CodeOfShape(s: string): Option<ErrorCode>
    requires |s| >= 5
  {
    if |s| == 11 && s[0] == 'B' && s[4] == 'R' then Some(BadRequest)
    else if |s| == 12 && s[0] == 'U' && s[4] == 'T' then Some(Unauthorized)
    else if |s| == 9 && s[0] == 'F' && s[4] == 'I' then Some(Forbidden)
    else if |s| == 9 && s[0] == 'N' && s[4] == 'F' then Some(NotFound)
    else if |s| == 18 && s[0] == 'M' && s[4] == 'O' then Some(MethodNotAllowed)
    else if |s| == 8 && s[0] == 'C' && s[4] == 'L' then Some(Conflict)
    else if |s| == 20 && s[0] == 'U' && s[4] == 'O' then Some(UnprocessableEntity)
    else if |s| == 17 && s[0] == 'T' && s[4] == 'M' then Some(TooManyRequests)
    else if |s| == 21 && s[0] == 'I' && s[4] == 'R' then Some(InternalServerError)
    else if |s| == 15 && s[0] == 'N' && s[4] == 'I' then Some(NotImplemented)
    else if |s| == 11 && s[0] == 'B' && s[4] == 'G' then Some(BadGateway)
    else if |s| == 19 && s[0] == 'S' && s[4] == 'I' then Some(ServiceUnavailable)
    else if |s| == 15 && s[0] == 'G' && s[4] == 'W' then Some(GatewayTimeout)
    else if |s| == 16 && s[0] == 'V' && s[4] == 'D' then Some(ValidationError)
    else if |s| == 20 && s[0] == 'A' && s[4] == 'E' then Some(AuthenticationError)
    else if |s| == 19 && s[0] == 'A' && s[4] == 'O' then Some(AuthorizationError)
    else if |s| == 18 && s[0] == 'R' && s[4] == 'U' then Some(ResourceNotFound)
    else if |s| == 18 && s[0] == 'D' && s[4] == 'I' then Some(DuplicateResource)
    else if |s| == 22 && s[0] == 'E' && s[4] == 'R' then Some(ExternalServiceError)
    else None
  }

  /** Reading a wire name back: the member whose name it is, if any. */
  function ParseCodeName(s: string): (c: Option<ErrorCode>)
    ensures c.Some? ==> CodeName(c.value) == s
  {
    if |s| < 5 then None
    else
      var guess := CodeOfShape(s);
      if guess.Some? && CodeName(guess.value) == s then guess else None
  }

  /** The shape of each wire name picks out its own member, one group of codes at a time. */
  lemma ClientCodeShape(c: ErrorCode)
    requires IsGenericClientCode(c)
    ensures |CodeName(c)| >= 5 && CodeOfShape(CodeName(c)) == Some(c)
  {
  }

  lemma ServerCodeShape(c: ErrorCode)
    requires IsGenericServerCode(c)
    ensures |CodeName(c)| >= 5 && CodeOfShape(CodeName(c)) == Some(c)
  {
  }

  lemma DomainCodeShape(c: ErrorCode)
    requires IsDomainCode(c)
    ensures |CodeName(c)| >= 5 && CodeOfShape(CodeName(c)) == Some(c)
  {
  }

  /** Every wire name reads back as its own member. */
  lemma CodeNameRoundTrip(c: ErrorCode)
    ensures ParseCodeName(CodeName(c)) == Some(c)
  {
    if IsGenericClientCode(c) {
      ClientCodeShape(c);
    } else if IsGenericServerCode(c) {
      ServerCodeShape(c);
    } else {
      DomainCodeShape(c);
    }
  }

  /** So no two members share a wire name. */
  lemma CodeNamesDistinct(a: ErrorCode, b: ErrorCode)
    ensures CodeName(a) == CodeName(b) <==> a == b
  {
    CodeNameRoundTrip(a);
    CodeNameRoundTrip(b);
  }

  /** The status table, total over the closed set of codes. */
  function HttpStatus(c: ErrorCode): (status: int)
    ensures IsGenericClientCode(c) ==> 400 <= status <= 499
    ensures IsGenericServerCode(c) ==> 500 <= status <= 599
    ensures 400 <= status <= 599
  {
    match c
    case BadRequest => 400
    case Unauthorized => 401
    case Forbidden => 403
    case NotFound => 404
    case MethodNotAllowed => 405
    case Conflict => 409
    case UnprocessableEntity => 422
    case TooManyRequests => 429
    case InternalServerError => 500
    case NotImplemented => 501
    case BadGateway => 502
    case ServiceUnavailable => 503
    case GatewayTimeout => 504
    case ValidationError => 400
    case AuthenticationError => 401
    case AuthorizationError => 403
    case ResourceNotFound => 404
    case DuplicateResource => 409
    case ExternalServiceError => 502
  }

  /** The generic code whose meaning a domain code refines. */
  function GenericCounterpart(c: ErrorCode): (g: ErrorCode)
    requires IsDomainCode(c)
    ensures !IsDomainCode(g)
  {
    match c
    case ValidationError => BadRequest
    case AuthenticationError => Unauthorized
    case AuthorizationError => Forbidden
    case ResourceNotFound => NotFound
    case DuplicateResource => Conflict
    case ExternalServiceError => BadGateway
  }

  /** The three groups partition the codes. */
  lemma CodeGroupsPartition(c: ErrorCode)
    ensures IsGenericClientCode(c) || IsGenericServerCode(c) || IsDomainCode(c)
    ensures !(IsGenericClientCode(c) && IsGenericServerCode(c))
    ensures !(IsGenericClientCode(c) && IsDomainCode(c))
    ensures !(IsGenericServerCode(c) && IsDomainCode(c))
  {
  }

  /** Each domain code answers with the status of its generic counterpart. */
  lemma DomainCodeStatus(c: ErrorCode)
    requires IsDomainCode(c)
    ensures HttpStatus(c) == HttpStatus(GenericCounterpart(c))
  {
  }

  /** Two distinct codes share a status exactly when one is the domain refinement of the other. */
  lemma StatusCollision(c1: ErrorCode, c2: ErrorCode)
    requires c1 != c2
    ensures HttpStatus(c1) == HttpStatus(c2) <==>
      (IsDomainCode(c1) && GenericCounterpart(c1) == c2) || (IsDomainCode(c2) && GenericCounterpart(c2) == c1)
  {
  }

  /** The table is not injective: exactly six statuses are shared, each by two codes. */
  lemma SharedStatuses(status: int)
    ensures (exists c1, c2 :: c1 != c2 && HttpStatus(c1) == status && HttpStatus(c2) == status)
      <==> status in {400, 401, 403, 404, 409, 502}
  {
    if status in {400, 401, 403, 404, 409, 502} {
      var d :=
        if status == 400 then ValidationError
        else if status == 401 then AuthenticationError
        else if status == 403 then AuthorizationError
        else if status == 404 then ResourceNotFound
        else if status == 409 then DuplicateResource
        else ExternalServiceError;
      assert d != GenericCounterpart(d) && HttpStatus(d) == status && HttpStatus(GenericCounterpart(d)) == status;
    }
  }

  /** One field-level issue: `message` is always present, the rest is optional. */
  datatype ErrorDetails = ErrorDetails(
    field: Option<string>,
    message: string,
    code: Option<string>,
    value: Option<Value>)

  /** The `error` member of a failure envelope (`stack` is only ever added by the error handler). */
  datatype ErrorBody = ErrorBody(
    code: ErrorCode,
    message: string,
    details: Option<seq<ErrorDetails>>,
    timestamp: string,
    path: Option<string>,
    requestId: Option<string>,
    stack: Option<string>)

  /** A failure envelope. */
  datatype ErrorResponse = ErrorResponse(success: bool, error: ErrorBody)

  predicate IsFailureEnvelope(r: ErrorResponse) {
    !r.success
  }
}
