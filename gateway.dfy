/**
 * The gateway application: its environment check, its middleware stack in
 * registration order, and the two policy functions it hands the rate
 * limiter. The limiter's own counting, its 429 reply and its IP key
 * normalisation are library code; the normalisation is the
 * `ipKeyGenerator` parameter.
 */
module Gateway {
  import opened Wrappers
  import opened Json
  import opened Strings
  import opened Proxy

  /** The rate-limit window: fifteen minutes, in milliseconds. */
  const RATE_LIMIT_WINDOW_MS := 15 * 60 * 1000

  const AUTHENTICATED_BUDGET := 1000
  const ANONYMOUS_BUDGET := 100

  /** "100mb" as the body parsers read it. */
  const BODY_LIMIT_BYTES := 100 * 1024 * 1024

  /** The `max` lambda: the number of requests allowed per window, from `req.user`. */
  function RateLimitMax(user: Option<Value>): (max: nat)
    ensures max == AUTHENTICATED_BUDGET <==> user.Some? && Truthy(user.value)
    ensures max == ANONYMOUS_BUDGET <==> !(user.Some? && Truthy(user.value))
  {
    if user.Some? && Truthy(user.value) then AUTHENTICATED_BUDGET else ANONYMOUS_BUDGET
  }

  /** A query parameter as the query parser yields it: one value, or several for a repeated key. */
  datatype QueryValue = Single(s: string) | Repeated(values: seq<string>)

  /** Truthiness of a query value: only the empty string is falsy. */
  predicate QueryTruthy(v: QueryValue) {
    v.Single? ==> v.s != ""
  }

  /** `String(v)`: an array is joined with commas. */
  function QueryText(v: QueryValue): string {
    match v
    case Single(s) => s
    case Repeated(values) => Join(values, ",")
  }

  /** The `keyGenerator` lambda: the API key when it is truthy, else the normalised IP (or ""). */
  function RateLimitKey(apiKey: Option<QueryValue>, ip: Option<string>, ipKeyGenerator: string -> string)
    : (key: string)
    ensures apiKey.Some? && QueryTruthy(apiKey.value) ==> key == QueryText(apiKey.value)
    ensures !(apiKey.Some? && QueryTruthy(apiKey.value)) ==>
      key == ipKeyGenerator(if ip.Some? then ip.value else "")
  {
    if apiKey.Some? && QueryTruthy(apiKey.value) then QueryText(apiKey.value)
    else ipKeyGenerator(ip.GetOr(""))
  }

  /** An empty API key counts as none, and a missing IP is keyed as the empty one. */
  lemma EmptyApiKeyFallsBack(ip: Option<string>, ipKeyGenerator: string -> string)
    ensures RateLimitKey(Some(Single("")), ip, ipKeyGenerator) == RateLimitKey(None, ip, ipKeyGenerator)
    ensures RateLimitKey(None, None, ipKeyGenerator) == RateLimitKey(None, Some(""), ipKeyGenerator)
  {
  }

  /**
   * The API key is not checked against anything: the client's own key is its
   * bucket, whatever its IP, so two requests share a bucket exactly when they
   * name the same key; a repeated key shares the bucket of its comma-joined text.
   */
  lemma ApiKeyChoosesBucket(k1: string, k2: string, ip1: Option<string>, ip2: Option<string>,
                            ipKeyGenerator: string -> string)
    requires k1 != "" && k2 != ""
    ensures RateLimitKey(Some(Single(k1)), ip1, ipKeyGenerator) == RateLimitKey(Some(Single(k2)), ip2, ipKeyGenerator)
        <==> k1 == k2
    ensures RateLimitKey(Some(Repeated([k1, k2])), ip1, ipKeyGenerator)
         == RateLimitKey(Some(Single(k1 + "," + k2)), ip2, ipKeyGenerator)
  {
    assert Join([k1, k2], ",") == k1 + "," + Join([k2], ",");
  }

  /** One registered stage of the application, in the order of `app.use` and `app.get`. */
  datatype Layer =
    | Middleware(name: string)
    | BodyParser(name: string, limitBytes: nat)
    | RateLimiter(windowMs: nat)
    | GetRoute(path: string)
    | ProxyAll(target: Option<string>)

  /** The express application, as its ordered stack of layers. */
  class App {
    var stack: seq<Layer>

    constructor ()
      ensures stack == []
    {
      stack := [];
    }

    method Use(layer: Layer)
      modifies this
      ensures stack == old(stack) + [layer]
    {
      stack := stack + [layer];
    }
  }

  /** The stack the gateway registers, the proxy pointing at `target`. */
  function GatewayStack(target: Option<string>): seq<Layer> {
    [ Middleware("cors"), Middleware("morgan"), Middleware("cookieParser"),
      BodyParser("json", BODY_LIMIT_BYTES), BodyParser("urlencoded", BODY_LIMIT_BYTES),
      RateLimiter(RATE_LIMIT_WINDOW_MS), GetRoute("/gateway-health"), ProxyAll(target) ]
  }

  /** The top-level statements of the gateway, registering its layers one after another. */
  method BuildGateway(nodeEnv: Option<string>, authServiceUrl: Option<string>) returns (app: App)
    ensures fresh(app)
    ensures app.stack == GatewayStack(GetServiceUrl(nodeEnv, authServiceUrl, "auth", 6001))
  {
    app := new App();
    app.Use(Middleware("cors"));
    app.Use(Middleware("morgan"));
    app.Use(Middleware("cookieParser"));
    app.Use(BodyParser("json", BODY_LIMIT_BYTES));
    app.Use(BodyParser("urlencoded", BODY_LIMIT_BYTES));
    app.Use(RateLimiter(RATE_LIMIT_WINDOW_MS));
    app.Use(GetRoute("/gateway-health"));
    app.Use(ProxyAll(GetServiceUrl(nodeEnv, authServiceUrl, "auth", 6001)));
  }

  /**
   * What the layers see of a request. Whether a body parser rejects the body
   * (malformed, or over its limit) and whether the client has used up its
   * budget are decided by library code, and are given.
   */
  datatype Request = Request(httpMethod: string, path: string, rejectingParser: Option<string>, overLimit: bool)

  /**
   * Whether a layer ends the request instead of passing it on: cors answers
   * every preflight (OPTIONS) itself with 204, a body parser that rejects the
   * body passes an error on to Express's own error reply, the rate limiter
   * answers 429 to a client over its budget, the health route answers its
   * GET (and HEAD), and the proxy forwards whatever reaches it.
   */
  predicate Answers(layer: Layer, req: Request) {
    match layer
    case Middleware(name) => name == "cors" && req.httpMethod == "OPTIONS"
    case BodyParser(name, _) => req.rejectingParser == Some(name)
    case RateLimiter(_) => req.overLimit
    case GetRoute(p) => (req.httpMethod == "GET" || req.httpMethod == "HEAD") && req.path == p
    case ProxyAll(_) => true
  }

  /** The position of the first layer from `from` on that answers the request. */
  function AnsweringLayer(stack: seq<Layer>, from: nat, req: Request): (i: Option<nat>)
    requires from <= |stack|
    ensures i.Some? ==> from <= i.value < |stack| && Answers(stack[i.value], req)
    ensures i.Some? ==> forall j :: from <= j < i.value ==> !Answers(stack[j], req)
    ensures i.None? ==> forall j :: from <= j < |stack| ==> !Answers(stack[j], req)
    decreases |stack| - from
  {
    if from == |stack| then None
    else if Answers(stack[from], req) then Some(from)
    else AnsweringLayer(stack, from + 1, req)
  }

  /** A preflight request is answered by cors, the first layer, and never reaches the rate limiter. */
  lemma PreflightAnsweredByCors(target: Option<string>, req: Request)
    requires req.httpMethod == "OPTIONS"
    ensures AnsweringLayer(GatewayStack(target), 0, req) == Some(0)
    ensures GatewayStack(target)[0] == Middleware("cors")
  {
  }

  /**
   * Every request is answered. Only a preflight (by cors) or a rejected body
   * (by its parser) is answered before the rate limiter; every other request
   * reaches the limiter, which answers it when the client is over its budget;
   * past the limiter the health route answers exactly its GET and HEAD, and
   * the proxy everything else.
   */
  lemma RateLimiterGuardsEveryRoute(target: Option<string>, req: Request)
    ensures var stack := GatewayStack(target);
      var i := AnsweringLayer(stack, 0, req);
      var preflight := req.httpMethod == "OPTIONS";
      var rejected := req.rejectingParser == Some("json") || req.rejectingParser == Some("urlencoded");
      && i.Some?
      && (i.value < 5 <==> preflight || rejected)
      && (!preflight && !rejected ==>
            && stack[5] == RateLimiter(RATE_LIMIT_WINDOW_MS)
            && (i.value == 5 <==> req.overLimit)
            && (i.value == 6 <==> !req.overLimit && (req.httpMethod == "GET" || req.httpMethod == "HEAD")
                                  && req.path == "/gateway-health")
            && 5 <= i.value <= 7
            && stack[7] == ProxyAll(target))
  {
    var stack := GatewayStack(target);
    var i := AnsweringLayer(stack, 0, req);
    var preflight := req.httpMethod == "OPTIONS";
    var rejected := req.rejectingParser == Some("json") || req.rejectingParser == Some("urlencoded");
    assert Answers(stack[0], req) <==> preflight;
    assert !Answers(stack[1], req) && !Answers(stack[2], req);
    assert Answers(stack[3], req) <==> req.rejectingParser == Some("json");
    assert Answers(stack[4], req) <==> req.rejectingParser == Some("urlencoded");
    assert Answers(stack[7], req);
    if !preflight && !rejected {
      assert !Answers(stack[0], req) && !Answers(stack[3], req) && !Answers(stack[4], req);
      assert i.value >= 5;
      assert Answers(stack[5], req) <==> req.overLimit;
      assert Answers(stack[6], req) <==>
        (req.httpMethod == "GET" || req.httpMethod == "HEAD") && req.path == "/gateway-health";
    }
  }

  /** envalid's `port()`: the text of a whole number from 1 to 65535, written without sign, spaces or leading zeros. */
  function CleanPort(raw: Option<string>): (r: Result<nat, string>)
    ensures r.Ok? <==>
      raw.Some? && |raw.value| >= 1 && AllDigits(raw.value) && raw.value[0] != '0'
      && 1 <= DecimalValue(raw.value) <= 65535
    ensures r.Ok? ==> r.value == DecimalValue(raw.value) && NatToString(r.value) == raw.value
    ensures r.Err? ==> r.error == "API_GATEWAY_PORT"
  {
    if raw.Some? && |raw.value| >= 1 && AllDigits(raw.value) && raw.value[0] != '0'
       && 1 <= DecimalValue(raw.value) <= 65535
    then
      NatToStringOfDecimal(raw.value);
      Ok(DecimalValue(raw.value))
    else Err("API_GATEWAY_PORT")
  }

  /**
   * The port the gateway listens on: start-up stops when the environment check
   * fails, and otherwise `API_GATEWAY_PORT || 8080` is taken as written.
   */
  function ListenPort(raw: Option<string>): (r: Result<string, string>)
    ensures r.Ok? <==> CleanPort(raw).Ok?
  {
    match CleanPort(raw)
    case Err(e) => Err(e)
    case Ok(_) => Ok(if raw.Some? && raw.value != "" then raw.value else "8080")
  }

  /**
   * Because the check requires the variable, the 8080 fallback is never taken:
   * whenever the gateway starts it listens on exactly the configured text, which reads back as its number.
   */
  lemma PortFallbackUnreachable(raw: Option<string>)
    requires ListenPort(raw).Ok?
    ensures raw.Some? && ListenPort(raw).value == raw.value
    ensures ListenPort(raw).value == NatToString(CleanPort(raw).value)
  {
  }
}
