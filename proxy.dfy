/**
 * The gateway's proxy helpers: the backend URL, the header decorator applied
 * to every forwarded request, and the local reply when the backend cannot be
 * reached. There are two versions of `getServiceUrl`, the TypeScript source
 * and the compiled JavaScript beside it, and they differ in production.
 * NODE_ENV and AUTH_SERVICE_URL are parameters, as are the request's IP and
 * host header and the clock.
 */
module Proxy {
  import opened Wrappers
  import opened Strings
  import opened Transport

  /** The upstream timeout handed to the proxy library, in milliseconds. */
  const UPSTREAM_TIMEOUT_MS := 30000

  const LOCALHOST_PREFIX := "http://localhost:"
  const HOST_SUFFIX := ".kevin-luong.com"

  /** The TypeScript `getServiceUrl`: the configured auth-service URL in production, a local port otherwise. */
  function GetServiceUrl(nodeEnv: Option<string>, authServiceUrl: Option<string>, serviceName: string, port: nat)
    : (url: Option<string>)
    ensures nodeEnv == Some("production") ==> url == authServiceUrl
    ensures nodeEnv != Some("production") ==> url.Some? && StartsWith(url.value, LOCALHOST_PREFIX)
    ensures nodeEnv != Some("production") ==>
      AllDigits(url.value[|LOCALHOST_PREFIX|..]) && DecimalValue(url.value[|LOCALHOST_PREFIX|..]) == port
  {
    if nodeEnv == Some("production") then authServiceUrl
    else
      var url := LOCALHOST_PREFIX + NatToString(port);
      assert url[..|LOCALHOST_PREFIX|] == LOCALHOST_PREFIX && url[|LOCALHOST_PREFIX|..] == NatToString(port);
      DecimalOfNatToString(port);
      Some(url)
  }

  /** The compiled `getServiceUrl`: a host named after the service in production, a local port otherwise. */
  function GetServiceUrlCompiled(nodeEnv: Option<string>, serviceName: string, port: nat): (url: string)
    ensures nodeEnv == Some("production") ==>
      |url| == 7 + |serviceName| + |HOST_SUFFIX|
      && StartsWith(url, "http://") && url[7..|url| - |HOST_SUFFIX|] == serviceName
      && url[|url| - |HOST_SUFFIX|..] == HOST_SUFFIX
    ensures nodeEnv != Some("production") ==> Some(url) == GetServiceUrl(nodeEnv, None, serviceName, port)
  {
    if nodeEnv == Some("production") then
      var url := "http://" + serviceName + HOST_SUFFIX;
      assert url[..7] == "http://" && url[7..|url| - |HOST_SUFFIX|] == serviceName;
      assert url[|url| - |HOST_SUFFIX|..] == HOST_SUFFIX;
      url
    else LOCALHOST_PREFIX + NatToString(port)
  }

  /** Outside production the URL names only the port: the service name plays no part, and different ports give different URLs. */
  lemma DevelopmentUrlIsPortOnly(nodeEnv: Option<string>, a1: Option<string>, a2: Option<string>,
                                 name1: string, name2: string, port1: nat, port2: nat)
    requires nodeEnv != Some("production")
    ensures GetServiceUrl(nodeEnv, a1, name1, port1) == GetServiceUrl(nodeEnv, a2, name2, port1)
    ensures port1 != port2 ==> GetServiceUrl(nodeEnv, a1, name1, port1) != GetServiceUrl(nodeEnv, a2, name2, port2)
  {
  }

  /** In production the TypeScript version ignores both name and port; the compiled one tells services apart. */
  lemma ProductionUrls(authServiceUrl: Option<string>, name1: string, name2: string, port1: nat, port2: nat)
    ensures GetServiceUrl(Some("production"), authServiceUrl, name1, port1)
         == GetServiceUrl(Some("production"), authServiceUrl, name2, port2)
    ensures name1 != name2 ==>
      GetServiceUrlCompiled(Some("production"), name1, port1) != GetServiceUrlCompiled(Some("production"), name2, port2)
  {
  }

  /** The two versions agree exactly outside production. */
  lemma VersionsAgreeOutsideProduction(nodeEnv: Option<string>, authServiceUrl: Option<string>, name: string, port: nat)
    requires nodeEnv != Some("production")
    ensures GetServiceUrl(nodeEnv, authServiceUrl, name, port) == Some(GetServiceUrlCompiled(nodeEnv, name, port))
  {
  }

  const FORWARDED_FOR := "X-Forwarded-For"
  const ORIGINAL_HOST := "X-Original-Host"

  /** The options of one forwarded request; a header may be present with no value. */
  class ProxyRequestOptions {
    var headers: map<string, Option<string>>

    constructor (headers: map<string, Option<string>>)
      ensures this.headers == headers
    {
      this.headers := headers;
    }
  }

  /** The headers after decoration: the two gateway headers set, every other header as it was. */
  function DecoratedHeaders(headers: map<string, Option<string>>, ip: Option<string>, host: Option<string>)
    : (h: map<string, Option<string>>)
    ensures h.Keys == headers.Keys + {FORWARDED_FOR, ORIGINAL_HOST}
    ensures h[FORWARDED_FOR] == ip && h[ORIGINAL_HOST] == host
    ensures forall k :: k in headers && k != FORWARDED_FOR && k != ORIGINAL_HOST ==> h[k] == headers[k]
  {
    headers[FORWARDED_FOR := ip][ORIGINAL_HOST := host]
  }

  /** `proxyReqOptDecorator`: overwrite the two headers in place and hand the same options back. */
  method Decorate(opts: ProxyRequestOptions, ip: Option<string>, host: Option<string>) returns (r: ProxyRequestOptions)
    modifies opts
    ensures r == opts
    ensures opts.headers == DecoratedHeaders(old(opts.headers), ip, host)
  {
    opts.headers := opts.headers[FORWARDED_FOR := ip];
    opts.headers := opts.headers[ORIGINAL_HOST := host];
    r := opts;
  }

  /**
   * Any values a request already carries under the two exact header names are
   * discarded: requests whose headers differ only there decorate to the same
   * headers. The new values still come from the client, as the `ip` (under
   * `trust proxy` 1, the last X-Forwarded-For entry it sent) and its own Host header.
   */
  lemma DecorationOverridesCaller(h1: map<string, Option<string>>, h2: map<string, Option<string>>,
                                  ip: Option<string>, host: Option<string>)
    requires h1.Keys + {FORWARDED_FOR, ORIGINAL_HOST} == h2.Keys + {FORWARDED_FOR, ORIGINAL_HOST}
    requires forall k :: k in h1 && k != FORWARDED_FOR && k != ORIGINAL_HOST ==> k in h2 && h1[k] == h2[k]
    ensures DecoratedHeaders(h1, ip, host) == DecoratedHeaders(h2, ip, host)
  {
    var d1, d2 := DecoratedHeaders(h1, ip, host), DecoratedHeaders(h2, ip, host);
    forall k | k in d1.Keys ensures d1[k] == d2[k] {
      if k != FORWARDED_FOR && k != ORIGINAL_HOST {
        assert k in h1;
      }
    }
  }

  /** Decorating twice is decorating once. */
  lemma DecorationIdempotent(h: map<string, Option<string>>, ip: Option<string>, host: Option<string>)
    ensures DecoratedHeaders(DecoratedHeaders(h, ip, host), ip, host) == DecoratedHeaders(h, ip, host)
  {
    var once := DecoratedHeaders(h, ip, host);
    DecorationOverridesCaller(once, h, ip, host);
  }

  /** The failure the proxy library reports; its message may be missing. */
  datatype ProxyFailure = ProxyFailure(message: Option<string>)

  /** The `error` member of the gateway's 503 body. An unset service URL leaves the `service` member out. */
  datatype UnavailableError = UnavailableError(code: string, message: string, service: Option<string>, timestamp: string)

  /** The gateway's own 503 body: `success` and the `error` record. */
  datatype ServiceUnavailable = ServiceUnavailable(success: bool, error: UnavailableError)

  function ServiceUnavailableBody(serviceUrl: Option<string>, now: string): (b: ServiceUnavailable)
    ensures !b.success && b.error.code == "SERVICE_UNAVAILABLE" && b.error.message == "Service temporarily unavailable"
    ensures b.error.service == serviceUrl && b.error.timestamp == now
  {
    ServiceUnavailable(false, UnavailableError("SERVICE_UNAVAILABLE", "Service temporarily unavailable", serviceUrl, now))
  }

  /**
   * `proxyErrorHandler`: log the failure, answer 503 unless a response has
   * already started, and pass the failure on in every case.
   */
  method ProxyErrorHandler(serviceUrl: Option<string>, err: ProxyFailure, now: string,
                           ex: Exchange<ProxyFailure, ServiceUnavailable>)
    modifies ex
    ensures ex.events == old(ex.events) + [Logged(err)]
      + (if old(ex.headersSent) then [] else [Responded(503, ServiceUnavailableBody(serviceUrl, now))])
      + [NextCalled(Some(err))]
    ensures ex.headersSent
  {
    ex.Log(err);
    if !ex.headersSent {
      ex.Respond(503, ServiceUnavailableBody(serviceUrl, now));
    }
    ex.Next(Some(err));
  }
}
