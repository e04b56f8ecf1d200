/**
 * The OWS proxy: how a verified request is forwarded to a registered
 * service, which response headers are relayed (all but the six hop-by-hop
 * names of `HOP_BY_HOP`, the list of section 13.5.1 of RFC 2068), which
 * content types are let through, when capability URLs are rewritten, and in
 * which order the view classifies its outcomes.
 *
 * The HTTP client, the URL check and the capability rewriter are calls into
 * code outside this model; they are passed in as functions (`Env`).
 */
module OwsProxy {
  import opened Common
  import opened Text

  /** A registered service; `None` fields are keys the service dictionary lacks. */
  datatype Service = Service(
    name: string,
    url: string,
    serviceType: Option<string>,
    verify: Option<bool>,
    purl: Option<string>)

  /** The parts of the inbound request the proxy forwards. */
  datatype ProxyRequest = ProxyRequest(
    httpMethod: string,
    headers: map<string, string>,
    body: Bytes,
    queryString: string)

  /** The request handed to the HTTP client; a `None` header value means "do not send". */
  datatype Outbound = Outbound(
    httpMethod: string,
    url: string,
    body: Bytes,
    headers: map<string, Option<string>>,
    stream: bool,
    verify: bool)

  /** A response header as the upstream sent it. */
  datatype HeaderField = HeaderField(name: string, value: string)

  /**
   * The upstream's headers, looked up case-insensitively: each field is
   * stored under its lower-cased name.
   */
  type UpstreamHeaders = h: map<string, HeaderField> | forall k :: k in h ==> Lower(h[k].name) == k
    witness map[]

  /** The upstream response: `text` is the decoded body, `content` the raw bytes. */
  datatype Upstream = Upstream(
    statusCode: int,
    reason: string,
    headers: UpstreamHeaders,
    text: string,
    content: Bytes)

  /** A response the proxy builds. */
  datatype Response = Response(status: int, headers: map<string, string>, body: Bytes)

  /**
   * The OWS exception kinds: the three the proxy itself raises, and any
   * other `OWSException` (an adapter hook may raise one), by its code.
   */
  datatype ProxyError =
    | AccessForbidden(message: string)
    | AccessFailed(message: string)
    | NoApplicableCode(message: string)
    | OtherOws(code: string, message: string)

  /** What `_send_request` returns: a response, or an OWS exception returned as the response. */
  datatype Reply = Forwarded(response: Response) | Refused(error: ProxyError)

  /** An exception raised inside the view: an OWS exception, or anything else. */
  datatype Exception = Ows(error: ProxyError) | Unclassified(message: string)

  /** The request and response hooks of one adapter instance. */
  datatype Adapter = Adapter(
    id: nat,
    requestHook: (ProxyRequest, Service) -> Result<ProxyRequest, Exception>,
    responseHook: (Reply, Service) -> Result<Reply, Exception>)

  /** The code outside this model the forwarding depends on. */
  datatype Env = Env(
    transport: Outbound -> Result<Upstream, string>,
    isValidUrl: string -> bool,
    routeUrl: string -> string,
    replaceCapsUrl: (Bytes, string, string) -> Option<Bytes>)

  /** The view's result: the response it returns or the OWS exception it raises. */
  datatype Outcome = Returned(reply: Reply) | Raised(error: ProxyError)

  /** The outcome, and the adapter instance that ran each hook, in order. */
  datatype Handled = Handled(outcome: Outcome, hookAdapters: seq<nat>)

  /** `allowed_content_types`, as written: a missing comma fuses the third and fourth entries. */
  const ALLOWED_CONTENT_TYPES: seq<string> := [
    "application/xml",
    "text/xml",
    "text/xml;charset=ISO-8859-1" + "application/vnd.ogc.se_xml",
    "application/vnd.ogc.se+xml",
    "application/vnd.ogc.wms_xml",
    "application/vnd.google-earth.kml+xml",
    "application/vnd.google-earth.kmz",
    "image/png",
    "image/png;mode=32bit",
    "image/gif",
    "image/jpeg",
    "application/json",
    "application/json;charset=ISO-8859-1"
  ]

  /** The content types whose body gets its capability URLs rewritten. */
  const REWRITE_CONTENT_TYPES: seq<string> := ["text/xml", "application/xml", "text/xml;charset=ISO-8859-1"]

  /** The hop-by-hop response headers the streamed path never relays, in lower case. */
  const HOP_BY_HOP: seq<string> := [
    "connection", "keep-alive", "public", "proxy-authenticate", "transfer-encoding", "upgrade"
  ]

  /** Python truthiness of an optional string: present and non-empty. */
  predicate Truthy(s: Option<string>) {
    s.Some? && s.value != ""
  }

  /** The target URL: the service URL, then `/extra_path`, then `?params`. */
  function TargetUrl(serviceUrl: string, extraPath: Option<string>, params: Option<string>): string {
    serviceUrl
    + (if Truthy(extraPath) then "/" + extraPath.value else "")
    + (if Truthy(params) then "?" + params.value else "")
  }

  /** Builds the target URL by successive appends. */
  method BuildTargetUrl(serviceUrl: string, extraPath: Option<string>, params: Option<string>)
    returns (url: string)
    ensures url == TargetUrl(serviceUrl, extraPath, params)
  {
    url := serviceUrl;
    if Truthy(extraPath) {
      url := url + "/" + extraPath.value;
    }
    if Truthy(params) {
      url := url + "?" + params.value;
    }
  }

  /** In `a + [c] + b` with no `c` in `a`, the text before the first `c` is `a`. */
  lemma {:induction false} BeforeFirstAppend(a: string, c: char, b: string)
    requires c !in a
    ensures BeforeFirst(a + [c] + b, c) == a
  {
    if a != [] {
      assert (a + [c] + b)[1..] == a[1..] + [c] + b;
      BeforeFirstAppend(a[1..], c, b);
    }
  }

  /**
   * When neither the service URL nor the extra path holds a `?`, the target
   * URL splits back at its first `?` into the path part and the parameters.
   */
  lemma TargetUrlSplits(serviceUrl: string, extraPath: Option<string>, params: Option<string>)
    requires '?' !in serviceUrl
    requires extraPath.Some? ==> '?' !in extraPath.value
    ensures var url := TargetUrl(serviceUrl, extraPath, params);
            var path := TargetUrl(serviceUrl, extraPath, None);
            && BeforeFirst(url, '?') == path
            && (Truthy(params) ==> url == path + "?" + params.value)
            && (!Truthy(params) ==> url == path)
  {
    var path := TargetUrl(serviceUrl, extraPath, None);
    var url := TargetUrl(serviceUrl, extraPath, params);
    assert forall i :: 0 <= i < |path| ==> path[i] != '?' by {
      if Truthy(extraPath) {
        assert path == serviceUrl + ['/'] + extraPath.value;
      }
    }
    if Truthy(params) {
      assert url == path + ['?'] + params.value;
      BeforeFirstAppend(path, '?', params.value);
    } else {
      assert url == path;
    }
  }

  /** The forwarded headers: the inbound ones without `Host`, with `Accept-Encoding` unset. */
  function ForwardedHeaders(inbound: map<string, string>): map<string, Option<string>> {
    (map k | k in inbound && k != "Host" :: Some(inbound[k]))["Accept-Encoding" := None]
  }

  /** Copies the inbound headers, drops `Host` and unsets `Accept-Encoding`. */
  method SanitizeHeaders(inbound: map<string, string>) returns (h: map<string, Option<string>>)
    ensures h.Keys == inbound.Keys - {"Host"} + {"Accept-Encoding"}
    ensures h["Accept-Encoding"] == None
    ensures forall k :: k in h && k != "Accept-Encoding" ==> k in inbound && h[k] == Some(inbound[k])
    ensures h == ForwardedHeaders(inbound)
  {
    h := map k | k in inbound :: Some(inbound[k]);
    h := h - {"Host"};
    h := h["Accept-Encoding" := None];
  }

  /** Whether the response is streamed back: the service type (default `wps`) is set and is not `wps`. */
  function IsStreamed(serviceType: Option<string>): (r: bool)
    ensures r <==> serviceType.Some? && serviceType.value != "" && Lower(serviceType.value) != "wps"
  {
    var t := serviceType.GetOr("wps");
    t != "" && Lower(t) != "wps"
  }

  /** A `wps` service type in any letter case takes the buffered path. */
  lemma WpsInAnyCaseIsBuffered()
    ensures !IsStreamed(Some("WPS")) && !IsStreamed(Some("Wps")) && !IsStreamed(None)
    ensures IsStreamed(Some("wms"))
  {
    assert Lower("WPS") == "wps";
    assert Lower("Wps") == "wps";
    assert Lower("wms") != "wps" by { assert Lower("wms")[1] == 'm'; }
  }

  /** The relayed headers of a streamed response: every upstream field not hop-by-hop. */
  function StreamedHeaders(h: UpstreamHeaders): (r: map<string, string>)
    ensures forall n :: n in r <==> Lower(n) in h && h[Lower(n)].name == n && Lower(n) !in HOP_BY_HOP
    ensures forall n :: n in r ==> r[n] == h[Lower(n)].value
    ensures forall k :: k in h && k !in HOP_BY_HOP ==> h[k].name in r && r[h[k].name] == h[k].value
  {
    map k | k in h && Lower(h[k].name) !in HOP_BY_HOP :: h[k].name := h[k].value
  }

  /** The streamed response: upstream status, filtered headers, the body as sent. */
  function StreamedResponse(up: Upstream): (r: Response)
    ensures r.status == up.statusCode && r.body == up.content
    ensures r.headers == StreamedHeaders(up.headers)
  {
    Response(up.statusCode, StreamedHeaders(up.headers), up.content)
  }

  /** A 4xx status code. */
  predicate IsClientError(status: int) {
    400 <= status < 500
  }

  /** A 5xx status code. */
  predicate IsServerError(status: int) {
    500 <= status < 600
  }

  /**
   * `resp.ok` of the HTTP client: `raise_for_status` raises exactly for a
   * client or a server error, and `ok` is false exactly then.
   */
  predicate ResponseOk(up: Upstream): (r: bool)
    ensures !r <==> IsClientError(up.statusCode) || IsServerError(up.statusCode)
  {
    !(400 <= up.statusCode < 600)
  }

  /** `"Content-Type" in resp.headers` / `resp.headers["Content-Type"]`, case-insensitively. */
  function ContentType(up: Upstream): (r: Option<string>)
    ensures r.Some? <==> exists k :: k in up.headers && Lower(up.headers[k].name) == "content-type"
    ensures forall k :: k in up.headers && Lower(up.headers[k].name) == "content-type" ==>
              r == Some(up.headers[k].value)
  {
    if "content-type" in up.headers then Some(up.headers["content-type"].value) else None
  }

  /** The media type without its parameters: `ct.split(";")[0]`. */
  function BaseMediaType(ct: string): (r: string)
    ensures ';' !in r && r <= ct
    ensures |r| < |ct| ==> ct[|r|] == ';'
    ensures ';' !in ct ==> r == ct
  {
    BeforeFirst(ct, ';')
  }

  /**
   * Whether the allow-list admits the content type `ct`: only the entries
   * without parameters can ever match its base media type.
   */
  predicate ContentTypeAllowed(ct: string): (r: bool)
    ensures r <==> exists i :: 0 <= i < |ALLOWED_CONTENT_TYPES| && ';' !in ALLOWED_CONTENT_TYPES[i]
                                && BaseMediaType(ct) == ALLOWED_CONTENT_TYPES[i]
  {
    var b := BaseMediaType(ct);
    assert forall i :: 0 <= i < |ALLOWED_CONTENT_TYPES| && b == ALLOWED_CONTENT_TYPES[i] ==>
             ';' !in ALLOWED_CONTENT_TYPES[i];
    b in ALLOWED_CONTENT_TYPES
  }

  /** A content type that passes the allow-list, or no content type at all. */
  predicate ContentTypePasses(up: Upstream) {
    ContentType(up).None? || ContentTypeAllowed(ContentType(up).value)
  }

  /** The upstream passes the status check: OK, or an OGC exception report. */
  predicate StatusPasses(up: Upstream) {
    ResponseOk(up) || Contains(up.text, "ExceptionReport")
  }

  /** The full content type is one of the three whose body is rewritten. */
  predicate IsRewriteType(up: Upstream) {
    ContentType(up).Some? && ContentType(up).value in REWRITE_CONTENT_TYPES
  }

  /** What the capability rewriter makes of the body; `None` when it raises. */
  function Rewritten(service: Service, up: Upstream, env: Env): Option<Bytes> {
    env.replaceCapsUrl(up.content, PublicUrl(service, env), service.url)
  }

  /** The URL the capabilities are rewritten to: a valid `purl`, else the proxy's own route for the service. */
  function PublicUrl(service: Service, env: Env): (r: string)
    ensures service.purl.Some? && env.isValidUrl(service.purl.value) ==> r == service.purl.value
    ensures !(service.purl.Some? && env.isValidUrl(service.purl.value)) ==> r == env.routeUrl(service.name)
  {
    if service.purl.Some? && env.isValidUrl(service.purl.value) then service.purl.value
    else env.routeUrl(service.name)
  }

  /** The buffered path: status check, content-type policy, optional URL rewrite, `Content-Type` only. */
  function BufferedReply(service: Service, up: Upstream, env: Env): (r: Reply)
    ensures !StatusPasses(up) ==> r == Refused(AccessFailed("Response is not ok: " + up.reason))
    ensures StatusPasses(up) && !ContentTypePasses(up) ==>
              r == Refused(AccessForbidden("Content type is not allowed: " + ContentType(up).value + "."))
    ensures StatusPasses(up) && ContentTypePasses(up) && IsRewriteType(up) && Rewritten(service, up, env).None? ==>
              r == Refused(AccessFailed("Could not decode content."))
    // a response passing both checks is relayed, unless the rewriter fails
    ensures StatusPasses(up) && ContentTypePasses(up) && (!IsRewriteType(up) || Rewritten(service, up, env).Some?) ==>
              r.Forwarded?
    ensures r.Refused? && r.error.AccessForbidden? ==> !ContentTypePasses(up)
    ensures r.Refused? && r.error.AccessFailed? ==>
              !StatusPasses(up) || (IsRewriteType(up) && Rewritten(service, up, env).None?)
    ensures r.Refused? ==> r.error.AccessFailed? || r.error.AccessForbidden?
    ensures r.Forwarded? ==>
              && StatusPasses(up) && ContentTypePasses(up)
              && r.response.status == up.statusCode
              && r.response.headers == (if ContentType(up).Some? then map["Content-Type" := ContentType(up).value] else map[])
    ensures r.Forwarded? && !IsRewriteType(up) ==> r.response.body == up.content
    ensures r.Forwarded? && IsRewriteType(up) ==> Rewritten(service, up, env) == Some(r.response.body)
  {
    if !StatusPasses(up) then
      Refused(AccessFailed("Response is not ok: " + up.reason))
    else if !ContentTypePasses(up) then
      Refused(AccessForbidden("Content type is not allowed: " + ContentType(up).value + "."))
    else
      var content := if IsRewriteType(up) then Rewritten(service, up, env) else Some(up.content);
      match content
      case None => Refused(AccessFailed("Could not decode content."))
      case Some(body) =>
        var ct := ContentType(up);
        assert ct.Some? ==> ct.value != "";
        var headers := if Truthy(ct) then map["Content-Type" := ct.value] else map[];
        Forwarded(Response(up.statusCode, headers, body))
  }

  /** A content type without parameters is admitted iff it is listed. */
  lemma PlainTypeAllowedIffListed(ct: string)
    requires ';' !in ct
    ensures ContentTypeAllowed(ct) <==> ct in ALLOWED_CONTENT_TYPES
  {
  }

  /** A content type with parameters is admitted iff its base type is, whatever the parameters. */
  lemma ParametersIgnored(base: string, parameters: string)
    requires ';' !in base
    ensures ContentTypeAllowed(base + ";" + parameters) <==> base in ALLOWED_CONTENT_TYPES
  {
    assert base + ";" + parameters == base + [';'] + parameters;
    BeforeFirstAppend(base, ';', parameters);
  }

  /** The OGC service-exception type `application/vnd.ogc.se_xml` is rejected, since the missing comma fused it. */
  lemma ServiceExceptionXmlRejected(ct: string)
    requires ct == "application/vnd.ogc.se_xml"
    ensures !ContentTypeAllowed(ct)
  {
    assert BaseMediaType(ct) == ct by { assert forall i :: 0 <= i < |ct| ==> ct[i] != ';'; }
    assert ct != ALLOWED_CONTENT_TYPES[3] by { assert ct[22] != ALLOWED_CONTENT_TYPES[3][22]; }
    assert forall i :: 0 <= i < |ALLOWED_CONTENT_TYPES| && i != 3 ==> |ALLOWED_CONTENT_TYPES[i]| != |ct|;
  }

  /**
   * An OK upstream answering with an unlisted media type that has no
   * parameters (`text/plain`, say) is refused as forbidden, never relayed.
   */
  lemma UnlistedTypeForbidden(service: Service, up: Upstream, env: Env, ct: string)
    requires ';' !in ct && ct !in ALLOWED_CONTENT_TYPES
    requires ResponseOk(up) && ContentType(up) == Some(ct)
    ensures BufferedReply(service, up, env) == Refused(AccessForbidden("Content type is not allowed: " + ct + "."))
  {
    PlainTypeAllowedIffListed(ct);
  }

  /**
   * The allow-list entries holding a `;` (the fused entry among them) can
   * never match, as the base media type never contains one.
   */
  lemma ParameterisedEntriesNeverMatch(ct: string)
    ensures ALLOWED_CONTENT_TYPES[2] == "text/xml;charset=ISO-8859-1application/vnd.ogc.se_xml"
    ensures BaseMediaType(ct) != ALLOWED_CONTENT_TYPES[2]
    ensures BaseMediaType(ct) != ALLOWED_CONTENT_TYPES[8]
    ensures BaseMediaType(ct) != ALLOWED_CONTENT_TYPES[12]
  {
    assert ALLOWED_CONTENT_TYPES[2][8] == ';';
    assert ALLOWED_CONTENT_TYPES[8][9] == ';';
    assert ALLOWED_CONTENT_TYPES[12][16] == ';';
  }

  /** `_send_request`, as a function of the request, the service and the outside code. */
  function Forward(request: ProxyRequest, service: Service, extraPath: Option<string>, params: Option<string>,
                   env: Env): (r: Reply)
    ensures var out := OutboundFor(request, service, extraPath, params);
            && (env.transport(out).Err? ==> r == Refused(AccessFailed("Request failed: " + env.transport(out).error)))
            && (env.transport(out).Ok? && out.stream ==> r == Forwarded(StreamedResponse(env.transport(out).value)))
            && (env.transport(out).Ok? && !out.stream ==> r == BufferedReply(service, env.transport(out).value, env))
  {
    var out := OutboundFor(request, service, extraPath, params);
    match env.transport(out)
    case Err(message) => Refused(AccessFailed("Request failed: " + message))
    case Ok(up) => if out.stream then Forwarded(StreamedResponse(up)) else BufferedReply(service, up, env)
  }

  /** The request sent upstream: upper-cased method, target URL, body, sanitised headers, path choice, TLS flag. */
  function OutboundFor(request: ProxyRequest, service: Service, extraPath: Option<string>, params: Option<string>)
    : (out: Outbound)
    ensures out.httpMethod == Upper(request.httpMethod) && out.body == request.body
    ensures out.url == TargetUrl(service.url, extraPath, params)
    ensures out.headers == ForwardedHeaders(request.headers)
    ensures out.stream <==> IsStreamed(service.serviceType)
    ensures out.verify == service.verify.GetOr(true)
  {
    Outbound(Upper(request.httpMethod), TargetUrl(service.url, extraPath, params), request.body,
             ForwardedHeaders(request.headers), IsStreamed(service.serviceType), service.verify.GetOr(true))
  }

  /** `_send_request`: builds the URL and the headers step by step, then takes the streamed or buffered path. */
  method SendRequest(request: ProxyRequest, service: Service, extraPath: Option<string>, params: Option<string>,
                     env: Env) returns (reply: Reply)
    ensures reply == Forward(request, service, extraPath, params, env)
  {
    var url := BuildTargetUrl(service.url, extraPath, params);
    var h := SanitizeHeaders(request.headers);
    var streamed := IsStreamed(service.serviceType);
    var out := Outbound(Upper(request.httpMethod), url, request.body, h, streamed, service.verify.GetOr(true));
    var sent := env.transport(out);
    if sent.Err? {
      return Refused(AccessFailed("Request failed: " + sent.error));
    }
    if streamed {
      reply := Forwarded(StreamedResponse(sent.value));
    } else {
      reply := BufferedReply(service, sent.value, env);
    }
  }

  /** `owsproxy_base_path`: the protected path setting (default `/ows`), `rstrip('/')` then `strip()`. */
  function BasePath(settings: map<string, string>): (r: string)
    ensures "twitcher.ows_proxy_protected_path" !in settings ==> r == "/ows"
    ensures r == [] || (!IsSpace(r[0]) && !IsSpace(r[|r| - 1]))
  {
    var path := if "twitcher.ows_proxy_protected_path" in settings
                then settings["twitcher.ows_proxy_protected_path"] else "/ows";
    var t := TrimRight(path, '/');
    assert "twitcher.ows_proxy_protected_path" !in settings ==> Strip(t) == "/ows" by {
      if "twitcher.ows_proxy_protected_path" !in settings {
        assert path[|path| - 1] == 's';
        StripLeavesBlankFree(t);
      }
    }
    Strip(t)
  }

  /** A protected path without blanks loses exactly its trailing slashes. */
  lemma BasePathDropsTrailingSlashes(settings: map<string, string>)
    requires "twitcher.ows_proxy_protected_path" in settings
    requires var p := settings["twitcher.ows_proxy_protected_path"];
             forall i :: 0 <= i < |p| ==> !IsSpace(p[i])
    ensures var p := settings["twitcher.ows_proxy_protected_path"];
            var r := BasePath(settings);
            && r <= p
            && (r == [] || r[|r| - 1] != '/')
            && (forall i :: |r| <= i < |p| ==> p[i] == '/')
  {
    StripLeavesBlankFree(TrimRight(settings["twitcher.ows_proxy_protected_path"], '/'));
  }

  /** `strip()` leaves a string unchanged when its two ends are not blanks. */
  lemma StripLeavesBlankFree(t: string)
    requires t == [] || (!IsSpace(t[0]) && !IsSpace(t[|t| - 1]))
    ensures Strip(t) == t
  {
    assert TrimRightSpace(t) == t;
    assert TrimLeftSpace(t) == t;
  }

  /** `owsproxy_base_url`: the service's public root followed by the protected path. */
  function BaseUrl(twitcherUrl: string, settings: map<string, string>): (r: string)
    ensures twitcherUrl <= r && r[|twitcherUrl|..] == BasePath(settings)
  {
    twitcherUrl + BasePath(settings)
  }

  /** The message of a service lookup failure. */
  function NotFoundMessage(serviceName: string): string {
    "Could not find service: " + serviceName
  }

  /** The outer handler: OWS exceptions are re-raised unchanged, anything else becomes NoApplicableCode. */
  function Reraise(e: Exception): (o: Outcome)
    ensures e.Ows? ==> o == Raised(e.error)
    ensures e.Unclassified? ==> o == Raised(NoApplicableCode("Unhandled error: " + e.message))
  {
    match e
    case Ows(err) => Raised(err)
    case Unclassified(message) => Raised(NoApplicableCode("Unhandled error: " + message))
  }

  /**
   * `owsproxy_view`. `lookup` is the registry's answer for the service name,
   * `verified` what `request.is_verified` evaluates to, and `adapterOf` the
   * adapter the request property yields for a request.
   */
  function OwsProxyView(request: ProxyRequest, serviceName: string, extraPath: Option<string>,
                        lookup: Result<Option<Service>, string>, verified: Result<bool, Exception>,
                        adapterOf: ProxyRequest -> Adapter, env: Env): (h: Handled)
    // a lookup failure answers before verification is consulted
    ensures !(lookup.Ok? && lookup.value.Some?) ==>
              h == Handled(Returned(Refused(AccessFailed(NotFoundMessage(serviceName)))), [])
    // an unverified request is refused without running any hook or forwarding
    ensures lookup.Ok? && lookup.value.Some? && verified == Ok(false) ==>
              h == Handled(Raised(AccessForbidden("Access to service is forbidden.")), [])
    ensures lookup.Ok? && lookup.value.Some? && verified.Err? ==>
              h == Handled(Reraise(verified.error), [])
    // hooks run only for a verified request, and all on the adapter of the original request
    // a raising request hook is re-raised, or turned into NoApplicableCode, and nothing is forwarded
    ensures lookup.Ok? && lookup.value.Some? && verified == Ok(true)
            && adapterOf(request).requestHook(request, lookup.value.value).Err? ==>
              h == Handled(Reraise(adapterOf(request).requestHook(request, lookup.value.value).error),
                           [adapterOf(request).id])
    ensures h.hookAdapters != [] ==> lookup.Ok? && lookup.value.Some? && verified == Ok(true)
    ensures forall i :: 0 <= i < |h.hookAdapters| ==> h.hookAdapters[i] == adapterOf(request).id
    ensures |h.hookAdapters| <= 2
    // a response is returned only as the lookup failure or through the response hook
    ensures h.outcome.Returned? && h.hookAdapters == [] ==>
              h.outcome == Returned(Refused(AccessFailed(NotFoundMessage(serviceName))))
  {
    if !(lookup.Ok? && lookup.value.Some?) then
      Handled(Returned(Refused(AccessFailed(NotFoundMessage(serviceName)))), [])
    else
      var service := lookup.value.value;
      match verified
      case Err(e) => Handled(Reraise(e), [])
      case Ok(isVerified) =>
        if !isVerified then
          Handled(Raised(AccessForbidden("Access to service is forbidden.")), [])
        else
          var adapter := adapterOf(request);
          match adapter.requestHook(request, service)
          case Err(e) => Handled(Reraise(e), [adapter.id])
          case Ok(hooked) =>
            var reply := Forward(hooked, service, extraPath, Some(hooked.queryString), env);
            match adapter.responseHook(reply, service)
            case Err(e) => Handled(Reraise(e), [adapter.id, adapter.id])
            case Ok(final) => Handled(Returned(final), [adapter.id, adapter.id])
  }

  /**
   * A verified request whose hooks both return forwards the HOOKED request
   * and returns what the response hook makes of the forwarding result; both
   * hooks come from the adapter of the original request.
   */
  lemma VerifiedRequestForwardedThroughOneAdapter(
    request: ProxyRequest, serviceName: string, extraPath: Option<string>, service: Service,
    adapterOf: ProxyRequest -> Adapter, env: Env)
    requires adapterOf(request).requestHook(request, service).Ok?
    ensures var adapter := adapterOf(request);
            var hooked := adapter.requestHook(request, service).value;
            var reply := Forward(hooked, service, extraPath, Some(hooked.queryString), env);
            var h := OwsProxyView(request, serviceName, extraPath, Ok(Some(service)), Ok(true), adapterOf, env);
            && h.hookAdapters == [adapter.id, adapter.id]
            && (adapter.responseHook(reply, service).Ok? ==> h.outcome == Returned(adapter.responseHook(reply, service).value))
            && (adapter.responseHook(reply, service).Err? ==> h.outcome == Reraise(adapter.responseHook(reply, service).error))
  {
  }
}
