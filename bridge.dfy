/**
  The local HTTPS bridge: an Express application that answers CORS
  preflights itself, reports its health, serves the built single-page app
  when there is one, and forwards everything under `/sigweb` to the SigWeb
  host. Routing is a pure decision from the request to an `Outcome`; the two
  places that change a response in place (`applyCors` and `onProxyRes`) are
  methods over header maps. Header names are lower case, as Node stores them.
 */
module Bridge {
  import opened Wrappers
  import opened JsString

  // ---------------------------------------------------------------- configuration

  const DefaultTarget: string := "http://localhost:47289"
  const DefaultPort: int := 9443

  /** `process.env.SIGWEB_TARGET || 'http://localhost:47289'`: an unset or empty variable gives the default. */
  function Target(env: Option<string>): (r: string)
    ensures env.Some? && env.value != [] ==> r == env.value
    ensures env.None? || env.value == [] ==> r == DefaultTarget
  {
    if env.Some? && env.value != [] then env.value else DefaultTarget
  }

  /** `Number(process.env.BRIDGE_PORT || 9443)`; `None` is `NaN`. */
  function Port(env: Option<string>): (r: Option<int>)
    ensures env.None? || env.value == [] ==> r == Some(DefaultPort)
  {
    if env.Some? && env.value != [] then ToNumber(env.value) else Some(DefaultPort)
  }

  /** A port given as decimal digits is read as that number. */
  lemma PortFromDigits(n: nat)
    ensures Port(Some(IntToString(n))) == Some(n)
  {
    ToNumberOfIntToString(n);
  }

  /** What the bridge knows at start-up: whether the app was built, the files it would serve, the proxy target. */
  datatype App = App(hasBuiltApp: bool, staticFiles: set<string>, target: string)

  // ---------------------------------------------------------------- requests and CORS

  /** An incoming request: method (upper case), path name, the query part (`""` or starting with `?`), headers. */
  datatype IncomingRequest = IncomingRequest(
    verb: string,
    path: string,
    search: string,
    headers: map<string, string>)

  const AllowOrigin: string := "access-control-allow-origin"
  const Vary: string := "vary"
  const AllowMethods: string := "access-control-allow-methods"
  const AllowHeaders: string := "access-control-allow-headers"
  const MaxAge: string := "access-control-max-age"
  const AllowPrivateNetwork: string := "access-control-allow-private-network"
  const CacheControl: string := "cache-control"

  /** The CORS header names are six different names, none of them `cache-control`. */
  lemma HeaderNamesDistinct()
    ensures AllowOrigin != Vary && AllowOrigin != AllowMethods && AllowOrigin != AllowHeaders
    ensures AllowOrigin != MaxAge && AllowOrigin != AllowPrivateNetwork && AllowOrigin != CacheControl
    ensures Vary != AllowMethods && Vary != AllowHeaders && Vary != MaxAge
    ensures Vary != AllowPrivateNetwork && Vary != CacheControl
    ensures AllowMethods != AllowHeaders && AllowMethods != MaxAge
    ensures AllowMethods != AllowPrivateNetwork && AllowMethods != CacheControl
    ensures AllowHeaders != MaxAge && AllowHeaders != AllowPrivateNetwork && AllowHeaders != CacheControl
    ensures MaxAge != AllowPrivateNetwork && MaxAge != CacheControl && AllowPrivateNetwork != CacheControl
  {
    assert |AllowOrigin| == 27 && |Vary| == 4 && |AllowMethods| == 28 && |AllowHeaders| == 28;
    assert |MaxAge| == 22 && |AllowPrivateNetwork| == 36 && |CacheControl| == 13;
    assert AllowMethods[21] == 'm' && AllowHeaders[21] == 'h';
  }

  /** A header that is present and not empty: JavaScript's truthiness of `req.headers[name]`. */
  predicate HasValue(headers: map<string, string>, name: string) {
    name in headers && headers[name] != []
  }

  /** The headers `applyCors` sets for a request, in the order it sets them. */
  function CorsHeaders(req: IncomingRequest): map<string, string> {
    var origin := if HasValue(req.headers, "origin")
      then map[AllowOrigin := req.headers["origin"], Vary := "Origin"] else map[];
    origin[AllowMethods := "GET,POST,OPTIONS"]
      [AllowHeaders := if HasValue(req.headers, "access-control-request-headers")
                       then req.headers["access-control-request-headers"] else "Content-Type"]
      [MaxAge := "600"]
      [AllowPrivateNetwork := "true"]
  }

  /**
    The origin is reflected verbatim, with `Vary: Origin`, exactly when the
    request names one; the allowed headers echo the preflight's request
    headers or default to `Content-Type`; methods, max-age and the private
    network grant are always present; nothing else is set.
   */
  lemma CorsHeadersFacts(req: IncomingRequest)
    ensures var h := CorsHeaders(req);
      && (AllowOrigin in h <==> HasValue(req.headers, "origin"))
      && (AllowOrigin in h ==> h[AllowOrigin] == req.headers["origin"])
      && (Vary in h <==> HasValue(req.headers, "origin"))
      && (Vary in h ==> h[Vary] == "Origin")
      && AllowMethods in h && h[AllowMethods] == "GET,POST,OPTIONS"
      && AllowHeaders in h
      && h[AllowHeaders] == (if HasValue(req.headers, "access-control-request-headers")
                             then req.headers["access-control-request-headers"] else "Content-Type")
      && MaxAge in h && h[MaxAge] == "600"
      && AllowPrivateNetwork in h && h[AllowPrivateNetwork] == "true"
      && h.Keys <= {AllowOrigin, Vary, AllowMethods, AllowHeaders, MaxAge, AllowPrivateNetwork}
  {
  }

  /** Two requests with the same `Origin` and request-headers values get the same CORS headers. */
  lemma CorsDependsOnTwoHeaders(a: IncomingRequest, b: IncomingRequest)
    requires HasValue(a.headers, "origin") == HasValue(b.headers, "origin")
    requires HasValue(a.headers, "origin") ==> a.headers["origin"] == b.headers["origin"]
    requires HasValue(a.headers, "access-control-request-headers") == HasValue(b.headers, "access-control-request-headers")
    requires HasValue(a.headers, "access-control-request-headers") ==>
      a.headers["access-control-request-headers"] == b.headers["access-control-request-headers"]
    ensures CorsHeaders(a) == CorsHeaders(b)
  {
  }

  // ---------------------------------------------------------------- routing

  predicate IsGetOrHead(verb: string) {
    verb == "GET" || verb == "HEAD"
  }

  /** `app.get('/health')`: Express compiles it to `/^\/health\/?$/i`. */
  predicate MatchesHealth(path: string) {
    EqualsIgnoringCase(path, "/health") || EqualsIgnoringCase(path, "/health/")
  }

  /** `app.get('/')`: Express compiles it to `/^\/?$/i`. */
  predicate MatchesRoot(path: string) {
    path == "" || path == "/"
  }

  // The SPA fallback `/^\/(?!sigweb\/|health$).*/`, which is case-sensitive.
  predicate SpaFallbackMatches(path: string) {
    |path| > 0 && path[0] == '/' && !StartsWith(path[1..], "sigweb/") && path[1..] != "health"
  }

  /** The fallback takes every path starting with `/` except `/sigweb/…` and exactly `/health`. */
  lemma SpaFallbackExclusions(path: string)
    ensures SpaFallbackMatches(path) <==>
      StartsWith(path, "/") && !StartsWith(path, "/sigweb/") && path != "/health"
  {
    if |path| > 0 && path[0] == '/' {
      assert path == "/" + path[1..];
      assert StartsWith(path, "/sigweb/") <==> StartsWith(path[1..], "sigweb/") by {
        if |path| >= 8 {
          assert path[..8] == "/" + path[1..][..7];
        }
      }
    }
  }

  /**
    How much of the path the `/sigweb` mount consumes: Express compiles it
    to `/^\/sigweb\/?(?=\/|$)/i`, so a following slash is taken too when it
    ends the path or another slash follows it.
   */
  function MountMatch(path: string): (r: Option<nat>)
    ensures r.Some? ==> (r.value == 7 || r.value == 8) && r.value <= |path|
  {
    if |path| < 7 || !EqualsIgnoringCase(path[..7], "/sigweb") then None
    else if |path| == 7 then Some(7)
    else if path[7] != '/' then None
    else if |path| == 8 || path[8] == '/' then Some(8)
    else Some(7)
  }

  /**
    The URL the mounted middleware sees: the matched prefix removed from
    `path + search`, with a `/` put back in front when what is left does not
    start with one.
   */
  function MountedUrl(path: string, search: string, matched: nat): (r: string)
    requires matched <= |path|
    ensures StartsWith(r, "/")
  {
    var rest := (path + search)[matched..];
    if StartsWith(rest, "/") then rest else "/" + rest
  }

  /** `pathRewrite: (path) => '/sigweb' + path` */
  function RewritePath(url: string): string {
    "/sigweb" + url
  }

  /** Where a request ends up. */
  datatype Outcome =
    | Preflight             // 204, empty body
    | Health                // 200 text/plain "ok"
    | IndexFile             // 200, the built app's index.html
    | StatusPage            // 200 text/html, the bridge's own page
    | StaticFile(file: string)
    | Proxied(url: string)  // forwarded to the SigWeb host
    | NotFound              // Express's default 404

  /** The middleware and routes in registration order; the first that takes the request decides. */
  function Route(app: App, req: IncomingRequest): Outcome {
    if req.verb == "OPTIONS" then Preflight
    else if IsGetOrHead(req.verb) && MatchesHealth(req.path) then Health
    else if IsGetOrHead(req.verb) && MatchesRoot(req.path) then
      (if app.hasBuiltApp then IndexFile else StatusPage)
    else AppOrMount(app, req)
  }

  /** The routes registered after `/`: the built app's files and its fallback, then the `/sigweb` mount. */
  function AppOrMount(app: App, req: IncomingRequest): Outcome {
    if app.hasBuiltApp && IsGetOrHead(req.verb) && req.path in app.staticFiles then StaticFile(req.path)
    else if app.hasBuiltApp && IsGetOrHead(req.verb) && SpaFallbackMatches(req.path) then IndexFile
    else Mount(app, req)
  }

  /** The `/sigweb` proxy mount, and Express's 404 for what it does not take. */
  function Mount(app: App, req: IncomingRequest): Outcome {
    match MountMatch(req.path)
    case Some(n) => Proxied(app.target + RewritePath(MountedUrl(req.path, req.search, n)))
    case None => NotFound
  }

  /** The status code the bridge itself answers with (a proxied answer carries the host's). */
  function StatusCode(o: Outcome): (r: Option<int>)
    ensures r == None <==> o.Proxied?
  {
    match o
    case Preflight => Some(204)
    case NotFound => Some(404)
    case Proxied(_) => None
    case _ => Some(200)
  }

  /** Every `OPTIONS` request, on any path, is answered 204 before any route runs; nothing else is. */
  lemma PreflightFirst(app: App, req: IncomingRequest)
    ensures Route(app, req) == Preflight <==> req.verb == "OPTIONS"
    ensures Route(app, req) == Preflight ==> StatusCode(Route(app, req)) == Some(204)
  {
  }

  /** `GET /health` is answered by the bridge whatever the app, the files and the host are. */
  lemma HealthAlwaysAnswers(app: App, req: IncomingRequest)
    requires IsGetOrHead(req.verb) && req.path == "/health"
    ensures Route(app, req) == Health
  {
    LowerAsciiOfLower("/health");
  }

  /** A path whose second character is not an `h` of either case is not the health route. */
  lemma NotHealth(path: string)
    requires |path| >= 2 && path[1] != 'h' && path[1] != 'H'
    ensures !MatchesHealth(path)
  {
    assert LowerAscii(path)[1] != 'h';
    assert LowerAscii("/health")[1] == 'h';
    assert LowerAscii("/health/")[1] == 'h';
  }

  /** A path under `/sigweb` whose rest starts with a single slash is forwarded unchanged, query included. */
  lemma ForwardsSigwebPath(rest: string, search: string)
    requires StartsWith(rest, "/") && !StartsWith(rest, "//")
    requires search == [] || search[0] == '?'
    ensures var path := "/sigweb" + rest;
      MountMatch(path).Some? && RewritePath(MountedUrl(path, search, MountMatch(path).value)) == path + search
  {
    var path := "/sigweb" + rest;
    assert path[..7] == "/sigweb";
    LowerAsciiOfLower("/sigweb");
    assert path[7] == '/';
    if |path| == 8 {
      assert MountMatch(path) == Some(8);
      assert (path + search)[8..] == search;
    } else {
      assert path[8] == rest[1];
      assert rest[1] != '/' by {
        assert rest[..2] != "//";
      }
      assert MountMatch(path) == Some(7);
      assert (path + search)[7..] == rest + search;
    }
  }

  /** A path under `/sigweb/` is neither the health route, the root nor taken by the SPA fallback. */
  lemma UnderSigwebSkipsApp(path: string)
    requires |path| >= 8 && path[..8] == "/sigweb/"
    ensures !MatchesHealth(path) && !MatchesRoot(path) && !SpaFallbackMatches(path)
  {
    assert path[1] == 's';
    NotHealth(path);
    assert path[1..][..7] == "sigweb/";
  }

  /**
    A request whose path is under `/sigweb/` and that is not a file of the
    built app is forwarded to the target with the `/sigweb` prefix put back;
    the SPA fallback never takes such a path.
   */
  lemma ProxyForwarding(app: App, req: IncomingRequest, rest: string)
    requires req.verb != "OPTIONS"
    requires !(app.hasBuiltApp && IsGetOrHead(req.verb) && req.path in app.staticFiles)
    requires req.path == "/sigweb" + rest && StartsWith(rest, "/") && !StartsWith(rest, "//")
    requires req.search == [] || req.search[0] == '?'
    ensures Route(app, req) == Proxied(app.target + req.path + req.search)
  {
    ForwardsSigwebPath(rest, req.search);
    var path := req.path;
    assert path[..8] == "/sigweb/";
    UnderSigwebSkipsApp(path);
    assert AppOrMount(app, req) == Mount(app, req);
    var n := MountMatch(path).value;
    var url := RewritePath(MountedUrl(path, req.search, n));
    assert url == path + req.search;
    assert app.target + url == app.target + path + req.search;
    assert Route(app, req) == Proxied(app.target + url);
  }

  /** The mount takes `/sigweb` in any letter case and rewrites it to lower case, keeping the rest and the query. */
  lemma MountRewritesCaseless(path: string, search: string)
    requires |path| >= 8 && LowerAscii(path[..7]) == "/sigweb"
    requires path[7] == '/' && (|path| == 8 || path[8] != '/')
    requires search == [] || search[0] == '?'
    ensures MountMatch(path).Some?
    ensures RewritePath(MountedUrl(path, search, MountMatch(path).value)) == "/sigweb" + path[7..] + search
  {
    LowerAsciiOfLower("/sigweb");
    assert EqualsIgnoringCase(path[..7], "/sigweb");
    if |path| == 8 {
      assert MountMatch(path) == Some(8);
      assert (path + search)[8..] == search;
    } else {
      assert MountMatch(path) == Some(7);
      assert (path + search)[7..] == path[7..] + search;
    }
  }

  /**
    The mount accepts `/sigweb` in any letter case, and the host sees the
    prefix in lower case followed by the rest of the path and the query,
    for any request the routes before the mount leave alone.
   */
  lemma MountIgnoresCase(app: App, req: IncomingRequest)
    requires req.verb != "OPTIONS"
    requires |req.path| >= 8 && LowerAscii(req.path[..7]) == "/sigweb"
    requires req.path[7] == '/' && (|req.path| == 8 || req.path[8] != '/')
    requires req.search == [] || req.search[0] == '?'
    requires !(app.hasBuiltApp && IsGetOrHead(req.verb) && (req.path in app.staticFiles || SpaFallbackMatches(req.path)))
    ensures Route(app, req) == Proxied(app.target + "/sigweb" + req.path[7..] + req.search)
  {
    var path := req.path;
    assert LowerAscii(path[..7])[1] == 's';
    assert path[1] == path[..7][1];
    NotHealth(path);
    assert !MatchesRoot(path);
    assert AppOrMount(app, req) == Mount(app, req);
    MountRewritesCaseless(path, req.search);
  }

  /**
    With a built app the SPA fallback is case-sensitive, so a `GET` of
    `/SIGWEB/…` is answered with the app before the mount can forward it.
   */
  lemma UpperSigwebGetServesApp(app: App, req: IncomingRequest)
    requires app.hasBuiltApp && req.verb == "GET" && req.path !in app.staticFiles
    requires |req.path| >= 8 && req.path[..8] == "/SIGWEB/"
    ensures Route(app, req) == IndexFile
  {
    var path := req.path;
    assert path[1] == 'S';
    NotHealth(path);
    assert !MatchesRoot(path);
    assert SpaFallbackMatches(path) by {
      assert path[1..][0] == 'S';
      assert "health"[0] == 'h';
    }
  }

  /**
    With a built app, `GET /sigweb` (no trailing slash) is taken by the SPA
    fallback and answered with the app, not forwarded.
   */
  lemma BareSigwebServesApp(app: App, req: IncomingRequest)
    requires app.hasBuiltApp && req.verb == "GET" && req.path == "/sigweb" && req.path !in app.staticFiles
    ensures Route(app, req) == IndexFile
  {
    var path := req.path;
    assert path[1] == 's';
    NotHealth(path);
    assert !MatchesRoot(path);
    assert SpaFallbackMatches(path) by {
      assert |path[1..]| == 6;
      assert path[1..][0] == 's';
      assert "health"[0] == 'h';
    }
  }

  /** Without a built app nothing answers with the app or a file, and anything unmatched outside `/sigweb` is a 404. */
  lemma NoBuiltApp(app: App, req: IncomingRequest)
    requires !app.hasBuiltApp
    ensures Route(app, req) != IndexFile && !Route(app, req).StaticFile?
    ensures (req.verb != "OPTIONS" && !(IsGetOrHead(req.verb) && (MatchesHealth(req.path) || MatchesRoot(req.path)))
      && MountMatch(req.path).None?) ==> Route(app, req) == NotFound
  {
  }

  // ---------------------------------------------------------------- responses in place

  /** The response being built: its header map, status and body. */
  class ServerResponse {
    var headers: map<string, string>
    var statusCode: int
    var body: string
    var ended: bool

    constructor()
      ensures headers == map[] && statusCode == 200 && body == [] && !ended
    {
      headers := map[];
      statusCode := 200;
      body := [];
      ended := false;
    }
  }

  /** The host's answer as the proxy receives it. */
  class UpstreamResponse {
    var headers: map<string, string>

    constructor(h: map<string, string>)
      ensures headers == h
    {
      headers := h;
    }
  }

  /** `applyCors`: each `setHeader` overwrites that one header and leaves the others. */
  method ApplyCors(req: IncomingRequest, res: ServerResponse)
    modifies res
    ensures res.headers == old(res.headers) + CorsHeaders(req)
    ensures res.statusCode == old(res.statusCode) && res.body == old(res.body) && res.ended == old(res.ended)
  {
    var h := res.headers;
    if HasValue(req.headers, "origin") {
      h := h[AllowOrigin := req.headers["origin"]];
      h := h[Vary := "Origin"];
    }
    var allowed := if HasValue(req.headers, "access-control-request-headers")
      then req.headers["access-control-request-headers"] else "Content-Type";
    h := h[AllowMethods := "GET,POST,OPTIONS"];
    h := h[AllowHeaders := allowed];
    h := h[MaxAge := "600"];
    h := h[AllowPrivateNetwork := "true"];
    CorsSetsInOrder(res.headers, req, h, allowed);
    res.headers := h;
  }

  /** Setting one header on a merged map is setting it on the map merged in. */
  lemma MergeThenSet(m: map<string, string>, d: map<string, string>, k: string, v: string)
    ensures (m + d)[k := v] == m + d[k := v]
  {
  }

  /** Setting the CORS headers one after another gives the same map as merging `CorsHeaders` over the old one. */
  lemma CorsSetsInOrder(m: map<string, string>, req: IncomingRequest, h: map<string, string>, allowed: string)
    requires allowed == (if HasValue(req.headers, "access-control-request-headers")
      then req.headers["access-control-request-headers"] else "Content-Type")
    requires var o := if HasValue(req.headers, "origin") then m[AllowOrigin := req.headers["origin"]][Vary := "Origin"] else m;
      h == o[AllowMethods := "GET,POST,OPTIONS"][AllowHeaders := allowed][MaxAge := "600"][AllowPrivateNetwork := "true"]
    ensures h == m + CorsHeaders(req)
  {
    var hasOrigin := HasValue(req.headers, "origin");
    var origin: map<string, string> := if hasOrigin then map[AllowOrigin := req.headers["origin"], Vary := "Origin"] else map[];
    var o := if hasOrigin then m[AllowOrigin := req.headers["origin"]][Vary := "Origin"] else m;
    assert m + map[] == m;
    if hasOrigin {
      MergeThenSet(m, map[], AllowOrigin, req.headers["origin"]);
      MergeThenSet(m, map[AllowOrigin := req.headers["origin"]], Vary, "Origin");
    }
    assert o == m + origin;
    var d1 := origin[AllowMethods := "GET,POST,OPTIONS"];
    var d2 := d1[AllowHeaders := allowed];
    var d3 := d2[MaxAge := "600"];
    MergeThenSet(m, origin, AllowMethods, "GET,POST,OPTIONS");
    MergeThenSet(m, d1, AllowHeaders, allowed);
    MergeThenSet(m, d2, MaxAge, "600");
    MergeThenSet(m, d3, AllowPrivateNetwork, "true");
  }

  /** The first middleware: CORS on every response, and `OPTIONS` ends here with 204 and no body. */
  method CorsMiddleware(req: IncomingRequest, res: ServerResponse) returns (handled: bool)
    modifies res
    ensures res.headers == old(res.headers) + CorsHeaders(req)
    ensures handled <==> req.verb == "OPTIONS"
    ensures handled ==> res.statusCode == 204 && res.body == [] && res.ended
    ensures !handled ==> res.statusCode == old(res.statusCode) && res.body == old(res.body) && res.ended == old(res.ended)
  {
    ApplyCors(req, res);
    if req.verb == "OPTIONS" {
      res.statusCode := 204;
      res.body := [];
      res.ended := true;
      return true;
    }
    return false;
  }

  /** `onProxyRes`: CORS once more on the response, and the host's caching header replaced by `no-store`. */
  method OnProxyRes(upstream: UpstreamResponse, req: IncomingRequest, res: ServerResponse)
    modifies upstream, res
    ensures res.headers == old(res.headers) + CorsHeaders(req)
    ensures upstream.headers == old(upstream.headers)[CacheControl := "no-store"]
    ensures res.statusCode == old(res.statusCode) && res.body == old(res.body) && res.ended == old(res.ended)
  {
    ApplyCors(req, res);
    upstream.headers := upstream.headers[CacheControl := "no-store"];
  }

  /** The headers of a proxied answer: `onProxyRes` runs first, then the proxy copies the host's headers over. */
  function ProxiedHeaders(before: map<string, string>, req: IncomingRequest, upstream: map<string, string>): map<string, string> {
    before + CorsHeaders(req) + upstream[CacheControl := "no-store"]
  }

  /** Handling a host answer: `onProxyRes`, then every host header is set on the response. */
  method ForwardResponse(upstream: UpstreamResponse, req: IncomingRequest, res: ServerResponse)
    modifies upstream, res
    ensures res.headers == ProxiedHeaders(old(res.headers), req, old(upstream.headers))
    ensures upstream.headers == old(upstream.headers)[CacheControl := "no-store"]
    ensures res.statusCode == old(res.statusCode) && res.body == old(res.body) && res.ended == old(res.ended)
  {
    OnProxyRes(upstream, req, res);
    res.headers := res.headers + upstream.headers;
  }

  /**
    A proxied answer is never cached: `cache-control` is exactly `no-store`
    whatever the host sent; a CORS header the host does not send keeps the
    bridge's value, and one the host does send is the host's.
   */
  lemma ProxiedHeadersFacts(before: map<string, string>, req: IncomingRequest, upstream: map<string, string>)
    ensures var h := ProxiedHeaders(before, req, upstream);
      && CacheControl in h && h[CacheControl] == "no-store"
      && (forall k :: k in CorsHeaders(req) && k !in upstream && k != CacheControl ==> k in h && h[k] == CorsHeaders(req)[k])
      && (forall k :: k in upstream && k != CacheControl ==> k in h && h[k] == upstream[k])
  {
  }

  // ---------------------------------------------------------------- start-up decisions

  datatype AltName = DnsName(name: string) | IpAddress(ip: string)

  /** The parameters of the generated self-signed certificate. */
  datatype SelfSignedSpec = SelfSignedSpec(
    commonName: string,
    organizationName: string,
    days: nat,
    keySize: nat,
    algorithm: string,
    altNames: seq<AltName>)

  datatype CertSource = FromFiles | SelfSigned(spec: SelfSignedSpec)

  const GeneratedCertificate: SelfSignedSpec :=
    SelfSignedSpec("localhost", "Topaz Demo Local Bridge", 365, 2048, "sha256",
      [DnsName("localhost"), IpAddress("127.0.0.1")])

  /** The certificate files are read only when both exist; otherwise a certificate is generated. */
  function ChooseCertificate(certExists: bool, keyExists: bool): (r: CertSource)
    ensures r.FromFiles? <==> certExists && keyExists
    ensures r.SelfSigned? ==>
      && r.spec.commonName == "localhost" && r.spec.organizationName == "Topaz Demo Local Bridge"
      && r.spec.days == 365 && r.spec.keySize == 2048 && r.spec.algorithm == "sha256"
      && DnsName("localhost") in r.spec.altNames && IpAddress("127.0.0.1") in r.spec.altNames
  {
    if certExists && keyExists then FromFiles else SelfSigned(GeneratedCertificate)
  }

  /** A server error value: `null`/`undefined`, or an error with an optional `code`. */
  datatype ServerError = ServerError(code: Option<string>)

  datatype ErrorAction = Exit(status: int) | Rethrow

  /** The `'error'` handler: a port already in use exits with status 1; anything else is thrown again. */
  function OnServerError(err: Option<ServerError>): (r: ErrorAction)
    ensures r.Exit? <==> err.Some? && err.value.code == Some("EADDRINUSE")
    ensures r.Exit? ==> r.status == 1
  {
    if err.Some? && err.value.code == Some("EADDRINUSE") then Exit(1) else Rethrow
  }
}
