/**
 Proxy-aware base URL computation (util.go).  The configured `UrlBase` and
 `BasePath` values are parameters.  Parsing the RFC 7239 `Forwarded` header
 and parsing, resolving and printing URLs belong to libraries and are taken as
 uninterpreted functions passed in by the caller.
 */
module ServerUrl {
  import opened Wrappers

  /** Header values by canonical header name, as a Go `http.Header`. */
  type Header = map<string, seq<string>>

  /** The parts of an incoming request that are consulted: the Host it was
      addressed to, whether it arrived over TLS, and its headers. */
  datatype Request = Request(host: string, tls: bool, header: Header)

  /** A parsed URL.  Only the scheme is ever changed here, so every other
      component is kept together in `rest`. */
  datatype Url = Url(scheme: string, rest: string)

  /** What `serverURLHost` produces: a URL string, or the run-time panic Go
      raises when an `X-Forwarded-*` header is present with no value and its
      first value is indexed. */
  datatype HostOutcome = BaseUrl(url: string) | IndexPanic

  const Forwarded: string := "Forwarded"
  const XForwardedHost: string := "X-Forwarded-Host"
  const XForwardedProto: string := "X-Forwarded-Proto"

  /** `strings.TrimRight(s, "/")`: the longest prefix of `s` that does not
      end with '/', everything after it being '/'. */
  function TrimRightSlash(s: string): (r: string)
    ensures r <= s
    ensures r == [] || r[|r| - 1] != '/'
    ensures forall i :: |r| <= i < |s| ==> s[i] == '/'
    decreases |s|
  {
    if |s| > 0 && s[|s| - 1] == '/' then TrimRightSlash(s[..|s| - 1]) else s
  }

  /** The three properties of `TrimRightSlash` pin its result down: any
      prefix with them is that result. */
  lemma {:induction false} TrimRightSlashUnique(s: string, r: string)
    requires r <= s
    requires r == [] || r[|r| - 1] != '/'
    requires forall i :: |r| <= i < |s| ==> s[i] == '/'
    ensures r == TrimRightSlash(s)
  {
  }

  /** Trimming twice trims nothing more. */
  lemma TrimRightSlashIdempotent(s: string)
    ensures TrimRightSlash(TrimRightSlash(s)) == TrimRightSlash(s)
  {
  }

  /** `formatBaseURL`: resolve the base path against the base host (parse,
      `ResolveReference` and `String` taken together as `resolve`) and strip
      every trailing '/'.  The result never ends with '/'. */
  function FormatBaseUrl(baseHost: string, basePath: string, resolve: (string, string) -> string): (r: string)
    ensures r <= resolve(baseHost, basePath)
    ensures r == [] || r[|r| - 1] != '/'
    ensures forall i :: |r| <= i < |resolve(baseHost, basePath)| ==> resolve(baseHost, basePath)[i] == '/'
  {
    TrimRightSlash(resolve(baseHost, basePath))
  }

  /** The host and protocol named by a `Forwarded` header, when the header is
      present, parses, and carries both a `host` and a `proto` parameter
      (RFC 7239 sections 5.3 and 5.4); the first value of each is used. */
  function ForwardedHostProto(header: Header, parseForwarded: seq<string> -> Option<map<string, seq<string>>>)
    : (hp: Option<(string, string)>)
  {
    if Forwarded !in header then None
    else
      match parseForwarded(header[Forwarded])
      case None => None
      case Some(fm) =>
        if "host" in fm && |fm["host"]| > 0 && "proto" in fm && |fm["proto"]| > 0
        then Some((fm["host"][0], fm["proto"][0]))
        else None
  }

  /** Go's `fmt.Sprintf("%v://%v", scheme, host)`. */
  function JoinSchemeHost(scheme: string, host: string): string
  {
    scheme + "://" + host
  }

  /** `serverURLHost`: the configured base URL if there is one; otherwise a
      `scheme://host` string whose parts start from the request's own TLS
      state and Host, are replaced together by a complete `Forwarded` header,
      or else one by one by `X-Forwarded-Host` and `X-Forwarded-Proto`. */
  function ServerUrlHost(urlBase: string, req: Request, parseForwarded: seq<string> -> Option<map<string, seq<string>>>)
    : (r: HostOutcome)
    ensures urlBase != "" ==> r == BaseUrl(urlBase)
    ensures urlBase == "" ==> (r == IndexPanic <==> HeadersPanic(req, parseForwarded))
    ensures urlBase == "" && !HeadersPanic(req, parseForwarded) ==>
              r == BaseUrl(EffectiveScheme(req, parseForwarded) + "://" + EffectiveHost(req, parseForwarded))
  {
    if urlBase != "" then BaseUrl(urlBase)
    else
      var ps := if req.tls then "https" else "http";
      var ph := TrimRightSlash(req.host);
      match ForwardedHostProto(req.header, parseForwarded)
      case Some((fh, fp)) => BaseUrl(JoinSchemeHost(fp, fh))
      case None =>
        if XForwardedHost in req.header && |req.header[XForwardedHost]| == 0 then IndexPanic
        else
          var ph := if XForwardedHost in req.header then req.header[XForwardedHost][0] else ph;
          if XForwardedProto in req.header && |req.header[XForwardedProto]| == 0 then IndexPanic
          else
            var ps := if XForwardedProto in req.header then req.header[XForwardedProto][0] else ps;
            BaseUrl(JoinSchemeHost(ps, ph))
  }

  /** The request makes `serverURLHost` index an empty `X-Forwarded-*`
      value list: no complete `Forwarded` header, and one of the two headers
      present without a value.  (Go's own header parser never stores an
      empty list, so this arises only for requests built by hand.) */
  predicate HeadersPanic(req: Request, parseForwarded: seq<string> -> Option<map<string, seq<string>>>)
  {
    && ForwardedHostProto(req.header, parseForwarded).None?
    && ((XForwardedHost in req.header && req.header[XForwardedHost] == [])
        || (XForwardedProto in req.header && req.header[XForwardedProto] == []))
  }

  /** Reference definition of the host part, by precedence: the `Forwarded`
      host when that header is complete, else the first `X-Forwarded-Host`
      value, else the request Host with trailing '/' removed. */
  function EffectiveHost(req: Request, parseForwarded: seq<string> -> Option<map<string, seq<string>>>): string
  {
    var forwarded := ForwardedHostProto(req.header, parseForwarded);
    if forwarded.Some? then forwarded.value.0
    else if XForwardedHost in req.header && req.header[XForwardedHost] != [] then req.header[XForwardedHost][0]
    else TrimRightSlash(req.host)
  }

  /** Reference definition of the scheme part, by precedence: the `Forwarded`
      proto when that header is complete, else the first `X-Forwarded-Proto`
      value, else `https` over TLS and `http` otherwise. */
  function EffectiveScheme(req: Request, parseForwarded: seq<string> -> Option<map<string, seq<string>>>): string
  {
    var forwarded := ForwardedHostProto(req.header, parseForwarded);
    if forwarded.Some? then forwarded.value.1
    else if XForwardedProto in req.header && req.header[XForwardedProto] != [] then req.header[XForwardedProto][0]
    else if req.tls then "https" else "http"
  }

  /** A request without proxy headers: the scheme is `https` exactly when it
      arrived over TLS, and the host is its Host with trailing '/' removed,
      so the host part never ends with '/'. */
  lemma DirectRequest(req: Request, parseForwarded: seq<string> -> Option<map<string, seq<string>>>)
    requires Forwarded !in req.header && XForwardedHost !in req.header && XForwardedProto !in req.header
    ensures ServerUrlHost("", req, parseForwarded)
            == BaseUrl((if req.tls then "https" else "http") + "://" + TrimRightSlash(req.host))
    ensures EffectiveScheme(req, parseForwarded) == "https" <==> req.tls
    ensures EffectiveHost(req, parseForwarded) == [] || EffectiveHost(req, parseForwarded)[|EffectiveHost(req, parseForwarded)| - 1] != '/'
  {
  }

  /** A complete `Forwarded` header wins: whatever the `X-Forwarded-*`
      headers say, the result is built from its first `proto` and `host`. */
  lemma ForwardedWins(
    urlBase: string, req: Request, parseForwarded: seq<string> -> Option<map<string, seq<string>>>,
    xHost: Option<seq<string>>, xProto: Option<seq<string>>)
    requires urlBase == "" && ForwardedHostProto(req.header, parseForwarded).Some?
    ensures var hp := ForwardedHostProto(req.header, parseForwarded).value;
            ServerUrlHost(urlBase, req, parseForwarded) == BaseUrl(hp.1 + "://" + hp.0)
    ensures ServerUrlHost(urlBase, WithHeader(WithHeader(req, XForwardedHost, xHost), XForwardedProto, xProto), parseForwarded)
            == ServerUrlHost(urlBase, req, parseForwarded)
  {
  }

  /** `req` with header `name` set to `values`, or removed when `values` is
      `None`. */
  function WithHeader(req: Request, name: string, values: Option<seq<string>>): (r: Request)
    ensures r.host == req.host && r.tls == req.tls
    ensures values.Some? ==> name in r.header && r.header[name] == values.value
    ensures values.None? ==> name !in r.header
    ensures forall k :: k != name ==> (k in r.header <==> k in req.header)
    ensures forall k :: k != name && k in req.header ==> r.header[k] == req.header[k]
  {
    match values
    case Some(v) => req.(header := req.header[name := v])
    case None => req.(header := req.header - {name})
  }

  /** Without a complete `Forwarded` header the two `X-Forwarded-*` headers
      act independently: changing `X-Forwarded-Proto` never changes the host
      part, and changing `X-Forwarded-Host` never changes the scheme part. */
  lemma XForwardedIndependent(
    req: Request, parseForwarded: seq<string> -> Option<map<string, seq<string>>>, values: Option<seq<string>>)
    requires ForwardedHostProto(req.header, parseForwarded).None?
    ensures EffectiveHost(WithHeader(req, XForwardedProto, values), parseForwarded) == EffectiveHost(req, parseForwarded)
    ensures EffectiveScheme(WithHeader(req, XForwardedHost, values), parseForwarded) == EffectiveScheme(req, parseForwarded)
  {
  }

  /** `serverURLBase`: the base path resolved against the result of
      `serverURLHost`, trailing '/' removed; `None` where `serverURLHost`
      panics. */
  function ServerUrlBase(
    urlBase: string, basePath: string, req: Request,
    parseForwarded: seq<string> -> Option<map<string, seq<string>>>,
    resolve: (string, string) -> string): (r: Option<string>)
    ensures r.None? <==> ServerUrlHost(urlBase, req, parseForwarded) == IndexPanic
    ensures r.Some? ==> r.value == [] || r.value[|r.value| - 1] != '/'
    ensures urlBase != "" ==> r == Some(FormatBaseUrl(urlBase, basePath, resolve))
  {
    match ServerUrlHost(urlBase, req, parseForwarded)
    case IndexPanic => None
    case BaseUrl(host) => Some(FormatBaseUrl(host, basePath, resolve))
  }

  /** The scheme replacement of `serverWsBase`: the base URL is parsed (by
      `parseUrl`) and given the scheme `wss` when the request itself arrived
      over TLS and `ws` otherwise, all its other components kept. */
  function WsBaseUrl(
    urlBase: string, basePath: string, req: Request,
    parseForwarded: seq<string> -> Option<map<string, seq<string>>>,
    resolve: (string, string) -> string, parseUrl: string -> Url): (r: Option<Url>)
    ensures r.None? <==> ServerUrlHost(urlBase, req, parseForwarded) == IndexPanic
    ensures r.Some? ==> (r.value.scheme == "wss" <==> req.tls) && (r.value.scheme == "ws" <==> !req.tls)
    ensures r.Some? ==>
              r.value.rest == parseUrl(ServerUrlBase(urlBase, basePath, req, parseForwarded, resolve).value).rest
  {
    match ServerUrlBase(urlBase, basePath, req, parseForwarded, resolve)
    case None => None
    case Some(base) =>
      var u := parseUrl(base);
      var scheme := if req.tls then "wss" else "ws";
      Some(u.(scheme := scheme))
  }

  /** `serverWsBase`: the websocket base URL printed by `render`, or `None`
      where `serverURLHost` panics. */
  function ServerWsBase(
    urlBase: string, basePath: string, req: Request,
    parseForwarded: seq<string> -> Option<map<string, seq<string>>>,
    resolve: (string, string) -> string, parseUrl: string -> Url, render: Url -> string): (r: Option<string>)
    ensures r.None? <==> ServerUrlHost(urlBase, req, parseForwarded) == IndexPanic
    ensures r.Some? ==>
              r.value == render(Url(if req.tls then "wss" else "ws",
                                    parseUrl(ServerUrlBase(urlBase, basePath, req, parseForwarded, resolve).value).rest))
  {
    match WsBaseUrl(urlBase, basePath, req, parseForwarded, resolve, parseUrl)
    case None => None
    case Some(u) => Some(render(u))
  }
}
