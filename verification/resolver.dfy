/** The default endpoint resolver (client/src/pool/resolver.rs): validate a
    URI, infer port and security from its scheme, look the host up, and
    turn every address found into an endpoint. */
module Resolver {
  import opened Outcomes
  import opened Http
  import opened Endpoints
  import opened ClientErrors

  /** The parts of an `http::Uri` the resolver reads. */
  datatype Uri = Uri(
    scheme: Option<string>,
    host: Option<string>,
    port: Option<Port>,
    pathAndQuery: Option<string>)

  /** Name resolution (`(host, port).to_socket_addrs()` run on a blocking
      thread), taken as given: any function from host and port to a list of
      addresses or an I/O error. */
  type Dns = (string, Port) -> Result<seq<SocketAddr>, IoError>

  /** What a validated URI asks for: a Unix socket path, or a host and port
      to look up together with whether TLS is required. */
  datatype Target =
    | UnixTarget(path: string)
    | NetTarget(host: string, port: Port, secure: bool)

  predicate IsPlainScheme(scheme: string) {
    scheme == "http" || scheme == "ws"
  }

  predicate IsTlsScheme(scheme: string) {
    scheme == "https" || scheme == "wss"
  }

  /** The port used when the URI names none: 80 for `http` and `ws`
      (section 4.2.1 of RFC 9110, section 3 of RFC 6455), 443 for `https`
      and `wss` (section 4.2.2 of RFC 9110, section 3 of RFC 6455), and 0
      for any other scheme. */
  function DefaultPort(scheme: string): (p: Port)
    ensures p == 80 <==> IsPlainScheme(scheme)
    ensures p == 443 <==> IsTlsScheme(scheme)
    ensures p != 80 && p != 443 ==> p == 0
  {
    match scheme
    case "http" | "ws" => 80
    case "https" | "wss" => 443
    case _ => 0
  }

  /** Whether TLS is required: never for `http`/`ws`, always for
      `https`/`wss`, and for any other scheme exactly when the port is 443. */
  function IsSecure(scheme: string, port: Port): (secure: bool)
    ensures IsPlainScheme(scheme) ==> !secure
    ensures IsTlsScheme(scheme) ==> secure
    ensures !IsPlainScheme(scheme) && !IsTlsScheme(scheme) ==> (secure <==> port == 443)
  {
    match scheme
    case "http" | "ws" => false
    case "https" | "wss" => true
    case _ => port == 443
  }

  /** The part of `DefaultResolver::call` that precedes the lookup. A
      missing host is reported before a missing scheme; a `unix` URI needs
      a path and becomes the socket path `/host/path`. */
  function Plan(uri: Uri): (r: Result<Target, ClientError>)
    ensures r == Err(InvalidUri(MissingHost)) <==> uri.host.None?
    ensures r == Err(InvalidUri(MissingScheme)) <==> uri.host.Some? && uri.scheme.None?
    ensures r == Err(InvalidUri(MissingPathQuery)) <==>
      uri.host.Some? && uri.scheme == Some("unix") && uri.pathAndQuery.None?
    ensures r.Err? ==> r.error.InvalidUri?
    ensures r.Ok? && r.value.UnixTarget? <==>
      uri.host.Some? && uri.scheme == Some("unix") && uri.pathAndQuery.Some?
    ensures r.Ok? && r.value.UnixTarget? ==>
      r.value.path == "/" + uri.host.value + uri.pathAndQuery.value
    ensures r.Ok? && r.value.NetTarget? ==>
      && uri.scheme.Some? && uri.scheme.value != "unix"
      && r.value.host == uri.host.value
      && r.value.port == (if uri.port.Some? then uri.port.value else DefaultPort(uri.scheme.value))
      && r.value.secure == IsSecure(uri.scheme.value, r.value.port)
  {
    if uri.host.None? then Err(InvalidUri(MissingHost))
    else if uri.scheme.None? then Err(InvalidUri(MissingScheme))
    else
      var scheme, host := uri.scheme.value, uri.host.value;
      if scheme == "unix" then
        if uri.pathAndQuery.None? then Err(InvalidUri(MissingPathQuery))
        else Ok(UnixTarget("/" + host + uri.pathAndQuery.value))
      else
        var port := if uri.port.Some? then uri.port.value else DefaultPort(scheme);
        Ok(NetTarget(host, port, IsSecure(scheme, port)))
  }

  /** The endpoint one resolved address becomes. */
  function EndpointOf(addr: SocketAddr, host: string, secure: bool, version: HttpVersion): Endpoint {
    if secure then Secure(addr, host, version) else Address(addr, version)
  }

  /** The loop that pushes one endpoint per resolved address. */
  function EndpointsFor(addrs: seq<SocketAddr>, host: string, secure: bool, version: HttpVersion): (es: seq<Endpoint>)
    ensures |es| == |addrs|
    ensures forall i :: 0 <= i < |es| ==>
      && !es[i].Unix?
      && es[i].addr == addrs[i]
      && es[i].Secure? == secure
      && es[i].maxVersion == version
      && (secure ==> es[i].serverName == host)
    decreases |addrs|
  {
    if |addrs| == 0 then []
    else [EndpointOf(addrs[0], host, secure, version)] + EndpointsFor(addrs[1..], host, secure, version)
  }

  /** `DefaultResolver::call`. A Unix target never consults name
      resolution; a lookup error is returned as it is; an empty address
      list is a successful empty answer. */
  function Resolve(uri: Uri, version: HttpVersion, dns: Dns): (r: Result<seq<Endpoint>, ClientError>)
    ensures Plan(uri).Err? ==> r == Err(Plan(uri).error)
    ensures Plan(uri).Ok? && Plan(uri).value.UnixTarget? ==> r == Ok([Unix(Plan(uri).value.path)])
    ensures Plan(uri).Ok? && Plan(uri).value.NetTarget? ==>
      var t := Plan(uri).value;
      var found := dns(t.host, t.port);
      && (found.Err? ==> r == Err(Io(found.error)))
      && (found.Ok? ==> r.Ok? && r.value == EndpointsFor(found.value, t.host, t.secure, version))
  {
    match Plan(uri)
    case Err(e) => Err(e)
    case Ok(UnixTarget(path)) => Ok([Unix(path)])
    case Ok(NetTarget(host, port, secure)) =>
      match dns(host, port)
      case Err(e) => Err(Io(e))
      case Ok(addrs) => Ok(EndpointsFor(addrs, host, secure, version))
  }

  /** Resolving a `unix` URI gives the same answer whatever name resolution
      would have said: it is never consulted. */
  lemma UnixIgnoresDns(uri: Uri, version: HttpVersion, dns1: Dns, dns2: Dns)
    requires uri.scheme == Some("unix")
    ensures Resolve(uri, version, dns1) == Resolve(uri, version, dns2)
  {
  }

  /** A successful lookup yields one endpoint per address, in lookup order,
      each carrying the requested version; an empty lookup yields no
      endpoints and no error. */
  lemma ResolvedEndpointsFollowLookup(uri: Uri, version: HttpVersion, dns: Dns)
    requires Plan(uri).Ok? && Plan(uri).value.NetTarget?
    requires dns(Plan(uri).value.host, Plan(uri).value.port).Ok?
    ensures var t := Plan(uri).value;
      var addrs := dns(t.host, t.port).value;
      && Resolve(uri, version, dns).Ok?
      && |Resolve(uri, version, dns).value| == |addrs|
      && (|addrs| == 0 ==> Resolve(uri, version, dns) == Ok([]))
      && forall i :: 0 <= i < |addrs| ==>
           Resolve(uri, version, dns).value[i] == EndpointOf(addrs[i], t.host, t.secure, version)
  {
  }

  /** The version each resolved endpoint then reports: the requested one
      for a TLS target, and at least HTTP/1.1 for a plaintext one. */
  lemma ResolvedEndpointVersions(uri: Uri, version: HttpVersion, dns: Dns)
    requires Resolve(uri, version, dns).Ok?
    requires Plan(uri).Ok? && Plan(uri).value.NetTarget?
    ensures var es := Resolve(uri, version, dns).value;
      forall i :: 0 <= i < |es| ==>
        es[i].Version() == (if Plan(uri).value.secure then version else MaxVersion(version, Http11))
  {
  }

  /** Without an explicit port, `https://host/` and `wss://host/` look up
      port 443 and require TLS, while `http://host/` and `ws://host/` look
      up port 80 in plaintext. An explicit port is looked up as given. */
  lemma SchemeDefaults(scheme: string, host: string, path: string, port: Option<Port>)
    requires IsPlainScheme(scheme) || IsTlsScheme(scheme)
    ensures var t := Plan(Uri(Some(scheme), Some(host), port, Some(path))).value;
      && Plan(Uri(Some(scheme), Some(host), port, Some(path))).Ok?
      && t == NetTarget(host, if port.Some? then port.value else (if IsTlsScheme(scheme) then 443 else 80), IsTlsScheme(scheme))
  {
  }
}
