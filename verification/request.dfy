/** The client request (client/src/request.rs): the builder that sets the
    timeout and the body, and the policy `send` applies once a connection is
    in hand: which timer budget is used, which HTTP version goes on the
    wire, and when the connection is marked `destroy_on_drop`. */
module Requests {
  import opened Outcomes
  import opened Http
  import opened ClientErrors

  /** The three budgets of the client's `TimeoutConfig` that `send` reads. */
  datatype TimeoutConfig = TimeoutConfig(
    resolveTimeout: Duration,
    requestTimeout: Duration,
    responseTimeout: Duration)

  /** The part of `Client` a request consults. */
  datatype Client = Client(timeoutConfig: TimeoutConfig)

  /** `http::Method`. */
  datatype Method = Get | Head | Post | Put | Delete | Connect | Options | Trace | Patch | Extension(name: string)

  /** `http::request::Parts`: everything in an HTTP request but its body. */
  datatype Parts = Parts(httpMethod: Method, uri: string, version: HttpVersion, headers: HeaderMap)

  /** `Request<'a, B>`. */
  datatype Request<B> = Request(parts: Parts, body: B, client: Client, timeout: Duration)

  /** `Once<Bytes>`: a body stream of exactly one chunk. */
  datatype Once = Once(chunk: Bytes)

  /** `Request::new`: the per-request timeout starts as the client's
      request timeout. */
  function New<B>(parts: Parts, body: B, client: Client): (r: Request<B>)
    ensures r.timeout == client.timeoutConfig.requestTimeout
    ensures r.parts == parts && r.body == body && r.client == client
  {
    Request(parts, body, client, client.timeoutConfig.requestTimeout)
  }

  /** `Request::method`. */
  function WithMethod<B>(req: Request<B>, m: Method): (r: Request<B>)
    ensures r.parts.httpMethod == m
    ensures r.parts.(httpMethod := req.parts.httpMethod) == req.parts
    ensures r.body == req.body && r.client == req.client && r.timeout == req.timeout
  {
    req.(parts := req.parts.(httpMethod := m))
  }

  /** `Request::version`. */
  function WithVersion<B>(req: Request<B>, v: HttpVersion): (r: Request<B>)
    ensures r.parts.version == v
    ensures r.parts.(version := req.parts.version) == req.parts
    ensures r.body == req.body && r.client == req.client && r.timeout == req.timeout
  {
    req.(parts := req.parts.(version := v))
  }

  /** `Request::timeout`: overrides the timeout and nothing else. */
  function WithTimeout<B>(req: Request<B>, d: Duration): (r: Request<B>)
    ensures r.timeout == d
    ensures r.parts == req.parts && r.body == req.body && r.client == req.client
  {
    req.(timeout := d)
  }

  /** `Request::map_body`: rebuilds the request around a new body. It goes
      through `Request::new`, which resets the timeout, and then restores
      the timeout the request had. */
  function MapBody<B, B1>(req: Request<B>, f: B -> B1): (r: Request<B1>)
    ensures r.body == f(req.body)
    ensures r.parts == req.parts && r.client == req.client && r.timeout == req.timeout
  {
    WithTimeout(New(req.parts, f(req.body), req.client), req.timeout)
  }

  /** `Request::body`: a one-chunk body, announced by a `content-length`
      header holding the byte count in decimal (section 8.6 of RFC 9110). */
  function WithBody<B>(req: Request<B>, bytes: Bytes): (r: Request<Once>)
    ensures r.body == Once(bytes)
    ensures ContentLength in r.parts.headers
    ensures IsDecimal(r.parts.headers[ContentLength])
    ensures DecimalValue(r.parts.headers[ContentLength]) == |bytes|
    ensures |r.parts.headers[ContentLength]| > 1 ==> r.parts.headers[ContentLength][0] != '0'
    ensures r.parts.headers - {ContentLength} == req.parts.headers - {ContentLength}
    ensures r.parts.httpMethod == req.parts.httpMethod && r.parts.uri == req.parts.uri
    ensures r.parts.version == req.parts.version
    ensures r.client == req.client && r.timeout == req.timeout
  {
    DecimalRoundTrip(|bytes|);
    var withLength := req.(parts := req.parts.(headers := req.parts.headers[ContentLength := DecimalText(|bytes|)]));
    MapBody(withLength, (_: B) => Once(bytes))
  }

  /** `Request::text`: as `Request::body`, and labelled
      `text/plain; charset=utf-8`. The text is taken as its UTF-8 bytes. */
  function WithText<B>(req: Request<B>, text: Bytes): (r: Request<Once>)
    ensures r.body == Once(text)
    ensures ContentType in r.parts.headers && r.parts.headers[ContentType] == TextUtf8
    ensures ContentLength in r.parts.headers && IsDecimal(r.parts.headers[ContentLength])
    ensures DecimalValue(r.parts.headers[ContentLength]) == |text|
    ensures |r.parts.headers[ContentLength]| > 1 ==> r.parts.headers[ContentLength][0] != '0'
    ensures r.parts.headers - {ContentLength, ContentType} == req.parts.headers - {ContentLength, ContentType}
    ensures r.parts.httpMethod == req.parts.httpMethod && r.parts.version == req.parts.version
    ensures r.parts.uri == req.parts.uri
    ensures r.client == req.client && r.timeout == req.timeout
  {
    var typed := req.(parts := req.parts.(headers := req.parts.headers[ContentType := TextUtf8]));
    var r := WithBody(typed, text);
    assert ContentType != ContentLength by { assert ContentType[8] != ContentLength[8]; }
    assert ContentType in r.parts.headers - {ContentLength};
    r
  }

  /** `Request::stream`: any stream replaces the body; parts and timeout
      stay. */
  function WithStream<B, S>(req: Request<B>, stream: S): (r: Request<S>)
    ensures r.body == stream
    ensures r.parts == req.parts && r.client == req.client && r.timeout == req.timeout
  {
    MapBody(req, (_: B) => stream)
  }

  /** The kind of connection `send` ends up holding. */
  datatype ConnKind = Tcp | Tls | UnixSocket | H2 | H3 {
    /** Connections driven by the HTTP/1 sender. */
    predicate IsH1Family() {
      Tcp? || Tls? || UnixSocket?
    }
  }

  /** The version `send` writes into the request before handing it to the
      protocol sender. Plain and TLS streams carry at most HTTP/1.1; a Unix
      stream sends the request's version as it is; HTTP/2 and HTTP/3
      connections force their own version. */
  function WireVersion(kind: ConnKind, requested: HttpVersion): (v: HttpVersion)
    ensures (kind == Tcp || kind == Tls) ==> v == MinVersion(requested, Http11)
    ensures kind == UnixSocket ==> v == requested
    ensures kind == H2 ==> v == Http2
    ensures kind == H3 ==> v == Http3
  {
    match kind
    case Tcp | Tls => if requested.IsMultiplexed() then Http11 else requested
    case UnixSocket => requested
    case H2 => Http2
    case H3 => Http3
  }

  /** What the protocol sender, raced against the timer, came back with:
      a response head (for HTTP/1, with whether the server will close the
      connection; the HTTP/2 and HTTP/3 senders report no such flag and it
      is ignored for them), a protocol error, or the timer firing first. */
  datatype SendOutcome =
    | Responded(isClose: bool)
    | Failed(error: ClientError)
    | Elapsed

  /** `DefaultResponse`: the response head, with the response-timeout
      budget its body reads are held to. */
  datatype DefaultResponse = DefaultResponse(responseTimeout: Duration)

  /** The result of the race, and whether the connection must not go back
      to its pool. Every failure destroys; a success destroys only an
      HTTP/1 connection the server is closing. */
  function Settle(kind: ConnKind, outcome: SendOutcome, responseTimeout: Duration): (r: (Result<DefaultResponse, ClientError>, bool))
    ensures r.0.Ok? <==> outcome.Responded?
    ensures r.0.Ok? ==> r.0.value.responseTimeout == responseTimeout
    ensures outcome.Failed? ==> r.0 == Err(outcome.error)
    ensures outcome.Elapsed? ==> r.0 == Err(Timeout(RequestPhase))
    ensures r.1 <==> !outcome.Responded? || (kind.IsH1Family() && outcome.isClose)
  {
    match outcome
    case Responded(isClose) => (Ok(DefaultResponse(responseTimeout)), kind.IsH1Family() && isClose)
    case Failed(e) => (Err(e), true)
    case Elapsed => (Err(Timeout(RequestPhase)), true)
  }

  /** What one call of `send` did. `conn` is the connection the request
      went out on, if one was obtained; `timerSeed` the duration the timer
      was created with, if it was created; `deadline` the budget the
      protocol sender raced against, and `wireVersion` the version it was
      given, if the request was sent. */
  datatype SendReport = SendReport(
    result: Result<DefaultResponse, ClientError>,
    conn: Option<ConnKind>,
    destroyOnDrop: bool,
    timerSeed: Option<Duration>,
    deadline: Option<Duration>,
    wireVersion: Option<HttpVersion>)

  /** An error raised before any connection was obtained. */
  function Abort(e: ClientError, timerSeed: Option<Duration>): SendReport {
    SendReport(Err(e), None, false, timerSeed, None, None)
  }

  /** `Request::send`. The collaborators are inputs: `parsed` is the error
      `Uri::try_parse` raised, if any; `acquired` is what the pool's
      `acquire` returned (an idle connection, nothing, or an error);
      `dialed` is what `make_connection` returns when the pool had
      nothing; `outcome` is what the protocol sender, raced against the
      timer, came back with. */
  function Send<B>(
    req: Request<B>,
    parsed: Option<ClientError>,
    acquired: Result<Option<ConnKind>, ClientError>,
    dialed: Result<ConnKind, ClientError>,
    outcome: SendOutcome): (r: SendReport)
    ensures parsed.Some? ==> r == Abort(parsed.value, None)
    ensures parsed.None? && acquired.Err? ==> r == Abort(acquired.error, None)
    ensures parsed.None? && acquired == Ok(None) && dialed.Err? ==>
      r == Abort(dialed.error, Some(req.client.timeoutConfig.resolveTimeout))
    ensures r.conn.Some? <==> parsed.None? && acquired.Ok? && (acquired.value.Some? || dialed.Ok?)
    ensures r.conn.Some? ==>
      && parsed.None? && acquired.Ok?
      && r.conn.value == (if acquired.value.Some? then acquired.value.value else dialed.value)
      && r.timerSeed == Some(if acquired.value.None? then req.client.timeoutConfig.resolveTimeout else req.timeout)
      && r.deadline == Some(req.client.timeoutConfig.requestTimeout)
      && r.wireVersion == Some(WireVersion(r.conn.value, req.parts.version))
      && (r.result, r.destroyOnDrop) == Settle(r.conn.value, outcome, req.client.timeoutConfig.responseTimeout)
    ensures r.conn.None? ==> r.result.Err? && !r.destroyOnDrop && r.deadline.None?
  {
    var config := req.client.timeoutConfig;
    if parsed.Some? then Abort(parsed.value, None)
    else if acquired.Err? then Abort(acquired.error, None)
    else
      var connIsNone := acquired.value.None?;
      var seed := if connIsNone then config.resolveTimeout else req.timeout;
      if connIsNone && dialed.Err? then Abort(dialed.error, Some(seed))
      else
        var kind := if connIsNone then dialed.value else acquired.value.value;
        var settled := Settle(kind, outcome, config.responseTimeout);
        SendReport(settled.0, Some(kind), settled.1, Some(seed), Some(config.requestTimeout),
                   Some(WireVersion(kind, req.parts.version)))
  }

  /** A connection goes back to its pool exactly when the request got a
      response and, for HTTP/1, the server is keeping the connection open.
      Any send error or timeout keeps it out. */
  lemma ReturnedToPoolIff<B>(
    req: Request<B>, acquired: Result<Option<ConnKind>, ClientError>,
    dialed: Result<ConnKind, ClientError>, outcome: SendOutcome)
    requires Send(req, None, acquired, dialed, outcome).conn.Some?
    ensures var r := Send(req, None, acquired, dialed, outcome);
      && (!r.destroyOnDrop <==> outcome.Responded? && !(r.conn.value.IsH1Family() && outcome.isClose))
      && (outcome.Elapsed? ==> r.destroyOnDrop && r.result == Err(Timeout(RequestPhase)))
      && (outcome.Failed? ==> r.destroyOnDrop && r.result == Err(outcome.error))
  {
  }

  /** The per-request timeout only seeds the timer. Before the request is
      sent the timer is reset to the client's request timeout, so two
      requests that differ only in their timeout are sent, settled and
      versioned identically. */
  lemma PerRequestTimeoutOnlySeedsTimer<B>(
    req: Request<B>, d: Duration,
    acquired: Result<Option<ConnKind>, ClientError>,
    dialed: Result<ConnKind, ClientError>, outcome: SendOutcome)
    ensures var r1 := Send(req, None, acquired, dialed, outcome);
      var r2 := Send(WithTimeout(req, d), None, acquired, dialed, outcome);
      && r1.result == r2.result
      && r1.conn == r2.conn
      && r1.destroyOnDrop == r2.destroyOnDrop
      && r1.deadline == r2.deadline
      && r1.wireVersion == r2.wireVersion
      && (acquired == Ok(None) ==> r1.timerSeed == r2.timerSeed)
  {
  }

  /** Plain and TLS streams never carry a multiplexed version, whatever
      the request asked for; HTTP/2 and HTTP/3 connections always carry
      their own. */
  lemma WireVersionFitsConnection(kind: ConnKind, requested: HttpVersion)
    ensures (kind == Tcp || kind == Tls) ==> !WireVersion(kind, requested).IsMultiplexed()
    ensures (kind == Tcp || kind == Tls) && !requested.IsMultiplexed() ==> WireVersion(kind, requested) == requested
    ensures !kind.IsH1Family() ==> WireVersion(kind, requested).IsMultiplexed()
  {
  }
}
