# xitca-web client core, modelled in Dafny

This project models the decision logic at the core of the xitca-web HTTP
client, of its server-side body and error-response types, and of its
postgres pool front end. Each piece is stated as pure functions over
immutable datatypes, and properties of each are proved.

- **Endpoints** (`endpoint.dfy`): the three-variant `Endpoint` pool key,
  `Endpoint::version`, and `EndpointState`. Socket addresses are IPv4 or
  IPv6; an IPv6 address keeps its flow information and scope id, which
  take part in the key's equality.
- **Resolver** (`resolver.dfy`): `DefaultResolver::call`. It checks the
  URI, builds the Unix socket path, infers the default port and the TLS
  flag from the scheme, and turns each looked-up address into an endpoint.
  Name resolution is an uninterpreted function parameter `Dns`.
- **Pool** (`pool.dfy`): the `Connection` ownership modes and
  `NoPool::get_endpoints_state`.
- **Requests** (`request.dfy`): the request builder (`new`, `method`,
  `version`, `timeout`, `body`, `text`, `stream`, `map_body`) and the policy
  of `send`. That policy covers which duration seeds the timer, which
  budget the protocol sender races against, which HTTP version goes on the
  wire for each connection kind, and when the connection is marked
  `destroy_on_drop`. URI parsing, pool acquisition, `make_connection` and
  the protocol sender are inputs: `parsed`, `acquired`, `dialed` and
  `outcome`.
- **Body** (`body.dfy`): the server crate's `ResponseBody`
  (`None`/`Bytes`/`Stream`, with `poll_next`, `is_eof`, `stream` and the
  `From` impls) and `RequestBody::poll_next`. A stream is given by its poll
  function.
- **Responses** (`response.dfy`): `internal_error` and the two
  `ResponseError` impls.
- **PoolExecute** (`execute.dfy`): the postgres `Execute` impls for a pool.
  Every operation returns its result together with a trace of events:
  checkout, each statement sent, release of the connection, and each
  result awaited. The pool's "checked out" flag is computed from that
  trace by `Held`. `ExecuteIterWithPool` and `QueryIterWithPool` are
  methods whose loops follow the source's loops. They are proved equal to
  closed-form descriptions (`BatchExecution`, `BatchQuery`), and the
  properties are proved about those descriptions.
- Shared vocabulary: `outcomes.dfy` (`Option`, `Result`), `http.dfy`
  (versions, bytes, ports, header maps, the decimal text
  `HeaderValue::from(usize)` writes) and `client_errors.dfy` (the client's
  error values).

The model follows the code as written. Two of its behaviours are worth
stating plainly:

- `Endpoint::version` returns a `Secure` endpoint's stored version
  unnormalised, so HTTP/1.0 stays HTTP/1.0. Only `Address` rounds older
  versions up to HTTP/1.1.
- When name resolution returns no addresses, the resolver returns an empty
  endpoint list, not an error.

In two further places the code does something other than what its own
comments say:

- The design comment at client/src/pool/endpoint.rs:49 says a Unix
  address is for HTTP/1 only. `send` still hands the request's own version
  to `h1::proto::send` on a Unix-socket connection
  (client/src/request.rs:209); only the TCP and TLS arms rewrite HTTP/2 and
  HTTP/3 to HTTP/1.1 before that call. The model records the version
  handed to `h1::proto::send`, not what that sender writes.
- The doc comment of `Request::timeout` (client/src/request.rs:85-86) says
  the per-request value overrides the client's `TimeoutConfig`. It only
  seeds the timer. Before sending, the timer is reset to the client-wide
  request timeout (client/src/request.rs:191-193;
  `PerRequestTimeoutOnlySeedsTimer`).

## Model

| member | source | states |
|---|---|---|
| `Endpoints.Endpoint.Version` | client/src/pool/endpoint.rs:13-25 | A TLS endpoint reports its stored version unchanged. A plaintext endpoint reports the larger of its version and HTTP/1.1. A Unix endpoint always reports HTTP/1.1. |
| `Endpoints.NormalisedVersionIsFixpoint` | client/src/pool/endpoint.rs:16-23 | For plaintext and Unix endpoints the reported version is HTTP/1.1, HTTP/2 or HTTP/3. Re-wrapping it in an `Address` reports the same version again. |
| `Endpoints.SecureKeepsLegacyVersion` | client/src/pool/endpoint.rs:15 | A TLS endpoint holding HTTP/1.0 or HTTP/0.9 reports that version; nothing normalises it. |
| `Endpoints.AddressVersionTable` | client/src/pool/endpoint.rs:16-22 | A plaintext endpoint keeps HTTP/2 and HTTP/3 and reports HTTP/1.1 for every other version. |
| `Endpoints.EndpointEqualityIsStructural` | client/src/pool/endpoint.rs:5-10 | Two endpoints are equal iff they are the same variant with equal fields. |
| `Resolver.DefaultPort` | client/src/pool/resolver.rs:39-43 | With no explicit port, `http`/`ws` give 80 and `https`/`wss` give 443, in both directions. Every other scheme gives 0. |
| `Resolver.IsSecure` | client/src/pool/resolver.rs:45-49 | TLS is never required for `http`/`ws` and always required for `https`/`wss`. For any other scheme it is required iff the port is 443. |
| `Resolver.Plan` | client/src/pool/resolver.rs:20-49 | A missing host fails with `MissingHost`, even when the scheme is also missing. Otherwise a missing scheme fails with `MissingScheme`. A `unix` URI without a path fails with `MissingPathQuery`; with one it becomes the socket path `/host` followed by the path. Any other URI looks up its host on the explicit or default port, with the scheme's TLS flag. Each condition holds iff its outcome does. |
| `Resolver.EndpointsFor` | client/src/pool/resolver.rs:56-64 | There is one endpoint per address, in order. Each holds its address and the requested version, is `Secure` exactly when TLS is required, and then carries the host as server name. |
| `Resolver.Resolve` | client/src/pool/resolver.rs:20-67 | URI errors come back unchanged. A Unix target gives exactly one `Unix` endpoint. A lookup error is returned as an I/O error. A successful lookup gives the endpoints of its addresses. |
| `Resolver.UnixIgnoresDns` | client/src/pool/resolver.rs:27-37 | A `unix` URI resolves identically under any two name resolvers, so name resolution is never consulted. |
| `Resolver.ResolvedEndpointsFollowLookup` | client/src/pool/resolver.rs:52-66 | After a successful lookup, the result has one endpoint per address, in lookup order. An empty lookup gives `Ok([])`. |
| `Resolver.ResolvedEndpointVersions` | client/src/pool/resolver.rs:56-64 | Each resolved endpoint reports the requested version for a TLS target, and the larger of it and HTTP/1.1 for a plaintext target. |
| `Resolver.SchemeDefaults` | client/src/pool/resolver.rs:39-49 | Without a port, `https://host/` and `wss://host/` look up port 443 with TLS, and `http://host/` and `ws://host/` look up port 80 without it. An explicit port is used as given. |
| `Pool.EndpointsState` | client/src/pool/mod.rs:33-35 | The report's keys are exactly the listed endpoints, and every value is `NotExisting`. Its size is at most the list length, because duplicates collapse. |
| `Pool.ScopeIdsKeepKeysApart` | client/src/pool/mod.rs:34 | Two IPv6 endpoints that differ only in scope id are reported under two separate keys. |
| `Pool.StateReportDependsOnlyOnSet` | client/src/pool/mod.rs:34 | Two lists naming the same endpoints give the same report, whatever their order or repetition. An empty list gives an empty map. |
| `Requests.New` | client/src/request.rs:35-41 | A new request's timeout is the client's configured request timeout. |
| `Requests.WithMethod` | client/src/request.rs:69-72 | Sets the method. Every other part, the body, the client and the timeout are unchanged. |
| `Requests.WithVersion` | client/src/request.rs:78-81 | Sets the version. Every other part, the body, the client and the timeout are unchanged. |
| `Requests.WithTimeout` | client/src/request.rs:87-90 | Sets the timeout. Parts, body and client are unchanged. |
| `Requests.MapBody` | client/src/request.rs:138-151 | The body becomes `f(old body)`. Parts, client and the current timeout survive the rebuild through `Request::new`. |
| `Requests.WithBody` | client/src/request.rs:118-126 | The body becomes the single chunk `Once(bytes)`. `content-length` holds the byte count as shortest decimal text: it reads back as the count and has no leading zero. Other headers, method, URI, version and timeout are unchanged. |
| `Requests.WithText` | client/src/request.rs:95-102 | As `WithBody`, and `content-type` is `text/plain; charset=utf-8`. The method, URI, version and all other headers are unchanged. |
| `Requests.WithStream` | client/src/request.rs:130-136 | The body becomes the given stream. Parts, client and timeout are unchanged. |
| `Http.DecimalText` | client/src/request.rs:122-124 | The `content-length` value is a non-empty string of decimal digits with no leading zero. |
| `Http.DecimalRoundTrip` | client/src/request.rs:122-124 | Reading the written `content-length` value back gives the byte count. |
| `Requests.WireVersion` | client/src/request.rs:195-231 | TCP and TLS streams send the smaller of the requested version and HTTP/1.1. A Unix stream sends the requested version. HTTP/2 and HTTP/3 connections send their own version. |
| `Requests.WireVersionFitsConnection` | client/src/request.rs:196-212 | TCP and TLS never carry a multiplexed version and keep any older version as requested. HTTP/2 and HTTP/3 connections always carry a multiplexed one. |
| `Requests.Settle` | client/src/request.rs:214-268 | The result is a response iff the sender responded; that response carries the response timeout. A send error is returned as it is, and the timer firing gives `Timeout(Request)`. The connection is destroyed iff the send failed, or an HTTP/1 connection reports `is_close`. |
| `Requests.Send` | client/src/request.rs:154-270 | A connection is used exactly when the URI parses, acquisition succeeds, and the pool either had a connection or dialing succeeded. Errors from URI parsing, acquisition or dialing are returned with no connection, nothing destroyed and no send. Otherwise the timer is seeded with the resolve timeout when the pool was empty and with the request's timeout otherwise. The send then races the client's request timeout, carrying the wire version of the connection kind, and is settled as in `Settle`. |
| `Requests.ReturnedToPoolIff` | client/src/request.rs:249-268 | A used connection returns to its pool iff a response came back and it is not an HTTP/1 connection the server is closing. A timeout always destroys it and gives `Timeout(Request)`; a send error always destroys it and is returned. |
| `Requests.PerRequestTimeoutOnlySeedsTimer` | client/src/request.rs:170-193 | Changing only the per-request timeout leaves result, connection, destroy flag, send deadline and wire version unchanged. It also leaves the timer seed unchanged when a connection was dialed. |
| `Body.MapErr` | actix-http-alt/src/body.rs:113 | Pending, end of stream and chunks pass through unchanged in both directions, and an error is converted with `From`. |
| `Body.FromBytes` | actix-http-alt/src/body.rs:118-122 | Builds the `Bytes` variant holding the buffer. It reports end of stream iff the buffer is empty. |
| `Body.ResponseBody.IsEof` | actix-http-alt/src/body.rs:69-75 | `None` is at its end, `Bytes` is at its end iff its buffer is empty, and `Stream` never is. |
| `Body.FromStream` | actix-http-alt/src/body.rs:77-80 | Builds the `Stream` variant holding the stream. It never reports end of stream. |
| `Body.PollNext` | actix-http-alt/src/body.rs:106-115 | `None` yields the end and stays `None`. `Bytes` yields its whole buffer and becomes `None`. `Stream` yields the inner stream's item with its error converted, and keeps the advanced stream. |
| `Body.NoneEndsForever` | actix-http-alt/src/body.rs:108 | Any number of polls of an empty body all yield the end. |
| `Body.BytesYieldOnce` | actix-http-alt/src/body.rs:109-111 | Polling a buffered body yields the buffer once, then the end on every later poll. |
| `Body.EofBodiesYieldNoData` | actix-http-alt/src/body.rs:69-75 | An empty buffer reports end of stream, yet its first poll yields one empty chunk. Every chunk a body reporting end of stream yields is empty. |
| `Body.PollRequestBody` | actix-http-alt/src/body.rs:27-35 | Polling a request body returns exactly the active protocol body's item, and the body stays in the same protocol variant. |
| `Responses.InternalError` | actix-http-alt/src/response.rs:28-39 | Status 500, exactly one header `content-type: text/plain; charset=utf-8`, and a `Bytes` body equal to the input buffer. |
| `Responses.ResponseError` | actix-http-alt/src/response.rs:16-26 | Every error becomes exactly the internal-error response built from its message: status 500, only the plain-text `content-type` header, and the message as body. |
| `Responses.SameMessageSameResponse` | actix-http-alt/src/response.rs:16-26 | An I/O error and a boxed error with the same message give identical responses. |
| `Responses.ErrorBodyYieldsMessageOnce` | actix-http-alt/src/response.rs:37 | The error response's body yields the message once, whole, and then the end forever. |
| `PoolExecute.PhasesDiscipline` | postgres/src/pool/execute.rs:220-233 | In a pooled run, every statement is sent while the connection is checked out. Every result is awaited after the connection went back, and the connection is back at the end. |
| `PoolExecute.ExecuteIterWithPool` | postgres/src/pool/execute.rs:211-236 | The two-phase loop gives the closed-form outcome. A checkout error comes first. Otherwise sends stop at the first failure, then the connection is released, then results are awaited in order until the first failure, and the row counts are summed. |
| `PoolExecute.BatchExecutionSucceedsIff` | postgres/src/pool/execute.rs:229-235 | A batch returns the sum of row counts iff checkout, every send and every execution succeed. A checkout error is returned with nothing done. |
| `PoolExecute.BatchStopsAtFirstFailedSend` | postgres/src/pool/execute.rs:223-226 | The first failing send's error is returned. No later statement is sent, the connection is released and nothing is awaited. |
| `PoolExecute.BatchStopsAtFirstFailedExecution` | postgres/src/pool/execute.rs:231-233 | When all sends succeed, the first failing result's error is returned. Results up to it were awaited and none after it. |
| `PoolExecute.QueryIterWithPool` | postgres/src/pool/execute.rs:238-255 | The query loop gives the closed-form outcome: the checkout error, else the first query error, else one stream per statement. The connection is held until the end. |
| `PoolExecute.BatchQueryOutcome` | postgres/src/pool/execute.rs:245-254 | A batch query returns the streams of all statements, in input order, iff checkout and every query succeed. Otherwise it returns the error of the first statement whose query failed, after querying up to it and no further. |
| `PoolExecute.ExecuteStatement` | postgres/src/pool/execute.rs:80-89 | Executing one prepared statement behaves exactly as a batch of that one statement. |
| `PoolExecute.ExecuteSimple` | postgres/src/pool/execute.rs:21-30 | Executing SQL text behaves as one prepared statement whose send cannot fail: check out, send, release, then await. |
| `PoolExecute.QueryOne` | postgres/src/pool/execute.rs:92-97 | Covers both the statement impl here and the `&str` impl at postgres/src/pool/execute.rs:33-39. Querying one statement or SQL text behaves as a one-statement batch query whose single stream is returned unwrapped. |
| `PoolExecute.ExecuteOn` | postgres/src/pool/execute.rs:13-209 | Executing SQL text, one statement or a batch behaves exactly as the batch execution of the statements that work runs. |
| `PoolExecute.QueryOn` | postgres/src/pool/execute.rs:13-209 | Querying any kind of work has the trace and the success or error of the batch query of its statements. A batch returns all its streams; SQL text and a single statement return their one stream. |
| `PoolExecute.ExecuteOnArc` | postgres/src/pool/execute.rs:264-267 | Executing against `Arc<Pool>` is identical to executing against the inner pool. |
| `PoolExecute.QueryOnArc` | postgres/src/pool/execute.rs:269-272 | Querying against `Arc<Pool>` is identical to querying the inner pool. |
| `PoolExecute.CheckoutFailureTouchesNothing` | postgres/src/pool/execute.rs:220-227 | For every kind of work, a failed checkout returns its error and sends nothing. Otherwise the connection is back in the pool when the operation ends. |
| `PoolExecute.BatchesRelease` | postgres/src/pool/execute.rs:211-255 | A batch execution or batch query whose checkout fails returns that error with an empty trace. Otherwise it ends with the connection released. |

## Left out

- Concurrency, wall-clock time and I/O. This covers real DNS (`spawn_blocking` plus `to_socket_addrs`), TCP/TLS/Unix dialing, `make_connection`, the HTTP/1, HTTP/2 and HTTP/3 wire senders, and the timer itself. They are inputs to the model: DNS is a function, the rest are outcome values, and time is plain durations.
- The `spawn_blocking(..).await.unwrap()` panic when the lookup task fails to join; a panic is not a modelled outcome.
- `client/src/error.rs` is not part of this model. The resolver's `?` on the lookup result is assumed to wrap the I/O error as `Io`.
- The exclusive and shared pool internals and the single-dial `Spawner` coordination. Their source is not part of this model, and the behaviour is concurrent.
- `NoPool::get_connection`: as written it does not match the `Pool` trait's signature (it returns nothing instead of a `Connection`), so there is no behaviour to model.
- The commented-out combined pool (client/src/pool/combined.rs) and the design comment at client/src/pool/endpoint.rs:35-98. Neither is code.
- The tunnel (client/src/tunnel.rs): its behaviour is mutex serialisation of concurrent send and receive.
- `Request::json`: it depends on serde serialisation and unwraps its error.
- `Request::headers`, `headers_mut`, `extensions` and `extensions_mut`: plain accessors.
- Headers with several values: a header map here holds one value per name, so a request carrying repeated headers cannot be represented. The builder contracts that say "other headers unchanged" hold only for such single-valued maps. `HeaderMap::insert` replaces all values of the inserted name, which is what the model does for `content-length` and `content-type`.
- `ResponseBody::next` and the `Next` future: a one-line adapter over `poll_next`.
- UTF-8 encoding: error messages and `text` bodies are taken as their UTF-8 bytes.
- postgres/src/cancel.rs (network I/O), actix-web-alt/src/service/enum.rs (macro-generated delegation), the HTTP/1 and HTTP/2 error `From` conversions beyond the error datatypes, and the examples/auth application.
- `PoolExecute.ExecuteIterWithPool`: row counts are added as unbounded naturals. The `u64` sum in the source would overflow only past 2^64 affected rows.
- The `nightly` and non-`nightly` variants of each `Execute` impl have the same bodies and are modelled once.
- `Body.FromBytes`, `Responses.InternalError` and `Responses.ResponseError` are stated at the default stream type `StreamBody`, while the source is generic in it. The bodies they build never hold a stream.
- `Requests.Settle`: the HTTP/2 and HTTP/3 senders report no `is_close`. The `isClose` field of their outcome is ignored, as the source ignores the concept.
