/** The client's error values, as far as the resolver and the request
    dispatcher produce or forward them. The HTTP/1 and HTTP/2 error enums
    follow client/src/h1/error.rs and client/src/h2/error.rs; the crate-level
    enum they convert into (client/src/error.rs) is not part of this model,
    so its variants are limited to the ones the modelled code constructs. */
module ClientErrors {
  import opened Http

  /** `InvalidUri`: which required URI component is absent. */
  datatype UriError = MissingHost | MissingScheme | MissingPathQuery

  /** `TimeoutError`: which phase overran its budget. */
  datatype TimeoutPhase = ConnectPhase | TlsHandshakePhase | RequestPhase

  /** `UnexpectedStateError` of the HTTP/1 client. */
  datatype UnexpectedState = RemainingData | ConnectionClosed

  /** Opaque errors of the layers below: the HTTP/1 wire parser, the body
      stream, the `h2` and HTTP/3 stacks. */
  datatype Opaque = Opaque(code: nat)

  /** `h1::Error`. */
  datatype H1Error =
    | H1Io(io: IoError)
    | H1Proto(proto: Opaque)
    | H1Unexpected(state: UnexpectedState)
    | H1Body(body: Opaque)

  /** `h2::Error`. */
  datatype H2Error =
    | H2Io(io: IoError)
    | H2Body(body: Opaque)
    | H2Stack(stack: Opaque)

  /** The crate-level `Error`. */
  datatype ClientError =
    | InvalidUri(uri: UriError)
    | Io(io: IoError)
    | Timeout(phase: TimeoutPhase)
    | FromH1(h1: H1Error)
    | FromH2(h2: H2Error)
    | FromH3(h3: Opaque)
}
