/** Turning server errors into responses (actix-http-alt/src/response.rs):
    every error becomes a plain-text 500 response carrying the error's
    message. */
module Responses {
  import opened Http
  import opened Body

  /** `http::StatusCode`. */
  type StatusCode = nat

  const InternalServerError: StatusCode := 500

  /** `http::Response<ResponseBody<S>>`. The error responses below are
      built at the default stream type `StreamBody`; their body never holds
      a stream. */
  datatype Response<S> = Response(status: StatusCode, headers: HeaderMap, body: ResponseBody<S>)

  /** `internal_error`: a 500 response, labelled as UTF-8 plain text, whose
      body is a copy of `buf`. */
  function InternalError(buf: Http.Bytes): (r: Response<StreamBody>)
    ensures r.status == InternalServerError
    ensures r.headers == map[ContentType := TextUtf8]
    ensures r.body == FromBytes(buf)
  {
    Response(InternalServerError, map[ContentType := TextUtf8], Bytes(buf))
  }

  /** The two error types with a `ResponseError` impl: `Box<dyn Error>`
      and `io::Error`. Each is reduced to the UTF-8 bytes of its `Display`
      text. */
  datatype ServiceError =
    | Dynamic(display: Http.Bytes)
    | Io(io: IoError)
  {
    /** `to_string().as_bytes()`. */
    function Message(): Http.Bytes {
      match this
      case Dynamic(text) => text
      case Io(e) => e.display
    }
  }

  /** `ResponseError::response_error`: both impls build the internal-error
      response from the error's message. */
  function ResponseError(e: ServiceError): (r: Response<StreamBody>)
    ensures r.status == InternalServerError
    ensures ContentType in r.headers && r.headers[ContentType] == TextUtf8
    ensures r.body == Bytes(e.Message())
    ensures r == InternalError(e.Message())
  {
    InternalError(e.Message())
  }

  /** An I/O error and a boxed error with the same message give the same
      response. */
  lemma SameMessageSameResponse(text: Http.Bytes, io: IoError)
    requires io.display == text
    ensures ResponseError(Io(io)) == ResponseError(Dynamic(text))
  {
  }

  /** Reading an error response's body yields the message once, whole,
      and then the end of the stream on every later poll. */
  lemma ErrorBodyYieldsMessageOnce<E>(e: ServiceError, n: nat, poll: Poller<StreamBody, E>, from: E -> BodyError)
    ensures Polls(ResponseError(e).body, n + 1, poll, from) == [Chunk(e.Message())] + Ends(n)
  {
    BytesYieldOnce(e.Message(), n, poll, from);
  }
}
