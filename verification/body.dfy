/** The unified body types of the server crate (actix-http-alt/src/body.rs):
    a request body that delegates to whichever protocol produced it, and a
    response body that is empty, one pre-built buffer, or a stream. */
module Body {
  import O = Outcomes
  import opened Http

  /** `BodyError`, the unified body error; opaque. */
  datatype BodyError = BodyError(code: nat)

  /** `std::task::Poll`. */
  datatype Poll<+T> = Ready(value: T) | Pending

  /** What one poll of a body stream yields: pending, the end of the
      stream, a chunk, or an error. */
  type Item<E> = Poll<O.Option<O.Result<Bytes, E>>>

  /** A poll of a stream of type `S`: the item and the stream's state
      afterwards. */
  datatype Step<S, E> = Step(item: Item<E>, next: S)

  /** A stream is given by its poll function. */
  type Poller<!S, E> = S -> Step<S, E>

  const End: Item<BodyError> := Ready(O.None)

  /** A poll yielding `b`. */
  function Chunk(b: Bytes): Item<BodyError> {
    Ready(O.Some(O.Ok(b)))
  }

  /** `map_err(From::from)` on a polled item: chunks, the end and
      `Pending` pass through, an error is converted. */
  function MapErr<E>(item: Item<E>, from: E -> BodyError): (r: Item<BodyError>)
    ensures item.Pending? <==> r.Pending?
    ensures item == Ready(O.None) <==> r == End
    ensures forall b :: item == Ready(O.Some(O.Ok(b))) <==> r == Chunk(b)
    ensures item.Ready? && item.value.Some? && item.value.value.Err? ==>
      r == Ready(O.Some(O.Err(from(item.value.value.error))))
  {
    match item
    case Pending => Pending
    case Ready(next) =>
      if next.None? then End
      else if next.value.Ok? then Chunk(next.value.value)
      else Ready(O.Some(O.Err(from(next.value.error))))
  }

  /** `ResponseBody<B>`. */
  datatype ResponseBody<S> =
    | None
    | Bytes(bytes: Http.Bytes)
    | Stream(stream: S)
  {
    /** `ResponseBody::is_eof`: whether the body is known to hold no more
        data, decided without polling. Only a body that holds no stream
        and no buffered bytes is at its end. */
    function IsEof(): (eof: bool)
      ensures eof <==> !Stream? && (Bytes? ==> |bytes| == 0)
    {
      match this
      case None => true
      case Bytes(b) => |b| == 0
      case Stream(_) => false
    }
  }

  /** `StreamBody`, the boxed stream `ResponseBody` holds by default;
      opaque. */
  datatype StreamBody = StreamBody(id: nat)

  /** `From<Bytes> for ResponseBody`, at the default stream type. */
  function FromBytes(b: Http.Bytes): (body: ResponseBody<StreamBody>)
    ensures body.Bytes? && body.bytes == b
    ensures body.IsEof() <==> |b| == 0
  {
    Bytes(b)
  }

  /** `ResponseBody::stream` and `From<StreamBody> for ResponseBody`. */
  function FromStream<S>(s: S): (body: ResponseBody<S>)
    ensures body.Stream? && body.stream == s
    ensures !body.IsEof()
  {
    Stream(s)
  }

  /** `ResponseBody::poll_next`. An empty body stays ended; a buffer is
      handed out whole and the body becomes empty; a stream is polled and
      its error converted with `from`. */
  function PollNext<S, E>(body: ResponseBody<S>, poll: Poller<S, E>, from: E -> BodyError): (r: Step<ResponseBody<S>, BodyError>)
    ensures body.None? ==> r.item == End && r.next == None
    ensures body.Bytes? ==> r.item == Chunk(body.bytes) && r.next == None
    ensures body.Stream? ==>
      && r.next == Stream(poll(body.stream).next)
      && r.item == MapErr(poll(body.stream).item, from)
  {
    match body
    case None => Step(End, None)
    case Bytes(b) => Step(Chunk(b), None)
    case Stream(s) =>
      var step := poll(s);
      Step(MapErr(step.item, from), Stream(step.next))
  }

  /** The items of `n` successive polls. */
  function Polls<S, E>(body: ResponseBody<S>, n: nat, poll: Poller<S, E>, from: E -> BodyError): (items: seq<Item<BodyError>>)
    ensures |items| == n
    decreases n
  {
    if n == 0 then []
    else
      var step := PollNext(body, poll, from);
      [step.item] + Polls(step.next, n - 1, poll, from)
  }

  /** `n` end-of-stream items. */
  function Ends(n: nat): (items: seq<Item<BodyError>>)
    ensures |items| == n
    ensures forall i :: 0 <= i < n ==> items[i] == End
  {
    seq(n, _ => End)
  }

  /** An empty body ends on every poll, forever. */
  lemma {:induction false} NoneEndsForever<S, E>(n: nat, poll: Poller<S, E>, from: E -> BodyError)
    ensures Polls(None, n, poll, from) == Ends(n)
    decreases n
  {
    if n > 0 {
      NoneEndsForever(n - 1, poll, from);
      assert Ends(n) == [End] + Ends(n - 1);
    }
  }

  /** A buffered body yields its buffer exactly once, then ends forever. */
  lemma BytesYieldOnce<S, E>(b: Http.Bytes, n: nat, poll: Poller<S, E>, from: E -> BodyError)
    ensures Polls(Bytes(b), n + 1, poll, from) == [Chunk(b)] + Ends(n)
  {
    NoneEndsForever(n, poll, from);
  }

  /** `is_eof` on an empty buffer says the body is finished, yet polling it
      still yields one empty chunk before the end. What `is_eof` promises
      is that no further data comes: every chunk a body reporting end of
      stream yields is empty. */
  lemma EofBodiesYieldNoData<S, E>(body: ResponseBody<S>, n: nat, poll: Poller<S, E>, from: E -> BodyError)
    requires body.IsEof()
    ensures body.Bytes? ==> Polls(body, n + 1, poll, from) == [Chunk([])] + Ends(n)
    ensures forall i, b :: 0 <= i < n && Polls(body, n, poll, from)[i] == Chunk(b) ==> b == []
  {
    NoneEndsForever(n, poll, from);
    if body.Bytes? {
      BytesYieldOnce(body.bytes, n, poll, from);
      if n > 0 {
        NoneEndsForever(n - 1, poll, from);
        BytesYieldOnce(body.bytes, n - 1, poll, from);
      }
    }
  }

  /** `RequestBody`: one arm per protocol (HTTP/1, HTTP/2, HTTP/3). */
  datatype RequestBody<A, B, C> = H1(h1: A) | H2(h2: B) | H3(h3: C)

  /** `RequestBody::poll_next`: polls the active protocol's body and
      reports exactly its item; the protocol never changes. */
  function PollRequestBody<A, B, C>(
    body: RequestBody<A, B, C>,
    poll1: Poller<A, BodyError>, poll2: Poller<B, BodyError>, poll3: Poller<C, BodyError>): (r: Step<RequestBody<A, B, C>, BodyError>)
    ensures body.H1? ==> r == Step(poll1(body.h1).item, H1(poll1(body.h1).next))
    ensures body.H2? ==> r == Step(poll2(body.h2).item, H2(poll2(body.h2).next))
    ensures body.H3? ==> r == Step(poll3(body.h3).item, H3(poll3(body.h3).next))
  {
    match body
    case H1(s) => var step := poll1(s); Step(step.item, H1(step.next))
    case H2(s) => var step := poll2(s); Step(step.item, H2(step.next))
    case H3(s) => var step := poll3(s); Step(step.item, H3(step.next))
  }
}
