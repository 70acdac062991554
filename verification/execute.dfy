/** Running statements against a connection pool
    (postgres/src/pool/execute.rs). The server and the pool are taken as
    given: each statement carries the outcomes the server would give it,
    and the pool the outcome of checking a connection out. What is modelled
    is the order of events: when the connection is checked out, when each
    statement is sent, when the connection goes back, and when each result
    is awaited. */
module PoolExecute {
  import opened Outcomes

  /** The driver's `Error`; opaque. */
  datatype PgError = PgError(code: nat)

  /** A stream of result rows (`RowStreamOwned`, `RowSimpleStream`). */
  datatype RowStream = RowStream(id: nat)

  /** A pool, reduced to what `pool.get()` gives: a connection (`None`) or
      this error. */
  datatype Pool = Pool(checkout: Option<PgError>)

  /** `Arc<Pool>`. */
  datatype SharedPool = Arc(inner: Pool)

  /** A prepared statement with its parameters (`StatementQuery`), reduced
      to the server's answers: whether sending it for execution fails,
      the row count (or error) awaiting the execution then gives, and the
      row stream (or error) querying it gives. */
  datatype Statement = Statement(
    dispatch: Option<PgError>,
    completion: Result<nat, PgError>,
    reply: Result<RowStream, PgError>)

  /** A plain SQL text (`&str`). Sending it for execution cannot fail. */
  datatype SimpleQuery = SimpleQuery(completion: Result<nat, PgError>, reply: Result<RowStream, PgError>) {
    /** The same answers, seen as a prepared statement whose send succeeds. */
    function AsStatement(): Statement {
      Statement(None, completion, reply)
    }
  }

  /** What happens to the pool and the connection, in order. */
  datatype Event =
    | Acquire         // a connection is checked out of the pool
    | Dispatch(index: nat)  // statement `index` is sent on it
    | Release         // the connection goes back to the pool
    | Await(index: nat)     // the result of statement `index` is awaited

  /** An operation's result together with the events it caused. */
  datatype Run<T> = Run(result: Result<T, PgError>, trace: seq<Event>)

  /** The pool's "checked out" flag after `trace`. */
  function Held(trace: seq<Event>): bool
    decreases |trace|
  {
    if |trace| == 0 then false
    else match trace[|trace| - 1]
      case Acquire => true
      case Release => false
      case _ => Held(trace[..|trace| - 1])
  }

  /** Statements `0 .. n-1` sent, in input order. */
  function Dispatches(n: nat): (t: seq<Event>)
    ensures |t| == n
    ensures forall i :: 0 <= i < n ==> t[i] == Dispatch(i)
  {
    seq(n, i requires 0 <= i < n => Dispatch(i as nat))
  }

  /** Results `0 .. n-1` awaited, in input order. */
  function Awaits(n: nat): (t: seq<Event>)
    ensures |t| == n
    ensures forall i :: 0 <= i < n ==> t[i] == Await(i)
  {
    seq(n, i requires 0 <= i < n => Await(i as nat))
  }

  /** The shape every pooled operation's events take: check out, send
      `sent` statements, give the connection back, await `awaited`
      results. */
  function Phases(sent: nat, awaited: nat): seq<Event> {
    [Acquire] + Dispatches(sent) + [Release] + Awaits(awaited)
  }

  /** Events that do not move the connection leave the flag alone. */
  lemma {:induction false} HeldIgnoresWork(prefix: seq<Event>, work: seq<Event>)
    requires forall i :: 0 <= i < |work| ==> work[i].Dispatch? || work[i].Await?
    ensures Held(prefix + work) == Held(prefix)
    decreases |work|
  {
    if |work| == 0 {
      assert prefix + work == prefix;
    } else {
      var init := work[..|work| - 1];
      assert (prefix + work)[..|prefix + work| - 1] == prefix + init;
      var last := work[|work| - 1];
      assert (prefix + work)[|prefix + work| - 1] == last;
      assert last.Dispatch? || last.Await?;
      assert Held(prefix + work) == Held(prefix + init);
      HeldIgnoresWork(prefix, init);
    }
  }

  /** In every pooled operation each statement is sent while the
      connection is checked out, each result is awaited only after the
      connection went back, and the connection is back at the end. */
  lemma PhasesDiscipline(sent: nat, awaited: nat)
    ensures var t := Phases(sent, awaited);
      && (forall i :: 0 <= i < |t| && t[i].Dispatch? ==> Held(t[..i]))
      && (forall i :: 0 <= i < |t| && t[i].Await? ==> !Held(t[..i]))
      && !Held(t)
  {
    var t := Phases(sent, awaited);
    var checkedOut := [Acquire] + Dispatches(sent);
    var released := checkedOut + [Release];
    assert Held([Acquire]);
    assert !Held(released);
    forall i | 0 <= i < |t| && t[i].Dispatch?
      ensures Held(t[..i])
    {
      assert 1 <= i <= sent;
      assert t[..i] == [Acquire] + Dispatches(sent)[..i - 1];
      HeldIgnoresWork([Acquire], Dispatches(sent)[..i - 1]);
    }
    forall i | 0 <= i < |t| && t[i].Await?
      ensures !Held(t[..i])
    {
      assert sent + 2 <= i;
      assert t[..i] == released + Awaits(awaited)[..i - sent - 2];
      HeldIgnoresWork(released, Awaits(awaited)[..i - sent - 2]);
    }
    assert t == released + Awaits(awaited);
    HeldIgnoresWork(released, Awaits(awaited));
  }

  /** The index of the first element failing `ok`, or the length if none
      does. */
  function FirstFailing<T>(xs: seq<T>, ok: T -> bool): (k: nat)
    ensures k <= |xs|
    ensures forall i :: 0 <= i < k ==> ok(xs[i])
    ensures k < |xs| ==> !ok(xs[k])
    decreases |xs|
  {
    if |xs| == 0 then 0
    else if !ok(xs[0]) then 0
    else 1 + FirstFailing(xs[1..], ok)
  }

  predicate Sent(s: Statement) {
    s.dispatch.None?
  }

  predicate Completed(s: Statement) {
    s.completion.Ok?
  }

  predicate Answered(s: Statement) {
    s.reply.Ok?
  }

  /** The rows all statements affected. */
  function TotalRows(stmts: seq<Statement>): nat
    requires forall i :: 0 <= i < |stmts| ==> Completed(stmts[i])
    decreases |stmts|
  {
    if |stmts| == 0 then 0
    else
      assert Completed(stmts[|stmts| - 1]);
      TotalRows(stmts[..|stmts| - 1]) + stmts[|stmts| - 1].completion.value
  }

  /** The outcome `execute_iter_with_pool` must have, in closed form: the
      checkout error; else the first dispatch error, after sending up to
      and including that statement; else the first execution error, after
      sending everything, releasing, and awaiting up to and including that
      result; else the total row count. */
  function BatchExecution(stmts: seq<Statement>, pool: Pool): Run<nat> {
    if pool.checkout.Some? then Run(Err(pool.checkout.value), [])
    else
      var k := FirstFailing(stmts, Sent);
      if k < |stmts| then Run(Err(stmts[k].dispatch.value), Phases(k + 1, 0))
      else
        var j := FirstFailing(stmts, Completed);
        if j < |stmts| then Run(Err(stmts[j].completion.error), Phases(|stmts|, j + 1))
        else Run(Ok(TotalRows(stmts)), Phases(|stmts|, |stmts|))
  }

  /** `execute_iter_with_pool`: check one connection out, send every
      statement on it in order, give it back, then await the results in
      order and add up their row counts. Any error ends the operation. */
  method ExecuteIterWithPool(stmts: seq<Statement>, pool: Pool) returns (r: Run<nat>)
    ensures r == BatchExecution(stmts, pool)
  {
    if pool.checkout.Some? {
      return Run(Err(pool.checkout.value), []);
    }
    var trace := [Acquire];
    var pending: seq<Result<nat, PgError>> := [];
    var i := 0;
    while i < |stmts|
      invariant i <= FirstFailing(stmts, Sent)
      invariant trace == [Acquire] + Dispatches(i)
      invariant |pending| == i
      invariant forall j :: 0 <= j < i ==> pending[j] == stmts[j].completion
    {
      trace := trace + [Dispatch(i)];
      assert trace == [Acquire] + Dispatches(i + 1);
      if stmts[i].dispatch.Some? {
        trace := trace + [Release];
        return Run(Err(stmts[i].dispatch.value), trace);
      }
      pending := pending + [stmts[i].completion];
      i := i + 1;
    }
    trace := trace + [Release];
    var num := 0;
    var j := 0;
    while j < |pending|
      invariant j <= FirstFailing(stmts, Completed)
      invariant trace == [Acquire] + Dispatches(|stmts|) + [Release] + Awaits(j)
      invariant num == TotalRows(stmts[..j])
    {
      trace := trace + [Await(j)];
      assert trace == [Acquire] + Dispatches(|stmts|) + [Release] + Awaits(j + 1);
      if pending[j].Err? {
        return Run(Err(pending[j].error), trace);
      }
      assert stmts[..j + 1][..j] == stmts[..j];
      num := num + pending[j].value;
      j := j + 1;
    }
    assert stmts[..|stmts|] == stmts;
    return Run(Ok(num), trace);
  }

  /** A batch execution returns the row total exactly when the checkout,
      every send and every execution succeed. */
  lemma BatchExecutionSucceedsIff(stmts: seq<Statement>, pool: Pool)
    ensures var r := BatchExecution(stmts, pool);
      && (r.result.Ok? <==>
           && pool.checkout.None?
           && (forall i :: 0 <= i < |stmts| ==> Sent(stmts[i]))
           && (forall i :: 0 <= i < |stmts| ==> Completed(stmts[i])))
      && (r.result.Ok? ==> r.result.value == TotalRows(stmts) && r.trace == Phases(|stmts|, |stmts|))
      && (pool.checkout.Some? ==> r.result == Err(pool.checkout.value) && r.trace == [])
  {
  }

  /** The first statement whose send fails ends the batch: its error is
      returned, no later statement is sent, the connection goes back and
      nothing is awaited. */
  lemma BatchStopsAtFirstFailedSend(stmts: seq<Statement>, pool: Pool, k: nat)
    requires pool.checkout.None?
    requires k < |stmts| && !Sent(stmts[k])
    requires forall i :: 0 <= i < k ==> Sent(stmts[i])
    ensures BatchExecution(stmts, pool) == Run(Err(stmts[k].dispatch.value), Phases(k + 1, 0))
  {
    assert FirstFailing(stmts, Sent) == k;
  }

  /** Once everything is sent, the first execution that fails ends the
      batch: its error is returned after the results before it were
      awaited, and later results are never awaited. */
  lemma BatchStopsAtFirstFailedExecution(stmts: seq<Statement>, pool: Pool, j: nat)
    requires pool.checkout.None?
    requires forall i :: 0 <= i < |stmts| ==> Sent(stmts[i])
    requires j < |stmts| && !Completed(stmts[j])
    requires forall i :: 0 <= i < j ==> Completed(stmts[i])
    ensures BatchExecution(stmts, pool) == Run(Err(stmts[j].completion.error), Phases(|stmts|, j + 1))
  {
    assert FirstFailing(stmts, Sent) == |stmts|;
    assert FirstFailing(stmts, Completed) == j;
  }

  /** The streams of a batch whose every query was answered, in input
      order. */
  function Streams(stmts: seq<Statement>): (streams: seq<RowStream>)
    requires forall i :: 0 <= i < |stmts| ==> stmts[i].reply.Ok?
    ensures |streams| == |stmts|
    ensures forall i :: 0 <= i < |stmts| ==> stmts[i].reply == Ok(streams[i])
  {
    seq(|stmts|, i requires 0 <= i < |stmts| => stmts[i].reply.value)
  }

  /** The outcome `query_iter_with_pool` must have: the checkout error;
      else the first query error, after querying up to and including that
      statement; else one stream per statement. The connection is held
      until the end either way. */
  function BatchQuery(stmts: seq<Statement>, pool: Pool): Run<seq<RowStream>> {
    if pool.checkout.Some? then Run(Err(pool.checkout.value), [])
    else
      var k := FirstFailing(stmts, Answered);
      if k < |stmts| then Run(Err(stmts[k].reply.error), Phases(k + 1, 0))
      else Run(Ok(Streams(stmts)), Phases(|stmts|, 0))
  }

  /** `query_iter_with_pool`: check one connection out, query every
      statement on it in order, collect the streams, stop at the first
      error. */
  method QueryIterWithPool(stmts: seq<Statement>, pool: Pool) returns (r: Run<seq<RowStream>>)
    ensures r == BatchQuery(stmts, pool)
  {
    if pool.checkout.Some? {
      return Run(Err(pool.checkout.value), []);
    }
    var trace := [Acquire];
    var streams: seq<RowStream> := [];
    var i := 0;
    while i < |stmts|
      invariant i <= FirstFailing(stmts, Answered)
      invariant trace == [Acquire] + Dispatches(i)
      invariant streams == Streams(stmts[..i])
    {
      trace := trace + [Dispatch(i)];
      assert trace == [Acquire] + Dispatches(i + 1);
      if stmts[i].reply.Err? {
        trace := trace + [Release];
        return Run(Err(stmts[i].reply.error), trace);
      }
      streams := streams + [stmts[i].reply.value];
      i := i + 1;
    }
    assert stmts[..|stmts|] == stmts;
    trace := trace + [Release];
    assert trace == Phases(|stmts|, 0);
    return Run(Ok(streams), trace);
  }

  /** A batch query returns a stream for every statement, in input order,
      exactly when the checkout and every query succeed; otherwise it
      returns the error of the first statement whose query failed. */
  lemma BatchQueryOutcome(stmts: seq<Statement>, pool: Pool)
    ensures var r := BatchQuery(stmts, pool);
      && (r.result.Ok? <==> pool.checkout.None? && forall i :: 0 <= i < |stmts| ==> Answered(stmts[i]))
      && (r.result.Ok? ==>
            && |r.result.value| == |stmts|
            && (forall i :: 0 <= i < |stmts| ==> stmts[i].reply == Ok(r.result.value[i]))
            && r.trace == Phases(|stmts|, 0))
      && (r.result.Err? && pool.checkout.None? ==>
            exists k :: 0 <= k < |stmts| && stmts[k].reply == Err(r.result.error) && r.trace == Phases(k + 1, 0)
              && (forall i :: 0 <= i < k ==> Answered(stmts[i])))
  {
    if pool.checkout.None? {
      var k := FirstFailing(stmts, Answered);
      if k < |stmts| {
        assert BatchQuery(stmts, pool).result == Err(stmts[k].reply.error);
      }
    }
  }

  /** `Execute<&Pool> for StatementQuery`: check out, send, give the
      connection back, then await the row count. */
  function ExecuteStatement(stmt: Statement, pool: Pool): (r: Run<nat>)
    ensures r == BatchExecution([stmt], pool)
  {
    assert [stmt][1..] == [];
    if pool.checkout.Some? then Run(Err(pool.checkout.value), [])
    else if stmt.dispatch.Some? then Run(Err(stmt.dispatch.value), Phases(1, 0))
    else
      assert FirstFailing([stmt], Sent) == 1;
      if stmt.completion.Ok? then
        assert TotalRows([stmt]) == stmt.completion.value by {
          assert [stmt][..0] == [];
        }
        Run(stmt.completion, Phases(1, 1))
      else Run(stmt.completion, Phases(1, 1))
  }

  /** `Execute<&Pool> for &str`: check out, send (which cannot fail), give
      the connection back, then await the row count. It behaves as a
      single prepared statement whose send succeeds. */
  function ExecuteSimple(sql: SimpleQuery, pool: Pool): (r: Run<nat>)
    ensures r == ExecuteStatement(sql.AsStatement(), pool)
    ensures pool.checkout.None? ==> r.trace == Phases(1, 1)
  {
    if pool.checkout.Some? then Run(Err(pool.checkout.value), [])
    else Run(sql.completion, Phases(1, 1))
  }

  /** `query` for a single statement or SQL text: check out, query while
      holding the connection, give it back. It is a one-statement batch
      query whose single stream is returned unwrapped. */
  function QueryOne(stmt: Statement, pool: Pool): (r: Run<RowStream>)
    ensures var batch := BatchQuery([stmt], pool);
      && r.trace == batch.trace
      && (r.result.Ok? <==> batch.result.Ok?)
      && (r.result.Ok? ==> batch.result.value == [r.result.value])
      && (r.result.Err? ==> batch.result == Err(r.result.error))
  {
    if pool.checkout.Some? then Run(Err(pool.checkout.value), [])
    else Run(stmt.reply, Phases(1, 0))
  }

  /** The three things `execute` and `query` accept. */
  datatype Work =
    | Simple(sql: SimpleQuery)
    | Single(stmt: Statement)
    | Batch(stmts: seq<Statement>)

  /** The query outputs: one stream, or one per statement. */
  datatype QueryOutput = OneStream(stream: RowStream) | ManyStreams(streams: seq<RowStream>)

  /** A run with its success value wrapped by `wrap`. */
  function MapRun<T, U>(r: Run<T>, wrap: T -> U): Run<U> {
    Run(if r.result.Ok? then Ok(wrap(r.result.value)) else Err(r.result.error), r.trace)
  }

  /** The statements a piece of work runs: SQL text is one unprepared
      statement, a statement is itself, a batch is its statements. */
  function Statements(work: Work): seq<Statement> {
    match work
    case Simple(sql) => [sql.AsStatement()]
    case Single(stmt) => [stmt]
    case Batch(stmts) => stmts
  }

  /** `Execute<&Pool>::execute` for each accepted kind of work. Every kind
      behaves as the batch of the statements it runs. */
  function ExecuteOn(work: Work, pool: Pool): (r: Run<nat>)
    ensures r == BatchExecution(Statements(work), pool)
  {
    match work
    case Simple(sql) => ExecuteSimple(sql, pool)
    case Single(stmt) => ExecuteStatement(stmt, pool)
    case Batch(stmts) => BatchExecution(stmts, pool)
  }

  /** `Execute<&Pool>::query` for each accepted kind of work. Every kind
      behaves as the batch query of the statements it runs; a batch gets
      all its streams and the other kinds get their single stream. */
  function QueryOn(work: Work, pool: Pool): (r: Run<QueryOutput>)
    ensures var batch := BatchQuery(Statements(work), pool);
      && r.trace == batch.trace
      && (r.result.Ok? <==> batch.result.Ok?)
      && (r.result.Err? ==> batch.result == Err(r.result.error))
      && (r.result.Ok? && work.Batch? ==> r.result.value == ManyStreams(batch.result.value))
      && (r.result.Ok? && !work.Batch? ==> r.result.value.OneStream? && batch.result.value == [r.result.value.stream])
  {
    match work
    case Simple(sql) => MapRun(QueryOne(sql.AsStatement(), pool), s => OneStream(s))
    case Single(stmt) => MapRun(QueryOne(stmt, pool), s => OneStream(s))
    case Batch(stmts) => MapRun(BatchQuery(stmts, pool), ss => ManyStreams(ss))
  }

  /** `Execute<&Arc<Pool>>`: forwards to the pool inside the `Arc`, so it
      behaves exactly as executing against that pool. */
  function ExecuteOnArc(work: Work, pool: SharedPool): (r: Run<nat>)
    ensures r == ExecuteOn(work, pool.inner)
  {
    ExecuteOn(work, pool.inner)
  }

  /** `Execute<&Arc<Pool>>::query`. */
  function QueryOnArc(work: Work, pool: SharedPool): (r: Run<QueryOutput>)
    ensures r == QueryOn(work, pool.inner)
  {
    QueryOn(work, pool.inner)
  }

  /** Whatever the work, a failed checkout returns its error and touches
      nothing; otherwise the events have the pooled shape, so every send
      happens on a checked-out connection, every await after it went back,
      and it is back at the end. */
  lemma CheckoutFailureTouchesNothing(work: Work, pool: Pool)
    ensures pool.checkout.Some? ==>
      && ExecuteOn(work, pool) == Run(Err(pool.checkout.value), [])
      && QueryOn(work, pool).result == Err(pool.checkout.value)
      && QueryOn(work, pool).trace == []
    ensures pool.checkout.None? ==> !Held(ExecuteOn(work, pool).trace) && !Held(QueryOn(work, pool).trace)
  {
    var stmts := Statements(work);
    assert ExecuteOn(work, pool) == BatchExecution(stmts, pool);
    BatchesRelease(stmts, pool);
  }

  /** A pooled batch, executed or queried, ends with the connection back
      in the pool, and does nothing when checkout fails. */
  lemma BatchesRelease(stmts: seq<Statement>, pool: Pool)
    ensures pool.checkout.Some? ==>
      && BatchExecution(stmts, pool) == Run(Err(pool.checkout.value), [])
      && BatchQuery(stmts, pool) == Run(Err(pool.checkout.value), [])
    ensures pool.checkout.None? ==>
      !Held(BatchExecution(stmts, pool).trace) && !Held(BatchQuery(stmts, pool).trace)
  {
    if pool.checkout.None? {
      var k := FirstFailing(stmts, Sent);
      var j := FirstFailing(stmts, Completed);
      var q := FirstFailing(stmts, Answered);
      PhasesDiscipline(k + 1, 0);
      PhasesDiscipline(|stmts|, j + 1);
      PhasesDiscipline(|stmts|, |stmts|);
      PhasesDiscipline(q + 1, 0);
      PhasesDiscipline(|stmts|, 0);
    }
  }
}
