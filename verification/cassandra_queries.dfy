/** The wide-column store's query script: six query blocks run one after the
    other inside one `try`, every query through `execute_cql_query`. Q1 times
    two lookups per run and reports their sum; Q6 sums `valor_total` on the
    client and times only the query. Q5 reads the wall clock twice, once for
    the end of its 30-day range and once for the partition key. An exception
    in any block ends the script there. */
module CassandraQueries {
  import opened Base
  import opened Calendar
  import opened QueryWindows
  import opened Benchmark
  import CassandraPopulate

  /** The timed statements, with the values bound to their placeholders. */
  datatype Query =
    | ClienteByEmail(email: string)                     // Q1, first lookup
    | PedidosOfCliente(idCliente: Uuid)                 // Q1, second lookup
    | ProductsOfCategory(categoria: string)             // Q2
    | DeliveredOrders(idCliente: Uuid)                  // Q3
    | FirstProducts                                     // Q4: `LIMIT 5` on produtos_por_categoria
    | PixPaymentsInPartition(anoMes: string, window: Window)  // Q5
    | OrdersBetween(idCliente: Uuid, window: Window)    // Q6

  /** Every statement goes through `execute_cql_query`, which starts the clock
      before it sends the statement. */
  function TimerOf(q: Query): Timer {
    AroundSend
  }

  /** What the untimed `LIMIT 1` lookups return (`rows.one()`, `None` on an
      empty table) and what the `datetime.now()` calls read. */
  datatype Samples = Samples(
    client: Option<(string, Uuid)>,
    category: Option<string>,
    clientQ3: Option<Uuid>,
    q5End: DateTime,   // `end_date_q5 = datetime.now()`
    q5Key: DateTime,   // the second `datetime.now()`, formatted as the partition key
    clientQ6: Option<Uuid>,
    q6End: DateTime)   // `end_date_q6 = datetime.now()`

  /** The two lookups of one Q1 run: the customer by its email, then its orders. */
  function Q1Plan(s: Samples): Option<(Query, Query)> {
    match s.client
    case None => None
    case Some((email, id)) => Some((ClienteByEmail(email), PedidosOfCliente(id)))
  }

  /** The queries Q2 to Q6 time, in order (`None` for a block whose lookup
      found nothing), and the exception that ended the script early. */
  datatype Plan = Plan(queries: seq<Option<Query>>, error: Option<PyError>)

  /** Q2 to Q4, which cannot fail. */
  function FirstBlocks(s: Samples): seq<Option<Query>> {
    [ if s.category.Some? then Some(ProductsOfCategory(s.category.value)) else None,
      if s.clientQ3.Some? then Some(DeliveredOrders(s.clientQ3.value)) else None,
      Some(FirstProducts) ]
  }

  /** Q6: the sampled customer over the 90 days up to the clock reading. */
  function Q6Plan(s: Samples): Result<Option<Query>> {
    match s.clientQ6
    case None => Success(None)
    case Some(c) =>
      match LookBack(s.q6End, 90)
      case Failure(e) => Failure(e)
      case Success(w) => Success(Some(OrdersBetween(c, w)))
  }

  /** Q5 and Q6 after the blocks `first`. Q5 has no lookup: the partition is
      the "%Y-%m" of the second clock reading and the range the 30 days up to
      the first. */
  function LastPlan(s: Samples, first: seq<Option<Query>>): Plan {
    match LookBack(s.q5End, 30)
    case Failure(e) => Plan(first, Some(e))
    case Success(w5) =>
      var q5 := Some(PixPaymentsInPartition(YearMonthKey(s.q5Key), w5));
      match Q6Plan(s)
      case Failure(e) => Plan(first + [q5], Some(e))
      case Success(q6) => Plan(first + [q5] + [q6], None)
  }

  /** What `run_cassandra_queries` times after Q1. */
  function QueryPlan(s: Samples): Plan {
    LastPlan(s, FirstBlocks(s))
  }

  /** Which blocks run and which exception ends the script: Q4 and Q5 always
      run once reached, and the only exception is OverflowError, from a clock
      reading less than 30 (Q5) or 90 (Q6) days after 0001-01-01. */
  lemma QueryPlanBlocks(s: Samples)
    ensures var p := QueryPlan(s);
      && 3 <= |p.queries| <= 5 && p.queries[2] == Some(FirstProducts)
      && (p.queries[0].Some? <==> s.category.Some?)
      && (p.queries[1].Some? <==> s.clientQ3.Some?)
      && (p.error.None? <==> |p.queries| == 5)
      && (|p.queries| >= 4 ==>
            p.queries[3].Some? && p.queries[3].value.PixPaymentsInPartition?
            && p.queries[3].value.anoMes == YearMonthKey(s.q5Key))
      && (|p.queries| == 5 ==> (p.queries[4].Some? <==> s.clientQ6.Some?))
    ensures var p := QueryPlan(s);
      && (p.error.Some? ==> p.error == Some(OverflowError))
      && (p.error.Some? <==>
            Instant(s.q5End) < 30 * MICROS_PER_DAY
            || (s.clientQ6.Some? && Instant(s.q6End) < 90 * MICROS_PER_DAY))
      && (|p.queries| == 4 <==> p.error.Some? && Instant(s.q5End) >= 30 * MICROS_PER_DAY)
  {
  }

  /** Events j .. j+7 of the trace are one Q1 run: `execute_cql_query` of qa
      (na rows) and then of qb (nb rows), and ms is the sum of the two times. */
  predicate PairRun(tr: seq<Event<Query>>, j: int, qa: Query, na: nat, qb: Query, nb: nat, ms: real) {
    && 0 <= j && j + 8 <= |tr|
    && tr[j].ClockRead? && tr[j + 3].ClockRead? && tr[j + 4].ClockRead? && tr[j + 7].ClockRead?
    && Run(tr, j, qa, na, AroundSend, Millis(tr[j], tr[j + 3]))
    && Run(tr, j + 4, qb, nb, AroundSend, Millis(tr[j + 4], tr[j + 7]))
    && ms == Millis(tr[j], tr[j + 3]) + Millis(tr[j + 4], tr[j + 7])
  }

  /** From position j on, the trace holds |times| Q1 runs back to back. */
  predicate PairRunsLogged(tr: seq<Event<Query>>, j: int, qa: Query, na: nat, qb: Query, nb: nat, times: seq<real>) {
    forall i :: 0 <= i < |times| ==> PairRun(tr, j + 8 * i, qa, na, qb, nb, times[i])
  }

  lemma PairRunKept(tr: seq<Event<Query>>, tr': seq<Event<Query>>, j: int, qa: Query, na: nat, qb: Query, nb: nat, ms: real)
    requires PairRun(tr, j, qa, na, qb, nb, ms)
    requires |tr| <= |tr'| && tr'[..|tr|] == tr
    ensures PairRun(tr', j, qa, na, qb, nb, ms)
  {
    assert forall k :: 0 <= k < |tr| ==> tr'[k] == tr[k];
  }

  /** One Q1 run: the two lookups, the sample being the sum of their times. */
  method ClientOrdersRun<R>(client: Client<Query>, qa: Query, qb: Query, store: Query -> seq<R>)
    returns (ms: real, clientInfo: seq<R>, recentOrders: seq<R>)
    modifies client
    ensures clientInfo == store(qa) && recentOrders == store(qb)
    ensures |client.trace| == |old(client.trace)| + 8
    ensures client.trace[..|old(client.trace)|] == old(client.trace)
    ensures PairRun(client.trace, |old(client.trace)|, qa, |store(qa)|, qb, |store(qb)|, ms)
  {
    ghost var t0 := client.trace;
    var msA, msB;
    msA, clientInfo := ExecuteQuery(client, qa, store(qa));
    ghost var t1 := client.trace;
    msB, recentOrders := ExecuteQuery(client, qb, store(qb));
    RunKept(t1, client.trace, |t0|, qa, |store(qa)|, AroundSend, msA);
    assert client.trace[..|t0|] == t1[..|t0|];
    ms := msA + msB;
  }

  /** The Q1 timing loop. */
  method TimeClientOrders<R>(client: Client<Query>, qa: Query, qb: Query, store: Query -> seq<R>)
    returns (times: seq<real>)
    modifies client
    ensures |times| == NUM_RUNS
    ensures |client.trace| == |old(client.trace)| + 8 * NUM_RUNS
    ensures client.trace[..|old(client.trace)|] == old(client.trace)
    ensures PairRunsLogged(client.trace, |old(client.trace)|, qa, |store(qa)|, qb, |store(qb)|, times)
  {
    ghost var t0 := client.trace;
    times := [];
    for k := 0 to NUM_RUNS
      invariant |times| == k
      invariant |client.trace| == |t0| + 8 * k && client.trace[..|t0|] == t0
      invariant PairRunsLogged(client.trace, |t0|, qa, |store(qa)|, qb, |store(qb)|, times)
    {
      ghost var before := client.trace;
      var ms, _, _ := ClientOrdersRun(client, qa, qb, store);
      forall i | 0 <= i < |times|
        ensures PairRun(client.trace, |t0| + 8 * i, qa, |store(qa)|, qb, |store(qb)|, times[i])
      {
        PairRunKept(before, client.trace, |t0| + 8 * i, qa, |store(qa)|, qb, |store(qb)|, times[i]);
      }
      assert client.trace[..|t0|] == before[..|t0|];
      times := times + [ms];
    }
  }

  /** How many events the Q1 block adds to the trace: NUM_RUNS runs of eight
      events when a customer was sampled, none otherwise. */
  function Q1Span(q1: Option<(Query, Query)>): nat {
    if q1.Some? then 8 * NUM_RUNS else 0
  }

  /** The Q1 block is done from position j: nothing timed without a sample,
      otherwise NUM_RUNS runs of the two lookups logged back to back from j
      and their average reported. */
  ghost predicate Q1Done<R>(tr: seq<Event<Query>>, j: int, q1: Option<(Query, Query)>, store: Query -> seq<R>,
                            b: Block, times: seq<real>) {
    match q1
    case None => b.NoneFound? && times == []
    case Some((qa, qb)) =>
      && b == Timed(Average(times))
      && |times| == NUM_RUNS
      && PairRunsLogged(tr, j, qa, |store(qa)|, qb, |store(qb)|, times)
  }

  lemma Q1DoneKept<R>(tr: seq<Event<Query>>, tr': seq<Event<Query>>, j: int, q1: Option<(Query, Query)>,
                      store: Query -> seq<R>, b: Block, times: seq<real>)
    requires Q1Done(tr, j, q1, store, b, times)
    requires |tr| <= |tr'| && tr'[..|tr|] == tr
    ensures Q1Done(tr', j, q1, store, b, times)
  {
    if q1.Some? {
      var (qa, qb) := q1.value;
      forall i | 0 <= i < |times|
        ensures PairRun(tr', j + 8 * i, qa, |store(qa)|, qb, |store(qb)|, times[i])
      {
        PairRunKept(tr, tr', j + 8 * i, qa, |store(qa)|, qb, |store(qb)|, times[i]);
      }
    }
  }

  /** The Q1 block: `if sample_client:` the timing loop and its average. */
  method ClientOrdersBlock<R>(client: Client<Query>, q1: Option<(Query, Query)>, store: Query -> seq<R>)
    returns (b: Block, times: seq<real>)
    modifies client
    ensures |client.trace| == |old(client.trace)| + Q1Span(q1)
    ensures client.trace[..|old(client.trace)|] == old(client.trace)
    ensures Q1Done(client.trace, |old(client.trace)|, q1, store, b, times)
  {
    if q1.None? {
      return NoneFound, [];
    }
    var (qa, qb) := q1.value;
    times := TimeClientOrders(client, qa, qb, store);
    b := Timed(Average(times));
  }

  /** `sum(row.valor_total for row in results) if results else 0`: the guard
      changes nothing, the total is the plain sum of the rows' `valor_total`. */
  function TotalGasto<R>(rows: seq<R>, valorTotal: R -> Cents): (t: Cents)
    ensures t == SumOf(rows, valorTotal)
  {
    if |rows| > 0 then SumOf(rows, valorTotal) else 0
  }

  /** With every row's `valor_total` in [lo, hi], the total of n rows lies in
      [n * lo, n * hi]; in particular it is 0 for no rows. */
  lemma TotalGastoBounds<R>(rows: seq<R>, valorTotal: R -> Cents, lo: int, hi: int)
    requires forall r :: r in rows ==> lo <= valorTotal(r) <= hi
    ensures |rows| * lo <= TotalGasto(rows, valorTotal) <= |rows| * hi
  {
    SumOfBounds(rows, valorTotal, lo, hi);
  }

  /** The Q6 timing loop: each run fetches the rows and sums them, and only
      the fetch is timed. */
  method TimeSpending<R>(client: Client<Query>, q: Query, store: Query -> seq<R>, valorTotal: R -> Cents)
    returns (times: seq<real>, total: Cents)
    modifies client
    ensures |times| == NUM_RUNS && total == TotalGasto(store(q), valorTotal)
    ensures |client.trace| == |old(client.trace)| + 4 * NUM_RUNS
    ensures client.trace[..|old(client.trace)|] == old(client.trace)
    ensures RunsLogged(client.trace, |old(client.trace)|, q, |store(q)|, AroundSend, times)
  {
    ghost var t0 := client.trace;
    times := [];
    total := 0;
    for k := 0 to NUM_RUNS
      invariant |times| == k && (k > 0 ==> total == TotalGasto(store(q), valorTotal))
      invariant |client.trace| == |t0| + 4 * k && client.trace[..|t0|] == t0
      invariant RunsLogged(client.trace, |t0|, q, |store(q)|, AroundSend, times)
    {
      ghost var before := client.trace;
      var ms, results := ExecuteQuery(client, q, store(q));
      total := TotalGasto(results, valorTotal);
      RunsLoggedStep(before, client.trace, |t0|, q, |store(q)|, AroundSend, times, ms);
      assert client.trace[..|t0|] == before[..|t0|];
      times := times + [ms];
    }
  }

  /** `run_cassandra_queries` after the session is open: Q1, then Q2 to Q6,
      each lookup and clock reading answered by `s` and each statement by
      `store`; `total` is the last Q6 total, when Q6 ran. The trace grows by
      exactly the Q1 runs followed by the planned blocks' runs. */
  method RunCassandraQueries<R>(client: Client<Query>, s: Samples, store: Query -> seq<R>, valorTotal: R -> Cents)
    returns (q1Block: Block, q1Times: seq<real>, blocks: seq<Block>, times: seq<seq<real>>,
             total: Option<Cents>, error: Option<PyError>)
    modifies client
    ensures error == QueryPlan(s).error
    ensures |client.trace| == |old(client.trace)| + Q1Span(Q1Plan(s)) + Span(QueryPlan(s).queries)
    ensures client.trace[..|old(client.trace)|] == old(client.trace)
    ensures Q1Done(client.trace, |old(client.trace)|, Q1Plan(s), store, q1Block, q1Times)
    ensures AllDone(client.trace, |old(client.trace)| + Q1Span(Q1Plan(s)), QueryPlan(s).queries,
                    store, TimerOf, blocks, times)
    ensures total.Some? <==> error.None? && s.clientQ6.Some?
    ensures total.Some? ==>
      Q6Plan(s).Success? && Q6Plan(s).value.Some?
      && total.value == TotalGasto(store(Q6Plan(s).value.value), valorTotal)
  {
    ghost var t0 := client.trace;
    q1Block, q1Times := ClientOrdersBlock(client, Q1Plan(s), store);
    ghost var t1 := client.trace;
    blocks, times, total, error := RunTimedBlocks(client, s, store, valorTotal);
    PrefixTrans(t0, t1, client.trace);
    Q1DoneKept(t1, client.trace, |t0|, Q1Plan(s), store, q1Block, q1Times);
  }

  /** Q2 to Q6, from the end of the trace. */
  method RunTimedBlocks<R>(client: Client<Query>, s: Samples, store: Query -> seq<R>, valorTotal: R -> Cents)
    returns (blocks: seq<Block>, times: seq<seq<real>>, total: Option<Cents>, error: Option<PyError>)
    modifies client
    ensures error == QueryPlan(s).error
    ensures |client.trace| == |old(client.trace)| + Span(QueryPlan(s).queries)
    ensures client.trace[..|old(client.trace)|] == old(client.trace)
    ensures AllDone(client.trace, |old(client.trace)|, QueryPlan(s).queries, store, TimerOf, blocks, times)
    ensures total.Some? <==> error.None? && s.clientQ6.Some?
    ensures total.Some? ==>
      Q6Plan(s).Success? && Q6Plan(s).value.Some?
      && total.value == TotalGasto(store(Q6Plan(s).value.value), valorTotal)
  {
    ghost var t1 := client.trace;
    ghost var start := |t1|;
    blocks, times := RunFirstBlocks(client, s, store);
    ghost var t3 := client.trace;
    ghost var qs := FirstBlocks(s)[..2];
    blocks, times := NextBlock(client, Some(FirstProducts), store, TimerOf, start, qs, blocks, times);
    assert qs + [Some(FirstProducts)] == FirstBlocks(s);
    ghost var t4 := client.trace;
    PrefixTrans(t1, t3, t4);
    blocks, times, total, error := RunLastBlocks(client, s, store, valorTotal, start, FirstBlocks(s), blocks, times);
    PrefixTrans(t1, t4, client.trace);
  }

  /** Q2 and Q3, from the end of the trace. */
  method RunFirstBlocks<R>(client: Client<Query>, s: Samples, store: Query -> seq<R>)
    returns (blocks: seq<Block>, times: seq<seq<real>>)
    modifies client
    ensures |client.trace| == |old(client.trace)| + Span(FirstBlocks(s)[..2])
    ensures client.trace[..|old(client.trace)|] == old(client.trace)
    ensures AllDone(client.trace, |old(client.trace)|, FirstBlocks(s)[..2], store, TimerOf, blocks, times)
  {
    ghost var t0 := client.trace;
    var q2 := if s.category.Some? then Some(ProductsOfCategory(s.category.value)) else None;
    blocks, times := NextBlock(client, q2, store, TimerOf, |t0|, [], [], []);
    ghost var t1 := client.trace;
    var q3 := if s.clientQ3.Some? then Some(DeliveredOrders(s.clientQ3.value)) else None;
    blocks, times := NextBlock(client, q3, store, TimerOf, |t0|, [q2], blocks, times);
    PrefixTrans(t0, t1, client.trace);
    assert [q2] + [q3] == FirstBlocks(s)[..2];
  }

  /** The Q5 and Q6 blocks, run right after the blocks `qs`, done from
      `start`. */
  method RunLastBlocks<R>(client: Client<Query>, s: Samples, store: Query -> seq<R>, valorTotal: R -> Cents,
                          ghost start: int, ghost qs: seq<Option<Query>>, blocks: seq<Block>, times: seq<seq<real>>)
    returns (blocks': seq<Block>, times': seq<seq<real>>, total: Option<Cents>, error: Option<PyError>)
    modifies client
    requires AllDone(client.trace, start, qs, store, TimerOf, blocks, times)
    requires |client.trace| == start + Span(qs)
    ensures error == LastPlan(s, qs).error
    ensures |old(client.trace)| <= |client.trace| == start + Span(LastPlan(s, qs).queries)
    ensures client.trace[..|old(client.trace)|] == old(client.trace)
    ensures AllDone(client.trace, start, LastPlan(s, qs).queries, store, TimerOf, blocks', times')
    ensures total.Some? <==> error.None? && s.clientQ6.Some?
    ensures total.Some? ==>
      Q6Plan(s).Success? && Q6Plan(s).value.Some?
      && total.value == TotalGasto(store(Q6Plan(s).value.value), valorTotal)
  {
    ghost var t0 := client.trace;
    var w5 := LookBack(s.q5End, 30);
    if w5.Failure? {
      return blocks, times, None, Some(w5.error);
    }
    var q5 := Some(PixPaymentsInPartition(YearMonthKey(s.q5Key), w5.value));
    blocks', times' := NextBlock(client, q5, store, TimerOf, start, qs, blocks, times);
    ghost var t5 := client.trace;
    blocks', times', total, error := RunQ6Block(client, s, store, valorTotal, start, qs + [q5], blocks', times');
    PrefixTrans(t0, t5, client.trace);
  }

  /** Q6 after the blocks `qs`, done from `start`: the 90-day window, whose
      OverflowError ends the script before the block, then the block. */
  method RunQ6Block<R>(client: Client<Query>, s: Samples, store: Query -> seq<R>, valorTotal: R -> Cents,
                       ghost start: int, ghost qs: seq<Option<Query>>, blocks: seq<Block>, times: seq<seq<real>>)
    returns (blocks': seq<Block>, times': seq<seq<real>>, total: Option<Cents>, error: Option<PyError>)
    modifies client
    requires AllDone(client.trace, start, qs, store, TimerOf, blocks, times)
    requires |client.trace| == start + Span(qs)
    ensures error.Some? <==> Q6Plan(s).Failure?
    ensures error.Some? ==>
      error.value == Q6Plan(s).error && client.trace == old(client.trace) && blocks' == blocks && times' == times
    ensures error.None? ==>
      && |client.trace| == start + Span(qs + [Q6Plan(s).value])
      && AllDone(client.trace, start, qs + [Q6Plan(s).value], store, TimerOf, blocks', times')
    ensures client.trace[..|old(client.trace)|] == old(client.trace)
    ensures total.Some? <==> error.None? && s.clientQ6.Some?
    ensures total.Some? ==>
      Q6Plan(s).Success? && Q6Plan(s).value.Some?
      && total.value == TotalGasto(store(Q6Plan(s).value.value), valorTotal)
  {
    var p6 := Q6Plan(s);
    if p6.Failure? {
      assert client.trace[..|client.trace|] == client.trace;
      return blocks, times, None, Some(p6.error);
    }
    blocks', times', total := NextSpendingBlock(client, p6.value, store, valorTotal, start, qs, blocks, times);
    error := None;
  }

  /** The Q6 block, run right after the blocks `qs`, done from `start`:
      `if sample_client_q6:` the timing loop, whose last total is returned. */
  method NextSpendingBlock<R>(client: Client<Query>, q: Option<Query>, store: Query -> seq<R>, valorTotal: R -> Cents,
                              ghost start: int, ghost qs: seq<Option<Query>>, blocks: seq<Block>, times: seq<seq<real>>)
    returns (blocks': seq<Block>, times': seq<seq<real>>, total: Option<Cents>)
    modifies client
    requires AllDone(client.trace, start, qs, store, TimerOf, blocks, times)
    requires |client.trace| == start + Span(qs)
    ensures |client.trace| == |old(client.trace)| + BlockSpan(q) == start + Span(qs + [q])
    ensures client.trace[..|old(client.trace)|] == old(client.trace)
    ensures AllDone(client.trace, start, qs + [q], store, TimerOf, blocks', times')
    ensures total.Some? <==> q.Some?
    ensures total.Some? ==> total.value == TotalGasto(store(q.value), valorTotal)
  {
    ghost var before := client.trace;
    if q.None? {
      AllDoneAppend(before, client.trace, start, qs, q, store, TimerOf, blocks, times, NoneFound, []);
      return blocks + [NoneFound], times + [[]], None;
    }
    var t, sum := TimeSpending(client, q.value, store, valorTotal);
    AllDoneAppend(before, client.trace, start, qs, q, store, TimerOf, blocks, times, Timed(Average(t)), t);
    blocks', times', total := blocks + [Timed(Average(t))], times + [t], Some(sum);
  }

  /** Q5's WHERE clause on `pagamentos_por_tipo_mes`: the partition (`tipo`,
      `ano_mes`) and `data_pagamento BETWEEN start AND end`. */
  predicate Q5Selects(k: CassandraPopulate.PagamentoKey, anoMes: string, w: Window) {
    k.tipo == "pix" && k.anoMes == anoMes && w.Contains(Instant(k.dataPagamento))
  }

  /** On a mirrored keyspace, Q5 returns the PIX payments that are both in
      the calendar month of the second clock reading and in the 30 days up
      to the first. */
  lemma Q5SelectsIff(ks: CassandraPopulate.Keyspace, s: Samples, k: CassandraPopulate.PagamentoKey)
    requires CassandraPopulate.Mirrored(ks) && k in ks.pagamentosPorTipoMes
    requires |QueryPlan(s).queries| >= 4
    ensures QueryPlan(s).queries[3].Some? && QueryPlan(s).queries[3].value.PixPaymentsInPartition?
    ensures var q := QueryPlan(s).queries[3].value;
      Q5Selects(k, q.anoMes, q.window) <==>
        && k.tipo == "pix"
        && k.dataPagamento.year == s.q5Key.year && k.dataPagamento.month == s.q5Key.month
        && Instant(s.q5End) - 30 * MICROS_PER_DAY <= Instant(k.dataPagamento) <= Instant(s.q5End)
  {
    QueryPlanBlocks(s);
    CassandraPopulate.PaymentPartitionIsItsMonth(ks, k, s.q5Key);
  }

  /** The 30-day range reaches back into the previous calendar month exactly
      when the first clock reading falls on day 1 to 30 of its month. */
  lemma Q5RangeReachesPreviousMonth(s: Samples)
    requires |QueryPlan(s).queries| >= 4
    ensures QueryPlan(s).queries[3].Some?
    ensures var w := QueryPlan(s).queries[3].value.window;
      && w.end == Instant(s.q5End)
      && (w.start < MonthStart(s.q5End.year, s.q5End.month) <==> s.q5End.day <= 30)
  {
    QueryPlanBlocks(s);
    var w := QueryPlan(s).queries[3].value.window;
    assert w.start == Instant(s.q5End) - 30 * MICROS_PER_DAY;
  }

  /** With both clock readings in the same month, no payment dated before that
      month is returned, although the range may reach it: the previous-month
      part of the "last 30 days" is lost. */
  lemma Q5MissesPreviousMonth(ks: CassandraPopulate.Keyspace, s: Samples, k: CassandraPopulate.PagamentoKey)
    requires CassandraPopulate.Mirrored(ks) && k in ks.pagamentosPorTipoMes
    requires |QueryPlan(s).queries| >= 4
    requires s.q5Key.year == s.q5End.year && s.q5Key.month == s.q5End.month
    requires Instant(k.dataPagamento) < MonthStart(s.q5End.year, s.q5End.month)
    ensures QueryPlan(s).queries[3].Some? && QueryPlan(s).queries[3].value.PixPaymentsInPartition?
    ensures !Q5Selects(k, QueryPlan(s).queries[3].value.anoMes, QueryPlan(s).queries[3].value.window)
  {
    Q5SelectsIff(ks, s, k);
    InstantWithinItsMonth(k.dataPagamento);
  }

  /** When the clock passes into a later month between the two readings, the
      partition key names a month that starts after the range ends, and Q5
      returns nothing. */
  lemma Q5EmptyAfterMonthChange(ks: CassandraPopulate.Keyspace, s: Samples, k: CassandraPopulate.PagamentoKey)
    requires CassandraPopulate.Mirrored(ks) && k in ks.pagamentosPorTipoMes
    requires |QueryPlan(s).queries| >= 4
    requires 12 * s.q5End.year + s.q5End.month < 12 * s.q5Key.year + s.q5Key.month
    ensures QueryPlan(s).queries[3].Some? && QueryPlan(s).queries[3].value.PixPaymentsInPartition?
    ensures !Q5Selects(k, QueryPlan(s).queries[3].value.anoMes, QueryPlan(s).queries[3].value.window)
  {
    Q5SelectsIff(ks, s, k);
    if k.dataPagamento.year == s.q5Key.year && k.dataPagamento.month == s.q5Key.month {
      InstantWithinItsMonth(k.dataPagamento);
      InstantWithinItsMonth(s.q5End);
      MonthStartMonotone(s.q5End.year, s.q5End.month, s.q5Key.year, s.q5Key.month);
    }
  }

  /** Q6's WHERE clause on `pedidos_por_cliente_status`. */
  predicate Q6Selects(k: CassandraPopulate.PedidoKey, c: Uuid, w: Window) {
    k.idCliente == c && w.Contains(Instant(k.dataPedido))
  }

  /** Q6 returns the sampled customer's orders of the 90 days up to the clock
      reading, and on a mirrored keyspace each returned `valor_total` is the
      total of an order of that customer in that range. */
  lemma Q6SelectsOrdersOfNinetyDays(ks: CassandraPopulate.Keyspace, s: Samples, k: CassandraPopulate.PedidoKey)
    requires CassandraPopulate.Mirrored(ks) && k in ks.pedidosPorClienteStatus
    requires |QueryPlan(s).queries| == 5 && QueryPlan(s).queries[4].Some?
    ensures QueryPlan(s).queries[4].value == OrdersBetween(s.clientQ6.value, QueryPlan(s).queries[4].value.window)
    ensures var w := QueryPlan(s).queries[4].value.window;
      Q6Selects(k, s.clientQ6.value, w) <==>
        && k.idCliente == s.clientQ6.value
        && Instant(s.q6End) - 90 * MICROS_PER_DAY <= Instant(k.dataPedido) <= Instant(s.q6End)
    ensures var w := QueryPlan(s).queries[4].value.window;
      Q6Selects(k, s.clientQ6.value, w) ==>
        && k.idPedido in ks.pedidosBase
        && ks.pedidosBase[k.idPedido].idCliente == s.clientQ6.value
        && w.Contains(Instant(ks.pedidosBase[k.idPedido].dataPedido))
        && ks.pedidosPorClienteStatus[k] == ks.pedidosBase[k.idPedido].valorTotal
  {
    QueryPlanBlocks(s);
    var o := ks.pedidosBase[k.idPedido];
    assert CassandraPopulate.PedidoKeyOf(k.idPedido, o) == k;
  }

  /** The lookups answer from the keyspace. `LIMIT 1` without a restriction
      returns the first row in token order, so the three lookups on
      `clientes_por_email` (Q1, Q3, Q6) return the same row of the unchanged
      table. */
  ghost predicate SampledFrom(ks: CassandraPopulate.Keyspace, s: Samples) {
    && (s.client.Some? <==> |ks.clientesPorEmail| > 0)
    && (s.client.Some? ==>
          s.client.value.0 in ks.clientesPorEmail
          && ks.clientesPorEmail[s.client.value.0].idCliente == s.client.value.1)
    && (s.category.Some? <==> |ks.produtosPorCategoria| > 0)
    && (s.category.Some? ==> exists k :: k in ks.produtosPorCategoria && k.categoria == s.category.value)
    && s.clientQ3 == (if s.client.Some? then Some(s.client.value.1) else None)
    && s.clientQ6 == s.clientQ3
  }

  /** On samples from the keyspace, each block with a lookup is timed exactly
      when its table has rows, and Q1's orders lookup, Q3 and Q6 are all about
      one customer, a customer of `clientes_por_email`. */
  lemma BlocksTimedIffRows(ks: CassandraPopulate.Keyspace, s: Samples)
    requires SampledFrom(ks, s)
    ensures Q1Plan(s).Some? <==> |ks.clientesPorEmail| > 0
    ensures QueryPlan(s).queries[0].Some? <==> |ks.produtosPorCategoria| > 0
    ensures QueryPlan(s).queries[1].Some? <==> |ks.clientesPorEmail| > 0
    ensures |QueryPlan(s).queries| == 5 ==> (QueryPlan(s).queries[4].Some? <==> |ks.clientesPorEmail| > 0)
    ensures Q1Plan(s).Some? ==>
      && Q1Plan(s).value.1 == PedidosOfCliente(s.client.value.1)
      && QueryPlan(s).queries[1] == Some(DeliveredOrders(s.client.value.1))
      && (|QueryPlan(s).queries| == 5 ==>
            QueryPlan(s).queries[4].value.idCliente == s.client.value.1)
      && exists e :: e in ks.clientesPorEmail && ks.clientesPorEmail[e].idCliente == s.client.value.1
  {
    QueryPlanBlocks(s);
  }
}
