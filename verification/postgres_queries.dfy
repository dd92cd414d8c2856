/** The relational store's query script: six query blocks run one after the
    other inside one `try`. Each block takes its parameters from an untimed
    sample lookup, and times its query NUM_RUNS times with `execute_query`.
    An exception in any block ends the script there. */
module PostgresQueries {
  import opened Base
  import opened Calendar
  import opened QueryWindows
  import opened Benchmark
  import PostgresPopulate

  /** The six timed queries, with the values bound to their placeholders. */
  datatype Query =
    | ClientLastOrders(email: string)                  // Q1
    | ProductsByPrice(categoria: string)               // Q2
    | DeliveredOrders(idCliente: Uuid)                 // Q3
    | TopSellers                                       // Q4
    | PixPaymentsBetween(window: Window)               // Q5
    | SpendingBetween(idCliente: Uuid, window: Window) // Q6

  /** Every query goes through `execute_query`, which starts the clock before
      it sends the query. */
  function TimerOf(q: Query): Timer {
    AroundSend
  }

  /** What the untimed sample lookups return; `None` is a `fetchone()` that
      found no row. The order-date lookup of Q6 is made for the customer that
      the lookup before it returned, so it is a function of that customer. */
  datatype Samples = Samples(
    client: Option<(string, Uuid)>,
    category: Option<string>,
    clientQ3: Option<Uuid>,
    pixPaymentDate: Option<DateTime>,
    clientQ6: Option<Uuid>,
    orderDateOf: Uuid -> Option<DateTime>)

  /** The queries the blocks time, in order (`None` for a block whose sample
      lookup found nothing), and the exception that ended the script early. */
  datatype Plan = Plan(queries: seq<Option<Query>>, error: Option<PyError>)

  /** Q5: the calendar month of the sampled PIX payment date. */
  function Q5Plan(ref: Option<DateTime>): Result<Option<Query>> {
    match ref
    case None => Success(None)
    case Some(d) =>
      match MonthWindow(d)
      case Failure(e) => Failure(e)
      case Success(w) => Success(Some(PixPaymentsBetween(w)))
  }

  /** Q6: the sampled customer, over the 90 days up to one of its order dates. */
  function Q6Plan(s: Samples): Result<Option<Query>> {
    match s.clientQ6
    case None => Success(None)
    case Some(c) =>
      match s.orderDateOf(c)
      case None => Success(None)
      case Some(d) =>
        match LookBack(d, 90)
        case Failure(e) => Failure(e)
        case Success(w) => Success(Some(SpendingBetween(c, w)))
  }

  /** The queries of the four blocks before Q5, which cannot fail. */
  function FirstBlocks(s: Samples): seq<Option<Query>> {
    [ if s.client.Some? then Some(ClientLastOrders(s.client.value.0)) else None,
      if s.category.Some? then Some(ProductsByPrice(s.category.value)) else None,
      if s.clientQ3.Some? then Some(DeliveredOrders(s.clientQ3.value)) else None,
      Some(TopSellers) ]
  }

  /** Q5 and Q6 after the blocks `first`. */
  function LastPlan(s: Samples, first: seq<Option<Query>>): Plan {
    match Q5Plan(s.pixPaymentDate)
    case Failure(e) => Plan(first, Some(e))
    case Success(q5) =>
      match Q6Plan(s)
      case Failure(e) => Plan(first + [q5], Some(e))
      case Success(q6) => Plan(first + [q5] + [q6], None)
  }

  /** What `run_postgres_queries` times, given what its sample lookups return. */
  function QueryPlan(s: Samples): Plan {
    LastPlan(s, FirstBlocks(s))
  }

  /** Which blocks run and which exception ends the script. Q4 has no lookup
      and always runs. Q5 raises ValueError for a payment in December 9999,
      when the month after it cannot be built. Q6 raises OverflowError when
      the order date is less than 90 days after 0001-01-01. Either exception
      ends the script, so the blocks after it do not run. */
  lemma QueryPlanBlocks(s: Samples)
    ensures var p := QueryPlan(s);
      && 4 <= |p.queries| <= 6 && p.queries[3] == Some(TopSellers)
      && (p.queries[0].Some? <==> s.client.Some?)
      && (p.queries[1].Some? <==> s.category.Some?)
      && (p.queries[2].Some? <==> s.clientQ3.Some?)
      && (p.error.None? <==> |p.queries| == 6)
      && (|p.queries| >= 5 ==> (p.queries[4].Some? <==> s.pixPaymentDate.Some?))
      && (|p.queries| == 6 ==>
            (p.queries[5].Some? <==> s.clientQ6.Some? && s.orderDateOf(s.clientQ6.value).Some?))
    ensures var p := QueryPlan(s);
      && (p.error.Some? ==> p.error == Some(ValueError) || p.error == Some(OverflowError))
      && (p.error == Some(ValueError) <==>
            s.pixPaymentDate.Some? && s.pixPaymentDate.value.year == MAX_YEAR && s.pixPaymentDate.value.month == 12)
      && (p.error == Some(OverflowError) <==>
            && p.error != Some(ValueError)
            && s.clientQ6.Some? && s.orderDateOf(s.clientQ6.value).Some?
            && Instant(s.orderDateOf(s.clientQ6.value).value) < 90 * MICROS_PER_DAY)
  {
  }

  /** `run_postgres_queries` after the connection is open: the six blocks in
      order, each sample lookup answered by `s` and each query by `store`.
      The trace grows by exactly the planned blocks' runs, one block after
      the other. */
  method RunPostgresQueries<R>(client: Client<Query>, s: Samples, store: Query -> seq<R>)
    returns (blocks: seq<Block>, times: seq<seq<real>>, error: Option<PyError>)
    modifies client
    ensures error == QueryPlan(s).error
    ensures |client.trace| == |old(client.trace)| + Span(QueryPlan(s).queries)
    ensures client.trace[..|old(client.trace)|] == old(client.trace)
    ensures AllDone(client.trace, |old(client.trace)|, QueryPlan(s).queries, store, TimerOf, blocks, times)
  {
    ghost var t0 := client.trace;
    blocks, times := RunFirstBlocks(client, s, store);
    ghost var t2 := client.trace;
    blocks, times := RunMiddleBlocks(client, s, store, |t0|, blocks, times);
    ghost var t4 := client.trace;
    PrefixTrans(t0, t2, t4);
    assert FirstBlocks(s) == FirstBlocks(s)[..2] + FirstBlocks(s)[2..];
    blocks, times, error := RunLastBlocks(client, s, store, |t0|, FirstBlocks(s), blocks, times);
    PrefixTrans(t0, t4, client.trace);
  }

  /** Q1 and Q2, from the end of the trace. */
  method RunFirstBlocks<R>(client: Client<Query>, s: Samples, store: Query -> seq<R>)
    returns (blocks: seq<Block>, times: seq<seq<real>>)
    modifies client
    ensures |client.trace| == |old(client.trace)| + Span(FirstBlocks(s)[..2])
    ensures client.trace[..|old(client.trace)|] == old(client.trace)
    ensures AllDone(client.trace, |old(client.trace)|, FirstBlocks(s)[..2], store, TimerOf, blocks, times)
  {
    ghost var t0 := client.trace;
    var q1 := if s.client.Some? then Some(ClientLastOrders(s.client.value.0)) else None;
    blocks, times := NextBlock(client, q1, store, TimerOf, |t0|, [], [], []);
    ghost var t1 := client.trace;
    var q2 := if s.category.Some? then Some(ProductsByPrice(s.category.value)) else None;
    blocks, times := NextBlock(client, q2, store, TimerOf, |t0|, [q1], blocks, times);
    PrefixTrans(t0, t1, client.trace);
    assert [q1] + [q2] == FirstBlocks(s)[..2];
  }

  /** Q3 and Q4, right after Q1 and Q2, done from `start`. */
  method RunMiddleBlocks<R>(client: Client<Query>, s: Samples, store: Query -> seq<R>, ghost start: int,
                            blocks: seq<Block>, times: seq<seq<real>>)
    returns (blocks': seq<Block>, times': seq<seq<real>>)
    modifies client
    requires AllDone(client.trace, start, FirstBlocks(s)[..2], store, TimerOf, blocks, times)
    requires |client.trace| == start + Span(FirstBlocks(s)[..2])
    ensures |old(client.trace)| <= |client.trace| == start + Span(FirstBlocks(s))
    ensures client.trace[..|old(client.trace)|] == old(client.trace)
    ensures AllDone(client.trace, start, FirstBlocks(s), store, TimerOf, blocks', times')
  {
    ghost var t0 := client.trace;
    ghost var qs := FirstBlocks(s)[..2];
    var q3 := if s.clientQ3.Some? then Some(DeliveredOrders(s.clientQ3.value)) else None;
    blocks', times' := NextBlock(client, q3, store, TimerOf, start, qs, blocks, times);
    ghost var t1 := client.trace;
    blocks', times' := NextBlock(client, Some(TopSellers), store, TimerOf, start, qs + [q3], blocks', times');
    PrefixTrans(t0, t1, client.trace);
    assert qs + [q3] + [Some(TopSellers)] == FirstBlocks(s);
  }

  /** The Q5 and Q6 blocks, run right after the blocks `qs`, done from
      `start`. */
  method RunLastBlocks<R>(client: Client<Query>, s: Samples, store: Query -> seq<R>, ghost start: int,
                          ghost qs: seq<Option<Query>>, blocks: seq<Block>, times: seq<seq<real>>)
    returns (blocks': seq<Block>, times': seq<seq<real>>, error: Option<PyError>)
    modifies client
    requires AllDone(client.trace, start, qs, store, TimerOf, blocks, times)
    requires |client.trace| == start + Span(qs)
    ensures error == LastPlan(s, qs).error
    ensures |old(client.trace)| <= |client.trace| == start + Span(LastPlan(s, qs).queries)
    ensures client.trace[..|old(client.trace)|] == old(client.trace)
    ensures AllDone(client.trace, start, LastPlan(s, qs).queries, store, TimerOf, blocks', times')
  {
    ghost var t0 := client.trace;
    var p5 := Q5Plan(s.pixPaymentDate);
    if p5.Failure? {
      return blocks, times, Some(p5.error);
    }
    blocks', times' := NextBlock(client, p5.value, store, TimerOf, start, qs, blocks, times);
    ghost var t5 := client.trace;
    var p6 := Q6Plan(s);
    if p6.Failure? {
      return blocks', times', Some(p6.error);
    }
    blocks', times' := NextBlock(client, p6.value, store, TimerOf, start, qs + [p5.value], blocks', times');
    PrefixTrans(t0, t5, client.trace);
    error := None;
  }

  /** Q5's WHERE clause: `tipo = 'pix' AND data_pagamento BETWEEN start AND end`. */
  predicate Q5Selects(p: PostgresPopulate.PagamentoRow, w: Window) {
    p.tipo == "pix" && w.Contains(Instant(p.dataPagamento))
  }

  /** Q6's WHERE clause: `id_cliente = c AND data_pedido BETWEEN start AND end`. */
  predicate Q6Selects(o: PostgresPopulate.PedidoRow, c: Uuid, w: Window) {
    o.idCliente == c && w.Contains(Instant(o.dataPedido))
  }

  /** Q5 selects exactly the PIX payments of the reference payment's calendar
      month: the window holds the reference date, and a payment is in it if
      and only if it falls in the same year and month. */
  lemma Q5SelectsReferenceMonth(s: Samples, p: PostgresPopulate.PagamentoRow)
    requires |QueryPlan(s).queries| >= 5 && QueryPlan(s).queries[4].Some?
    ensures QueryPlan(s).queries[4].value.PixPaymentsBetween?
    ensures QueryPlan(s).queries[4].value.window.Contains(Instant(s.pixPaymentDate.value))
    ensures Q5Selects(p, QueryPlan(s).queries[4].value.window) <==>
      && p.tipo == "pix"
      && p.dataPagamento.year == s.pixPaymentDate.value.year
      && p.dataPagamento.month == s.pixPaymentDate.value.month
  {
    QueryPlanBlocks(s);
    MonthWindowIsCalendarMonth(s.pixPaymentDate.value, p.dataPagamento);
  }

  /** Q6 selects, for the sampled customer, the orders dated from 90 days
      before the sampled order date up to that date, both ends included. */
  lemma Q6SelectsNinetyDays(s: Samples, o: PostgresPopulate.PedidoRow)
    requires |QueryPlan(s).queries| == 6 && QueryPlan(s).queries[5].Some?
    ensures QueryPlan(s).queries[5].value == SpendingBetween(s.clientQ6.value, QueryPlan(s).queries[5].value.window)
    ensures Q6Selects(o, s.clientQ6.value, QueryPlan(s).queries[5].value.window) <==>
      && o.idCliente == s.clientQ6.value
      && Instant(s.orderDateOf(s.clientQ6.value).value) - 90 * MICROS_PER_DAY <= Instant(o.dataPedido)
      && Instant(o.dataPedido) <= Instant(s.orderDateOf(s.clientQ6.value).value)
  {
  }

  /** The sample lookups answer from the tables `t`: `OFFSET floor(random() *
      count) LIMIT 1` returns one of the rows it counts, and a row whenever
      there is one to count. */
  ghost predicate SampledFrom(t: PostgresPopulate.Tables, s: Samples) {
    && (s.client.Some? <==> |t.cliente| > 0)
    && (s.client.Some? ==> exists c :: c in t.cliente && (c.email, c.id) == s.client.value)
    && (s.category.Some? <==> |t.produto| > 0)
    && (s.category.Some? ==> exists p :: p in t.produto && p.categoria == s.category.value)
    && (s.clientQ3.Some? <==> |t.cliente| > 0)
    && (s.clientQ3.Some? ==> exists c :: c in t.cliente && c.id == s.clientQ3.value)
    && (s.pixPaymentDate.Some? <==> exists p :: p in t.pagamento && p.tipo == "pix")
    && (s.pixPaymentDate.Some? ==>
          exists p :: p in t.pagamento && p.tipo == "pix" && p.dataPagamento == s.pixPaymentDate.value)
    && (s.clientQ6.Some? <==> |t.cliente| > 0)
    && (s.clientQ6.Some? ==> exists c :: c in t.cliente && c.id == s.clientQ6.value)
    && (forall c :: s.orderDateOf(c).Some? <==> exists o :: o in t.pedido && o.idCliente == c)
    && (forall c :: s.orderDateOf(c).Some? ==>
          exists o :: o in t.pedido && o.idCliente == c && o.dataPedido == s.orderDateOf(c).value)
  }

  /** On samples taken from the tables, Q5's window holds at least the
      sampled payment, so the timed query has a row to return. */
  lemma Q5SampleSelected(t: PostgresPopulate.Tables, s: Samples)
    requires SampledFrom(t, s)
    requires |QueryPlan(s).queries| >= 5 && QueryPlan(s).queries[4].Some?
    ensures exists p :: p in t.pagamento && Q5Selects(p, QueryPlan(s).queries[4].value.window)
  {
    var p :| p in t.pagamento && p.tipo == "pix" && p.dataPagamento == s.pixPaymentDate.value;
    Q5SelectsReferenceMonth(s, p);
  }

  /** On samples taken from the tables, the order whose date ends Q6's window
      is an order of the sampled customer inside that window. */
  lemma Q6SampleSelected(t: PostgresPopulate.Tables, s: Samples)
    requires SampledFrom(t, s)
    requires |QueryPlan(s).queries| == 6 && QueryPlan(s).queries[5].Some?
    ensures exists o :: o in t.pedido && Q6Selects(o, s.clientQ6.value, QueryPlan(s).queries[5].value.window)
  {
    var c := s.clientQ6.value;
    var o :| o in t.pedido && o.idCliente == c && o.dataPedido == s.orderDateOf(c).value;
    Q6SelectsNinetyDays(s, o);
  }

  /** Q6 is timed only for a sampled customer that has an order: the script
      picks the customer first and then looks for one of its orders, so a
      customer without orders leaves Q6 untimed even on a populated database. */
  lemma Q6TimedIffClientHasOrders(t: PostgresPopulate.Tables, s: Samples)
    requires SampledFrom(t, s) && |QueryPlan(s).queries| == 6
    ensures QueryPlan(s).queries[5].Some? <==>
      |t.cliente| > 0 && exists o :: o in t.pedido && o.idCliente == s.clientQ6.value
  {
    QueryPlanBlocks(s);
  }

  /** The blocks with a sample lookup are timed exactly when their table has
      rows (Q5: a PIX payment). */
  lemma BlocksTimedIffRows(t: PostgresPopulate.Tables, s: Samples)
    requires SampledFrom(t, s)
    ensures QueryPlan(s).queries[0].Some? <==> |t.cliente| > 0
    ensures QueryPlan(s).queries[1].Some? <==> |t.produto| > 0
    ensures QueryPlan(s).queries[2].Some? <==> |t.cliente| > 0
    ensures |QueryPlan(s).queries| >= 5 ==>
      (QueryPlan(s).queries[4].Some? <==> exists p :: p in t.pagamento && p.tipo == "pix")
  {
    QueryPlanBlocks(s);
  }
}
