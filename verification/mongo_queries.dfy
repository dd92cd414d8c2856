/** The document store's query script: six query blocks run one after the
    other inside one `try`. Each block takes its parameters from an untimed
    `$sample` aggregation read with `.next()`, and times its query NUM_RUNS
    times with `measure_execution_time`. An exception in any block ends the
    script there; `.next()` on an empty sample raises StopIteration. */
module MongoQueries {
  import opened Base
  import opened Calendar
  import opened QueryWindows
  import opened Benchmark
  import MongoPopulate

  /** The six timed queries, with the values bound into their filters. */
  datatype Query =
    | ClientLastOrders(idCliente: Uuid)                // Q1: aggregate on clientes
    | ProductsByPrice(categoria: string)               // Q2: find on produtos
    | DeliveredOrders(idCliente: Uuid)                 // Q3: find on pedidos
    | TopSellers                                       // Q4: aggregate on pedidos
    | PixPaymentsBetween(window: Window)               // Q5: find on pedidos
    | SpendingBetween(idCliente: Uuid, window: Window) // Q6: aggregate on pedidos

  /** `find` cursors are lazy and send their query inside the timed span;
      `aggregate` runs its pipeline before the clock starts. */
  function TimerOf(q: Query): Timer {
    match q
    case ClientLastOrders(_) => AfterSend
    case TopSellers => AfterSend
    case SpendingBetween(_, _) => AfterSend
    case _ => AroundSend
  }

  /** The Q5 sample: `{"pagamento": {"data_pagamento": ...}}` after the
      projection, with the date absent when the document has none. */
  datatype PaymentSample = PaymentSample(dataPagamento: Option<DateTime>)

  /** What each `.next()` returns; `None` is a sample with no document, on
      which `.next()` raises StopIteration. The Q1 sample's email is only
      printed, so only its `_id` is kept. */
  datatype Samples = Samples(
    client: Option<Uuid>,
    category: Option<string>,
    clientQ3: Option<Uuid>,
    pixPayment: Option<PaymentSample>,
    order: Option<(Uuid, DateTime)>)

  /** The queries the blocks time, in order (`None` for a block skipped by its
      own test), and the exception that ended the script early. */
  datatype Plan = Plan(queries: seq<Option<Query>>, error: Option<PyError>)

  /** Q5: skipped when the sample lacks `pagamento.data_pagamento`; otherwise
      the calendar month of that date. */
  function Q5Plan(p: PaymentSample): Result<Option<Query>> {
    match p.dataPagamento
    case None => Success(None)
    case Some(d) =>
      match MonthWindow(d)
      case Failure(e) => Failure(e)
      case Success(w) => Success(Some(PixPaymentsBetween(w)))
  }

  /** The queries of Q1 to Q4, once their three samples have returned. */
  function FirstBlocks(client: Uuid, category: string, clientQ3: Uuid): seq<Option<Query>> {
    FirstTwo(client, category) + [Some(DeliveredOrders(clientQ3))] + [Some(TopSellers)]
  }

  /** Q1 and Q2, which run once the customer and category samples returned. */
  function FirstTwo(client: Uuid, category: string): seq<Option<Query>> {
    [Some(ClientLastOrders(client))] + [Some(ProductsByPrice(category))]
  }

  /** Q5 and Q6 after the blocks `first`. */
  function LastPlan(s: Samples, first: seq<Option<Query>>): Plan {
    if s.pixPayment.None? then Plan(first, Some(StopIteration))
    else
      match Q5Plan(s.pixPayment.value)
      case Failure(e) => Plan(first, Some(e))
      case Success(q5) =>
        if s.order.None? then Plan(first + [q5], Some(StopIteration))
        else
          match LookBack(s.order.value.1, 90)
          case Failure(e) => Plan(first + [q5], Some(e))
          case Success(w) => Plan(first + [q5] + [Some(SpendingBetween(s.order.value.0, w))], None)
  }

  /** What `run_mongodb_queries` times, given what its samples return. */
  function QueryPlan(s: Samples): Plan {
    if s.client.None? then Plan([], Some(StopIteration))
    else if s.category.None? then Plan([Some(ClientLastOrders(s.client.value))], Some(StopIteration))
    else if s.clientQ3.None? then
      Plan(FirstTwo(s.client.value, s.category.value), Some(StopIteration))
    else LastPlan(s, FirstBlocks(s.client.value, s.category.value, s.clientQ3.value))
  }

  /** The sample lookup of block k found no document (Q4 has no lookup). */
  predicate LookupEmpty(s: Samples, k: nat) {
    match k
    case 0 => s.client.None?
    case 1 => s.category.None?
    case 2 => s.clientQ3.None?
    case 4 => s.pixPayment.None?
    case 5 => s.order.None?
    case _ => false
  }

  /** Which blocks run and which exception ends the script. Every block that
      is reached times its query, except Q5 when its sample lacks the payment
      date. The script stops at the first empty sample with StopIteration, at
      a payment in December 9999 with ValueError, and at an order date less
      than 90 days after 0001-01-01 with OverflowError. */
  lemma QueryPlanBlocks(s: Samples)
    ensures var p := QueryPlan(s);
      && |p.queries| <= 6
      && (p.error.None? <==> |p.queries| == 6)
      && (forall k :: 0 <= k < |p.queries| && k != 4 ==> p.queries[k].Some?)
      && (|p.queries| >= 5 ==> (p.queries[4].Some? <==> s.pixPayment.value.dataPagamento.Some?))
      && (forall k :: 0 <= k < |p.queries| ==> !LookupEmpty(s, k))
    ensures var p := QueryPlan(s);
      && (p.error == Some(StopIteration) <==> |p.queries| < 6 && LookupEmpty(s, |p.queries|))
      && (p.error == Some(ValueError) <==>
            |p.queries| == 4 && s.pixPayment.Some? && s.pixPayment.value.dataPagamento.Some?
            && s.pixPayment.value.dataPagamento.value.year == MAX_YEAR
            && s.pixPayment.value.dataPagamento.value.month == 12)
      && (p.error == Some(OverflowError) <==>
            |p.queries| == 5 && s.order.Some? && Instant(s.order.value.1) < 90 * MICROS_PER_DAY)
      && (p.error.Some? ==> p.error in {Some(StopIteration), Some(ValueError), Some(OverflowError)})
  {
  }

  /** `run_mongodb_queries` after the connection is open: the six blocks in
      order, each sample answered by `s` and each query by `store`. The trace
      grows by exactly the planned blocks' runs, one block after the other. */
  method RunMongoQueries<R>(client: Client<Query>, s: Samples, store: Query -> seq<R>)
    returns (blocks: seq<Block>, times: seq<seq<real>>, error: Option<PyError>)
    modifies client
    ensures error == QueryPlan(s).error
    ensures |client.trace| == |old(client.trace)| + Span(QueryPlan(s).queries)
    ensures client.trace[..|old(client.trace)|] == old(client.trace)
    ensures AllDone(client.trace, |old(client.trace)|, QueryPlan(s).queries, store, TimerOf, blocks, times)
  {
    ghost var t0 := client.trace;
    if s.client.None? {
      return [], [], Some(StopIteration);
    }
    if s.category.None? {
      blocks, times := NextBlock(client, Some(ClientLastOrders(s.client.value)), store, TimerOf, |t0|, [], [], []);
      return blocks, times, Some(StopIteration);
    }
    blocks, times := RunFirstBlocks(client, s.client.value, s.category.value, store);
    if s.clientQ3.None? {
      return blocks, times, Some(StopIteration);
    }
    ghost var t2 := client.trace;
    blocks, times := RunMiddleBlocks(client, s.client.value, s.category.value, s.clientQ3.value, store,
                                     |t0|, blocks, times);
    ghost var t4 := client.trace;
    PrefixTrans(t0, t2, t4);
    blocks, times, error := RunLastBlocks(client, s, store, |t0|,
                                          FirstBlocks(s.client.value, s.category.value, s.clientQ3.value),
                                          blocks, times);
    PrefixTrans(t0, t4, client.trace);
  }

  /** Q1 and Q2, once their samples have returned, from the end of the trace. */
  method RunFirstBlocks<R>(client: Client<Query>, c: Uuid, category: string, store: Query -> seq<R>)
    returns (blocks: seq<Block>, times: seq<seq<real>>)
    modifies client
    ensures |client.trace| == |old(client.trace)| + Span(FirstTwo(c, category))
    ensures client.trace[..|old(client.trace)|] == old(client.trace)
    ensures AllDone(client.trace, |old(client.trace)|, FirstTwo(c, category),
                    store, TimerOf, blocks, times)
  {
    ghost var t0 := client.trace;
    var q1 := Some(ClientLastOrders(c));
    blocks, times := NextBlock(client, q1, store, TimerOf, |t0|, [], [], []);
    ghost var t1 := client.trace;
    var q2 := Some(ProductsByPrice(category));
    blocks, times := NextBlock(client, q2, store, TimerOf, |t0|, [q1], blocks, times);
    PrefixTrans(t0, t1, client.trace);
  }

  /** Q3 and Q4, right after Q1 and Q2, done from `start`. */
  method RunMiddleBlocks<R>(client: Client<Query>, c: Uuid, category: string, clientQ3: Uuid,
                            store: Query -> seq<R>, ghost start: int, blocks: seq<Block>, times: seq<seq<real>>)
    returns (blocks': seq<Block>, times': seq<seq<real>>)
    modifies client
    requires AllDone(client.trace, start, FirstTwo(c, category),
                     store, TimerOf, blocks, times)
    requires |client.trace| == start + Span(FirstTwo(c, category))
    ensures |old(client.trace)| <= |client.trace| == start + Span(FirstBlocks(c, category, clientQ3))
    ensures client.trace[..|old(client.trace)|] == old(client.trace)
    ensures AllDone(client.trace, start, FirstBlocks(c, category, clientQ3), store, TimerOf, blocks', times')
  {
    ghost var t0 := client.trace;
    ghost var qs := FirstTwo(c, category);
    var q3 := Some(DeliveredOrders(clientQ3));
    blocks', times' := NextBlock(client, q3, store, TimerOf, start, qs, blocks, times);
    ghost var t1 := client.trace;
    blocks', times' := NextBlock(client, Some(TopSellers), store, TimerOf, start, qs + [q3], blocks', times');
    PrefixTrans(t0, t1, client.trace);
  }

  /** The Q5 and Q6 blocks, run right after the blocks `qs`, done from
      `start`. */
  method RunLastBlocks<R>(client: Client<Query>, s: Samples, store: Query -> seq<R>, ghost start: int,
                          ghost qs: seq<Option<Query>>, blocks: seq<Block>, times: seq<seq<real>>)
    returns (blocks': seq<Block>, times': seq<seq<real>>, error: Option<PyError>)
    modifies client
    requires AllDone(client.trace, start, qs, store, TimerOf, blocks, times)
    requires |client.trace| == start + Span(qs)
    ensures error == LastPlan(s, qs).error
    ensures |old(client.trace)| <= |client.trace| == start + Span(LastPlan(s, qs).queries)
    ensures client.trace[..|old(client.trace)|] == old(client.trace)
    ensures AllDone(client.trace, start, LastPlan(s, qs).queries, store, TimerOf, blocks', times')
  {
    ghost var t0 := client.trace;
    blocks', times' := blocks, times;
    if s.pixPayment.None? {
      return blocks', times', Some(StopIteration);
    }
    var p5 := Q5Plan(s.pixPayment.value);
    if p5.Failure? {
      return blocks', times', Some(p5.error);
    }
    blocks', times' := NextBlock(client, p5.value, store, TimerOf, start, qs, blocks', times');
    ghost var t5 := client.trace;
    if s.order.None? {
      return blocks', times', Some(StopIteration);
    }
    var (idCliente, dataPedido) := s.order.value;
    var w := LookBack(dataPedido, 90);
    if w.Failure? {
      return blocks', times', Some(w.error);
    }
    var q6 := Some(SpendingBetween(idCliente, w.value));
    blocks', times' := NextBlock(client, q6, store, TimerOf, start, qs + [p5.value], blocks', times');
    PrefixTrans(t0, t5, client.trace);
    error := None;
  }

  /** Q5's filter: `pagamento.tipo == "pix"` and `pagamento.data_pagamento`
      between the window's ends, both included. */
  predicate Q5Selects(o: MongoPopulate.PedidoDoc, w: Window) {
    o.pagamento.tipo == "pix" && w.Contains(Instant(o.pagamento.dataPagamento))
  }

  /** Q6's `$match`: `id_cliente == c` and `data_pedido` between the window's
      ends, both included. */
  predicate Q6Selects(o: MongoPopulate.PedidoDoc, c: Uuid, w: Window) {
    o.idCliente == c && w.Contains(Instant(o.dataPedido))
  }

  /** Q5 selects exactly the PIX payments of the sampled payment's calendar
      month, and the window holds the sampled date. */
  lemma Q5SelectsReferenceMonth(s: Samples, o: MongoPopulate.PedidoDoc)
    requires |QueryPlan(s).queries| >= 5 && QueryPlan(s).queries[4].Some?
    ensures QueryPlan(s).queries[4].value.PixPaymentsBetween?
    ensures var ref := s.pixPayment.value.dataPagamento.value;
      && QueryPlan(s).queries[4].value.window.Contains(Instant(ref))
      && (Q5Selects(o, QueryPlan(s).queries[4].value.window) <==>
            && o.pagamento.tipo == "pix"
            && o.pagamento.dataPagamento.year == ref.year
            && o.pagamento.dataPagamento.month == ref.month)
  {
    QueryPlanBlocks(s);
    MonthWindowIsCalendarMonth(s.pixPayment.value.dataPagamento.value, o.pagamento.dataPagamento);
  }

  /** Q6's customer and window end come from one sampled order, so that order
      matches Q6's own filter; Q6 selects that customer's orders of the 90
      days up to its date. */
  lemma Q6SelectsSampledOrder(s: Samples, o: MongoPopulate.PedidoDoc)
    requires |QueryPlan(s).queries| == 6
    ensures QueryPlan(s).queries[5] == Some(SpendingBetween(s.order.value.0, QueryPlan(s).queries[5].value.window))
    ensures o.idCliente == s.order.value.0 && o.dataPedido == s.order.value.1 ==>
      Q6Selects(o, s.order.value.0, QueryPlan(s).queries[5].value.window)
    ensures Q6Selects(o, s.order.value.0, QueryPlan(s).queries[5].value.window) <==>
      && o.idCliente == s.order.value.0
      && Instant(s.order.value.1) - 90 * MICROS_PER_DAY <= Instant(o.dataPedido) <= Instant(s.order.value.1)
  {
  }

  /** The samples come from the collections: `$sample` returns one of the
      documents it draws from, and one whenever there is one; the projected
      payment keeps the date every populated order carries. */
  ghost predicate SampledFrom(clientes: seq<MongoPopulate.ClienteDoc>, produtos: seq<MongoPopulate.ProdutoDoc>,
                              pedidos: seq<MongoPopulate.PedidoDoc>, s: Samples) {
    && (s.client.Some? <==> |clientes| > 0)
    && (s.client.Some? ==> exists c :: c in clientes && c.id == s.client.value)
    && (s.category.Some? <==> |produtos| > 0)
    && (s.category.Some? ==> exists p :: p in produtos && p.categoria == s.category.value)
    && (s.clientQ3.Some? <==> |clientes| > 0)
    && (s.clientQ3.Some? ==> exists c :: c in clientes && c.id == s.clientQ3.value)
    && (s.pixPayment.Some? <==> exists o :: o in pedidos && o.pagamento.tipo == "pix")
    && (s.pixPayment.Some? ==>
          exists o :: o in pedidos && o.pagamento.tipo == "pix"
                      && s.pixPayment.value == PaymentSample(Some(o.pagamento.dataPagamento)))
    && (s.order.Some? <==> |pedidos| > 0)
    && (s.order.Some? ==> exists o :: o in pedidos && s.order.value == (o.idCliente, o.dataPedido))
  }

  /** An empty customer collection does not reach the "no customer found"
      branch: the first `.next()` raises StopIteration and nothing is timed.
      Likewise, without a PIX order the Q5 sample ends the script. */
  lemma EmptySampleEndsScript(clientes: seq<MongoPopulate.ClienteDoc>, produtos: seq<MongoPopulate.ProdutoDoc>,
                              pedidos: seq<MongoPopulate.PedidoDoc>, s: Samples)
    requires SampledFrom(clientes, produtos, pedidos, s)
    ensures |clientes| == 0 ==> QueryPlan(s) == Plan([], Some(StopIteration))
    ensures |clientes| > 0 && |produtos| > 0 && !(exists o :: o in pedidos && o.pagamento.tipo == "pix") ==>
      |QueryPlan(s).queries| == 4 && QueryPlan(s).error == Some(StopIteration)
  {
  }

  /** On populated collections with a PIX order and an order date at least
      90 days into the calendar (and a payment before December 9999), every
      block runs and times its query: Q5's field test always passes and Q6,
      unlike the relational script's, cannot pick a customer without orders. */
  lemma AllBlocksTimed(clientes: seq<MongoPopulate.ClienteDoc>, produtos: seq<MongoPopulate.ProdutoDoc>,
                       pedidos: seq<MongoPopulate.PedidoDoc>, s: Samples)
    requires SampledFrom(clientes, produtos, pedidos, s)
    requires |clientes| > 0 && |produtos| > 0 && exists o :: o in pedidos && o.pagamento.tipo == "pix"
    requires forall o :: o in pedidos ==>
      Instant(o.dataPedido) >= 90 * MICROS_PER_DAY
      && !(o.pagamento.dataPagamento.year == MAX_YEAR && o.pagamento.dataPagamento.month == 12)
    ensures QueryPlan(s).error.None? && |QueryPlan(s).queries| == 6
    ensures forall k :: 0 <= k < 6 ==> QueryPlan(s).queries[k].Some?
  {
    QueryPlanBlocks(s);
    var o5 :| o5 in pedidos && o5.pagamento.tipo == "pix"
              && s.pixPayment.value == PaymentSample(Some(o5.pagamento.dataPagamento));
    var o6 :| o6 in pedidos && s.order.value == (o6.idCliente, o6.dataPedido);
  }

  /** On samples taken from the collections, Q5's window holds the sampled
      PIX payment, so the timed query has a document to return. */
  lemma Q5SampleSelected(clientes: seq<MongoPopulate.ClienteDoc>, produtos: seq<MongoPopulate.ProdutoDoc>,
                         pedidos: seq<MongoPopulate.PedidoDoc>, s: Samples)
    requires SampledFrom(clientes, produtos, pedidos, s)
    requires |QueryPlan(s).queries| >= 5 && QueryPlan(s).queries[4].Some?
    ensures exists o :: o in pedidos && Q5Selects(o, QueryPlan(s).queries[4].value.window)
  {
    QueryPlanBlocks(s);
    var o :| o in pedidos && o.pagamento.tipo == "pix"
             && s.pixPayment.value == PaymentSample(Some(o.pagamento.dataPagamento));
    Q5SelectsReferenceMonth(s, o);
  }

  /** On samples taken from the collections, the sampled order is among the
      documents Q6 matches. */
  lemma Q6SampleSelected(clientes: seq<MongoPopulate.ClienteDoc>, produtos: seq<MongoPopulate.ProdutoDoc>,
                         pedidos: seq<MongoPopulate.PedidoDoc>, s: Samples)
    requires SampledFrom(clientes, produtos, pedidos, s)
    requires |QueryPlan(s).queries| == 6
    ensures exists o :: o in pedidos && Q6Selects(o, s.order.value.0, QueryPlan(s).queries[5].value.window)
  {
    QueryPlanBlocks(s);
    var o :| o in pedidos && s.order.value == (o.idCliente, o.dataPedido);
    Q6SelectsSampledOrder(s, o);
  }
}
