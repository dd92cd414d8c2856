/** The wide-column loader, `populate_cassandra`: customers keyed by email,
    products clustered by category and price, and each order and its one
    payment written twice, once to a base table keyed by id and once to a
    table shaped for one access pattern. Every CQL `INSERT` is an upsert: it
    writes the row under its primary key, replacing whatever was there. */
module CassandraPopulate {
  import opened Base
  import opened Calendar
  import opened RandomSources

  const NUM_CLIENTES: nat := 20000
  const NUM_PRODUTOS: nat := 5000
  const NUM_PEDIDOS: nat := 30000

  /** `clientes_por_email`, keyed by `email`. */
  datatype ClienteRow = ClienteRow(
    idCliente: Uuid, nome: string, telefone: string, dataCadastro: DateTime, cpf: string)

  /** `produtos_por_categoria`: partition `categoria`, clustering `preco`, `id_produto`. */
  datatype ProdutoKey = ProdutoKey(categoria: string, preco: Cents, idProduto: Uuid)
  datatype ProdutoRow = ProdutoRow(nome: string, estoque: int)

  /** `pedidos_base`, keyed by `id_pedido`. */
  datatype PedidoRow = PedidoRow(idCliente: Uuid, dataPedido: DateTime, status: string, valorTotal: Cents)

  /** `pedidos_por_cliente_status`: partition (`id_cliente`, `status`), clustering
      `data_pedido`, `id_pedido`; the one regular column is `valor_total`. */
  datatype PedidoKey = PedidoKey(idCliente: Uuid, status: string, dataPedido: DateTime, idPedido: Uuid)

  /** `pagamentos_base`, keyed by `id_pagamento`. */
  datatype PagamentoRow = PagamentoRow(idPedido: Uuid, tipo: string, status: string, dataPagamento: DateTime)

  /** `pagamentos_por_tipo_mes`: partition (`tipo`, `ano_mes`), clustering
      `data_pagamento`, `id_pagamento`; regular columns `id_pedido`, `status`. */
  datatype PagamentoKey = PagamentoKey(tipo: string, anoMes: string, dataPagamento: DateTime, idPagamento: Uuid)
  datatype PagamentoMes = PagamentoMes(idPedido: Uuid, status: string)

  /** The six tables of `techmarket_ks`, each a map from primary key to the
      remaining columns. */
  datatype Keyspace = Keyspace(
    clientesPorEmail: map<string, ClienteRow>,
    produtosPorCategoria: map<ProdutoKey, ProdutoRow>,
    pedidosBase: map<Uuid, PedidoRow>,
    pedidosPorClienteStatus: map<PedidoKey, Cents>,
    pagamentosBase: map<Uuid, PagamentoRow>,
    pagamentosPorTipoMes: map<PagamentoKey, PagamentoMes>)

  const EMPTY: Keyspace := Keyspace(map[], map[], map[], map[], map[], map[])

  /** Every entry of `m0` is in `m` with the same value: no row was replaced or removed. */
  ghost predicate Extends<K, V>(m0: map<K, V>, m: map<K, V>) {
    forall k :: k in m0 ==> k in m && m[k] == m0[k]
  }

  /** The access-pattern key under which an order is mirrored. */
  function PedidoKeyOf(id: Uuid, o: PedidoRow): PedidoKey {
    PedidoKey(o.idCliente, o.status, o.dataPedido, id)
  }

  /** The access-pattern key under which a payment is mirrored: its type and the
      "%Y-%m" of its own date form the partition. */
  function PagamentoKeyOf(id: Uuid, p: PagamentoRow): PagamentoKey {
    PagamentoKey(p.tipo, YearMonthKey(p.dataPagamento), p.dataPagamento, id)
  }

  /** `pedidos_base` and `pedidos_por_cliente_status` hold the same orders with
      the same fields: each base row has its mirror, and each mirror row comes
      from a base row. */
  predicate PedidosMirrored(base: map<Uuid, PedidoRow>, porClienteStatus: map<PedidoKey, Cents>) {
    && (forall id :: id in base ==>
          && PedidoKeyOf(id, base[id]) in porClienteStatus
          && porClienteStatus[PedidoKeyOf(id, base[id])] == base[id].valorTotal)
    && (forall k :: k in porClienteStatus ==>
          k.idPedido in base && PedidoKeyOf(k.idPedido, base[k.idPedido]) == k)
  }

  /** `pagamentos_base` and `pagamentos_por_tipo_mes` hold the same payments with
      the same fields, in the same two directions. */
  predicate PagamentosMirrored(base: map<Uuid, PagamentoRow>, porTipoMes: map<PagamentoKey, PagamentoMes>) {
    && (forall id :: id in base ==>
          && PagamentoKeyOf(id, base[id]) in porTipoMes
          && porTipoMes[PagamentoKeyOf(id, base[id])] == PagamentoMes(base[id].idPedido, base[id].status))
    && (forall k :: k in porTipoMes ==>
          k.idPagamento in base && PagamentoKeyOf(k.idPagamento, base[k.idPagamento]) == k)
  }

  predicate Mirrored(ks: Keyspace) {
    && PedidosMirrored(ks.pedidosBase, ks.pedidosPorClienteStatus)
    && PagamentosMirrored(ks.pagamentosBase, ks.pagamentosPorTipoMes)
  }

  predicate EmailsTracked(m: map<string, ClienteRow>, emails: set<string>) {
    forall e :: e in m ==> e in emails
  }

  predicate ProdutosTracked(m: map<ProdutoKey, ProdutoRow>, ids: set<Uuid>) {
    forall k :: k in m ==> k.idProduto in ids
  }

  predicate PedidosTracked(m: map<Uuid, PedidoRow>, ids: set<Uuid>) {
    forall id :: id in m ==> id in ids
  }

  predicate PagamentosTracked(m: map<Uuid, PagamentoRow>, ids: set<Uuid>) {
    forall id :: id in m ==> id in ids && m[id].idPedido in ids
  }

  /** Every key in the keyspace came from this process's uuid4 calls and its
      `fake.unique.email` generator, every payment names such an order id, and
      both fan-outs are mirrored. The empty keyspace satisfies this, and so does
      any keyspace reached from it by this loader. */
  predicate Tracked(ks: Keyspace, ids: set<Uuid>, emails: set<string>) {
    && EmailsTracked(ks.clientesPorEmail, emails)
    && ProdutosTracked(ks.produtosPorCategoria, ids)
    && PedidosTracked(ks.pedidosBase, ids)
    && PagamentosTracked(ks.pagamentosBase, ids)
    && Mirrored(ks)
  }

  /** Tracking survives more uuids and more emails being handed out. */
  lemma TrackedGrows(ks: Keyspace, ids: set<Uuid>, emails: set<string>, ids': set<Uuid>, emails': set<string>)
    requires Tracked(ks, ids, emails) && ids <= ids' && emails <= emails'
    ensures Tracked(ks, ids', emails')
  {
  }

  /** The connection's view of the keyspace. Each method is one `session.execute`
      of an INSERT: the row is stored under its key whether or not the key was
      already there. */
  class CassandraSession {
    var ks: Keyspace

    constructor ()
      ensures ks == EMPTY
    {
      ks := EMPTY;
    }

    method InsertClientePorEmail(email: string, row: ClienteRow)
      modifies this
      ensures ks == old(ks).(clientesPorEmail := old(ks).clientesPorEmail[email := row])
    {
      ks := ks.(clientesPorEmail := ks.clientesPorEmail[email := row]);
    }

    method InsertProdutoPorCategoria(key: ProdutoKey, row: ProdutoRow)
      modifies this
      ensures ks == old(ks).(produtosPorCategoria := old(ks).produtosPorCategoria[key := row])
    {
      ks := ks.(produtosPorCategoria := ks.produtosPorCategoria[key := row]);
    }

    method InsertPedidoBase(id: Uuid, row: PedidoRow)
      modifies this
      ensures ks == old(ks).(pedidosBase := old(ks).pedidosBase[id := row])
    {
      ks := ks.(pedidosBase := ks.pedidosBase[id := row]);
    }

    method InsertPedidoPorClienteStatus(key: PedidoKey, valorTotal: Cents)
      modifies this
      ensures ks == old(ks).(pedidosPorClienteStatus := old(ks).pedidosPorClienteStatus[key := valorTotal])
    {
      ks := ks.(pedidosPorClienteStatus := ks.pedidosPorClienteStatus[key := valorTotal]);
    }

    method InsertPagamentoBase(id: Uuid, row: PagamentoRow)
      modifies this
      ensures ks == old(ks).(pagamentosBase := old(ks).pagamentosBase[id := row])
    {
      ks := ks.(pagamentosBase := ks.pagamentosBase[id := row]);
    }

    method InsertPagamentoPorTipoMes(key: PagamentoKey, row: PagamentoMes)
      modifies this
      ensures ks == old(ks).(pagamentosPorTipoMes := old(ks).pagamentosPorTipoMes[key := row])
    {
      ks := ks.(pagamentosPorTipoMes := ks.pagamentosPorTipoMes[key := row]);
    }
  }

  predicate ClienteRowInRange(c: ClienteRow, now: DateTime) {
    Instant(now) - TWO_YEARS <= Instant(c.dataCadastro) <= Instant(now)
  }

  /** Some `clientes_por_email` row carries this customer id. */
  predicate HasCliente(clientes: map<string, ClienteRow>, id: Uuid) {
    exists e :: e in clientes && clientes[e].idCliente == id
  }

  /** What the customer loop has written so far over the rows `m0` it started
      from: the email drawn i-th holds the i-th id, and every row it added is
      in range, keyed by a `fake.unique` email, and has a CPF no other added
      row has. */
  ghost predicate ClientesSoFar(m0: map<string, ClienteRow>, m: map<string, ClienteRow>, ids: seq<Uuid>,
                                emails: seq<string>, uniqueEmails: set<string>, newCpfs: set<string>, now: DateTime) {
    && |emails| == |ids|
    && (forall i :: 0 <= i < |ids| ==> emails[i] in uniqueEmails && emails[i] in m && m[emails[i]].idCliente == ids[i])
    && (forall e :: e in m && e !in m0 ==>
          e in uniqueEmails && m[e].idCliente in ids && ClienteRowInRange(m[e], now) && m[e].cpf in newCpfs)
    && (forall e1, e2 :: (e1 in m && e2 in m && e1 !in m0 && e2 !in m0 && e1 != e2) ==> m[e1].cpf != m[e2].cpf)
  }

  /** One customer written under a new `fake.unique` email, with a new CPF,
      replaces none of the rows the loop wrote before it. */
  lemma ClientesStep(m0: map<string, ClienteRow>, m: map<string, ClienteRow>, ids: seq<Uuid>, emails: seq<string>,
                     uniqueEmails: set<string>, newCpfs: set<string>, now: DateTime, email: string, row: ClienteRow)
    requires ClientesSoFar(m0, m, ids, emails, uniqueEmails, newCpfs, now)
    requires email !in uniqueEmails && row.cpf !in newCpfs && ClienteRowInRange(row, now)
    ensures ClientesSoFar(m0, m[email := row], ids + [row.idCliente], emails + [email],
                          uniqueEmails + {email}, newCpfs + {row.cpf}, now)
  {
  }

  /** A keyspace whose keys all came from this process stays so when one
      customer is written under a new email, and the table grows by one row
      without losing any. */
  lemma ClientesTrackedStep(m0: map<string, ClienteRow>, ks: Keyspace, issued: set<Uuid>, emails: set<string>,
                            issued': set<Uuid>, emails': set<string>, email: string, row: ClienteRow)
    requires Tracked(ks, issued, emails) && Extends(m0, ks.clientesPorEmail)
    requires email !in emails && issued <= issued' && emails + {email} <= emails'
    ensures |ks.clientesPorEmail[email := row]| == |ks.clientesPorEmail| + 1
    ensures Extends(m0, ks.clientesPorEmail[email := row])
    ensures Tracked(ks.(clientesPorEmail := ks.clientesPorEmail[email := row]), issued', emails')
  {
    TrackedGrows(ks, issued, emails, issued', emails');
  }

  /** The customer loop: NUM_CLIENTES rows, one per `fake.unique.email()`, so no
      row of this loop replaces another; `client_ids[i]` is the id written
      with the i-th email, and the CPFs of the new rows are pairwise distinct. */
  method PopularClientes(s: CassandraSession, uuid: Uuid4, fake: Faker, now: DateTime)
    returns (ids: seq<Uuid>)
    modifies s, uuid, fake
    ensures |ids| == NUM_CLIENTES && FreshIds(ids, old(uuid.issued), uuid.issued)
    ensures old(uuid.issued) <= uuid.issued
    ensures old(fake.uniqueEmails) <= fake.uniqueEmails && old(fake.uniqueCpfs) <= fake.uniqueCpfs
    ensures s.ks == old(s.ks).(clientesPorEmail := s.ks.clientesPorEmail)
    ensures forall c :: c in ids ==> HasCliente(s.ks.clientesPorEmail, c)
    ensures forall e :: e in s.ks.clientesPorEmail && e !in old(s.ks.clientesPorEmail) ==>
      s.ks.clientesPorEmail[e].idCliente in ids && ClienteRowInRange(s.ks.clientesPorEmail[e], now)
    ensures forall e1, e2 ::
      (e1 in s.ks.clientesPorEmail && e2 in s.ks.clientesPorEmail &&
       e1 !in old(s.ks.clientesPorEmail) && e2 !in old(s.ks.clientesPorEmail) && e1 != e2) ==>
      s.ks.clientesPorEmail[e1].cpf != s.ks.clientesPorEmail[e2].cpf
    ensures Tracked(old(s.ks), old(uuid.issued), old(fake.uniqueEmails)) ==>
      && |s.ks.clientesPorEmail| == |old(s.ks.clientesPorEmail)| + NUM_CLIENTES
      && Extends(old(s.ks.clientesPorEmail), s.ks.clientesPorEmail)
      && Tracked(s.ks, uuid.issued, fake.uniqueEmails)
  {
    ghost var t0 := s.ks;
    ghost var tracked0 := Tracked(t0, uuid.issued, fake.uniqueEmails);
    ghost var emails: seq<string> := [];
    ids := [];
    for k := 0 to NUM_CLIENTES
      invariant |ids| == k
      invariant s.ks == t0.(clientesPorEmail := s.ks.clientesPorEmail)
      invariant old(uuid.issued) <= uuid.issued
      invariant old(fake.uniqueEmails) <= fake.uniqueEmails && old(fake.uniqueCpfs) <= fake.uniqueCpfs
      invariant FreshIds(ids, old(uuid.issued), uuid.issued)
      invariant ClientesSoFar(t0.clientesPorEmail, s.ks.clientesPorEmail, ids, emails,
                              fake.uniqueEmails, fake.uniqueCpfs - old(fake.uniqueCpfs), now)
      invariant tracked0 ==>
        && |s.ks.clientesPorEmail| == |t0.clientesPorEmail| + k
        && Extends(t0.clientesPorEmail, s.ks.clientesPorEmail)
        && Tracked(s.ks, uuid.issued, fake.uniqueEmails)
    {
      ghost var ks := s.ks;
      ghost var issued := uuid.issued;
      ghost var uniqueEmails := fake.uniqueEmails;
      ghost var newCpfs := fake.uniqueCpfs - old(fake.uniqueCpfs);
      var clientId := uuid.Next();
      var email := fake.UniqueEmail();
      var nome := fake.Text();
      var telefone := fake.Text();
      var dataCadastro := fake.DateTimeBetween(now, TWO_YEARS);
      var cpf := fake.UniqueCpf();
      var row := ClienteRow(clientId, nome, telefone, dataCadastro, cpf);
      s.InsertClientePorEmail(email, row);
      FreshIdsAppend(ids, clientId, old(uuid.issued), issued, uuid.issued);
      ClientesStep(t0.clientesPorEmail, ks.clientesPorEmail, ids, emails, uniqueEmails, newCpfs, now, email, row);
      assert fake.uniqueCpfs - old(fake.uniqueCpfs) == newCpfs + {cpf};
      if tracked0 {
        ClientesTrackedStep(t0.clientesPorEmail, ks, issued, uniqueEmails, uuid.issued, fake.uniqueEmails, email, row);
      }
      ids := ids + [clientId];
      emails := emails + [email];
    }
    forall c | c in ids
      ensures HasCliente(s.ks.clientesPorEmail, c)
    {
      var i :| 0 <= i < |ids| && ids[i] == c;
      assert s.ks.clientesPorEmail[emails[i]].idCliente == c;
    }
  }

  predicate ProdutoInRange(key: ProdutoKey, row: ProdutoRow) {
    key.categoria in CATEGORIES && 1000 <= key.preco <= 500000 && 0 <= row.estoque <= 1000
  }

  /** Some `produtos_por_categoria` row carries this product id. */
  predicate HasProduto(produtos: map<ProdutoKey, ProdutoRow>, id: Uuid) {
    exists k :: k in produtos && k.idProduto == id
  }

  /** The product loop: NUM_PRODUTOS rows, each with a category from the eight,
      a price from 10.00 to 5000.00 and a stock from 0 to 1000; `product_ids[i]`
      is the id of the i-th row. */
  method PopularProdutos(s: CassandraSession, uuid: Uuid4, fake: Faker)
    returns (ids: seq<Uuid>)
    modifies s, uuid
    ensures |ids| == NUM_PRODUTOS && Distinct(ids)
    ensures forall i :: 0 <= i < |ids| ==> ids[i] in uuid.issued - old(uuid.issued)
    ensures old(uuid.issued) <= uuid.issued
    ensures s.ks == old(s.ks).(produtosPorCategoria := s.ks.produtosPorCategoria)
    ensures forall p :: p in ids ==> HasProduto(s.ks.produtosPorCategoria, p)
    ensures forall k :: k in s.ks.produtosPorCategoria && k !in old(s.ks.produtosPorCategoria) ==>
      k.idProduto in ids && ProdutoInRange(k, s.ks.produtosPorCategoria[k])
    ensures Tracked(old(s.ks), old(uuid.issued), fake.uniqueEmails) ==>
      && |s.ks.produtosPorCategoria| == |old(s.ks.produtosPorCategoria)| + NUM_PRODUTOS
      && Extends(old(s.ks.produtosPorCategoria), s.ks.produtosPorCategoria)
      && Tracked(s.ks, uuid.issued, fake.uniqueEmails)
  {
    ghost var t0 := s.ks;
    ghost var tracked0 := Tracked(t0, uuid.issued, fake.uniqueEmails);
    ghost var keys: seq<ProdutoKey> := [];
    ids := [];
    for k := 0 to NUM_PRODUTOS
      invariant |ids| == k && |keys| == k
      invariant s.ks == t0.(produtosPorCategoria := s.ks.produtosPorCategoria)
      invariant old(uuid.issued) <= uuid.issued
      invariant forall i :: 0 <= i < k ==> ids[i] in uuid.issued - old(uuid.issued)
      invariant Distinct(ids)
      invariant forall i :: 0 <= i < k ==> keys[i] in s.ks.produtosPorCategoria && keys[i].idProduto == ids[i]
      invariant forall key :: key in s.ks.produtosPorCategoria && key !in t0.produtosPorCategoria ==>
        key.idProduto in ids && ProdutoInRange(key, s.ks.produtosPorCategoria[key])
      invariant tracked0 ==>
        && |s.ks.produtosPorCategoria| == |t0.produtosPorCategoria| + k
        && Extends(t0.produtosPorCategoria, s.ks.produtosPorCategoria)
        && Tracked(s.ks, uuid.issued, fake.uniqueEmails)
    {
      var productId := uuid.Next();
      ids := ids + [productId];
      var categoria := Choice(CATEGORIES);
      var preco := RandInt(1000, 500000);
      var nome := fake.Text();
      var estoque := RandInt(0, 1000);
      var key := ProdutoKey(categoria.value, preco, productId);
      s.InsertProdutoPorCategoria(key, ProdutoRow(nome, estoque));
      keys := keys + [key];
    }
    forall p | p in ids
      ensures HasProduto(s.ks.produtosPorCategoria, p)
    {
      var i :| 0 <= i < |ids| && ids[i] == p;
      assert keys[i] in s.ks.produtosPorCategoria;
    }
  }

  /** What one iteration of the order loop draws: the order, and the payment
      that goes with it. */
  datatype OrderDraw = OrderDraw(orderId: Uuid, pedido: PedidoRow, paymentId: Uuid, pagamento: PagamentoRow)

  /** The four inserts of one iteration: the order into `pedidos_base` and
      `pedidos_por_cliente_status`, its payment into `pagamentos_base` and
      `pagamentos_por_tipo_mes`. */
  function WriteOrder(ks: Keyspace, d: OrderDraw): Keyspace {
    ks.(pedidosBase := ks.pedidosBase[d.orderId := d.pedido],
        pedidosPorClienteStatus := ks.pedidosPorClienteStatus[PedidoKeyOf(d.orderId, d.pedido) := d.pedido.valorTotal],
        pagamentosBase := ks.pagamentosBase[d.paymentId := d.pagamento],
        pagamentosPorTipoMes := ks.pagamentosPorTipoMes[PagamentoKeyOf(d.paymentId, d.pagamento)
                                                        := PagamentoMes(d.pagamento.idPedido, d.pagamento.status)])
  }

  /** The ranges the loop draws from: a customer from `client_ids`, an order
      date in the last year, a listed status, a total from 50.00 to 5000.00
      drawn on its own, and a payment for this very order, of a listed type and
      status, dated in the last six months. */
  predicate DrawInRange(d: OrderDraw, clientIds: seq<Uuid>, now: DateTime) {
    && d.pedido.idCliente in clientIds
    && Instant(now) - ONE_YEAR <= Instant(d.pedido.dataPedido) <= Instant(now)
    && d.pedido.status in ORDER_STATUSES
    && 5000 <= d.pedido.valorTotal <= 500000
    && d.pagamento.idPedido == d.orderId
    && d.pagamento.tipo in PAYMENT_TYPES
    && d.pagamento.status in PAYMENT_STATUSES
    && Instant(now) - SIX_MONTHS <= Instant(d.pagamento.dataPagamento) <= Instant(now)
  }

  /** One iteration of the order loop. The sampled products are drawn and then
      dropped: nothing written depends on them, and `min(num_items,
      len(product_ids))` keeps `random.sample` from raising. */
  method InserirPedido(s: CassandraSession, uuid: Uuid4, fake: Faker, now: DateTime,
                       clientIds: seq<Uuid>, productIds: seq<Uuid>)
    returns (r: Result<OrderDraw>)
    modifies s, uuid
    ensures r.Failure? <==> |clientIds| == 0
    ensures r.Failure? ==> r.error == IndexError && s.ks == old(s.ks)
    ensures old(uuid.issued) <= uuid.issued
    ensures r.Success? ==>
      && s.ks == WriteOrder(old(s.ks), r.value)
      && DrawInRange(r.value, clientIds, now)
      && r.value.orderId in uuid.issued - old(uuid.issued)
      && r.value.paymentId in uuid.issued - old(uuid.issued)
  {
    var orderId := uuid.Next();
    var clientId := Choice(clientIds);
    if clientId.Failure? {
      return Failure(clientId.error);
    }
    var dataPedido := fake.DateTimeBetween(now, ONE_YEAR);
    var status := Choice(ORDER_STATUSES);
    var numItems := RandInt(1, 5);
    var selected := Sample(productIds, Min(numItems, |productIds|));
    var valorTotal := RandInt(5000, 500000);
    var pedido := PedidoRow(clientId.value, dataPedido, status.value, valorTotal);
    s.InsertPedidoBase(orderId, pedido);
    s.InsertPedidoPorClienteStatus(PedidoKey(clientId.value, status.value, dataPedido, orderId), valorTotal);
    var paymentId := uuid.Next();
    var tipo := Choice(PAYMENT_TYPES);
    var estado := Choice(PAYMENT_STATUSES);
    var dataPagamento := fake.DateTimeBetween(now, SIX_MONTHS);
    var anoMes := YearMonthKey(dataPagamento);
    var pagamento := PagamentoRow(orderId, tipo.value, estado.value, dataPagamento);
    s.InsertPagamentoBase(paymentId, pagamento);
    s.InsertPagamentoPorTipoMes(PagamentoKey(tipo.value, anoMes, dataPagamento, paymentId),
                                PagamentoMes(orderId, estado.value));
    r := Success(OrderDraw(orderId, pedido, paymentId, pagamento));
  }

  /** The keyspace after the order loop has written `draws` in turn. */
  function Written(t0: Keyspace, draws: seq<OrderDraw>): Keyspace {
    if draws == [] then t0 else WriteOrder(Written(t0, draws[..|draws| - 1]), draws[|draws| - 1])
  }

  function OrderIdsOf(draws: seq<OrderDraw>): (ids: seq<Uuid>)
    ensures |ids| == |draws| && forall i :: 0 <= i < |draws| ==> ids[i] == draws[i].orderId
  {
    seq(|draws|, i requires 0 <= i < |draws| => draws[i].orderId)
  }

  function PaymentIdsOf(draws: seq<OrderDraw>): (ids: seq<Uuid>)
    ensures |ids| == |draws| && forall i :: 0 <= i < |draws| ==> ids[i] == draws[i].paymentId
  {
    seq(|draws|, i requires 0 <= i < |draws| => draws[i].paymentId)
  }

  /** The order ids and the payment ids of `draws` are pairwise distinct. */
  predicate DistinctDraws(draws: seq<OrderDraw>) {
    Distinct(OrderIdsOf(draws)) && Distinct(PaymentIdsOf(draws))
  }

  /** No drawn id is already a key of the base tables. */
  predicate FreshDraws(t0: Keyspace, draws: seq<OrderDraw>) {
    && DistinctDraws(draws)
    && (forall i :: 0 <= i < |draws| ==> draws[i].orderId !in t0.pedidosBase && draws[i].paymentId !in t0.pagamentosBase)
  }

  /** The order loop touches neither the customers nor the products, and the
      base tables end with exactly the keys they had plus the drawn ids. */
  lemma {:induction false} WrittenKeys(t0: Keyspace, draws: seq<OrderDraw>)
    ensures Written(t0, draws).clientesPorEmail == t0.clientesPorEmail
    ensures Written(t0, draws).produtosPorCategoria == t0.produtosPorCategoria
    ensures forall id :: id in Written(t0, draws).pedidosBase <==> id in t0.pedidosBase || id in OrderIdsOf(draws)
    ensures forall id :: id in Written(t0, draws).pagamentosBase <==> id in t0.pagamentosBase || id in PaymentIdsOf(draws)
  {
    if draws != [] {
      var init := draws[..|draws| - 1];
      WrittenKeys(t0, init);
      assert OrderIdsOf(draws) == OrderIdsOf(init) + [draws[|draws| - 1].orderId];
      assert PaymentIdsOf(draws) == PaymentIdsOf(init) + [draws[|draws| - 1].paymentId];
    }
  }

  /** With distinct ids, every drawn order and payment survives the loop as
      drawn: no later write replaces it. */
  lemma {:induction false} WrittenRows(t0: Keyspace, draws: seq<OrderDraw>)
    requires DistinctDraws(draws)
    ensures forall i :: 0 <= i < |draws| ==>
      && draws[i].orderId in Written(t0, draws).pedidosBase
      && Written(t0, draws).pedidosBase[draws[i].orderId] == draws[i].pedido
      && draws[i].paymentId in Written(t0, draws).pagamentosBase
      && Written(t0, draws).pagamentosBase[draws[i].paymentId] == draws[i].pagamento
  {
    if draws != [] {
      var n := |draws| - 1;
      var init := draws[..n];
      assert OrderIdsOf(init) == OrderIdsOf(draws)[..n];
      assert PaymentIdsOf(init) == PaymentIdsOf(draws)[..n];
      WrittenRows(t0, init);
      forall i | 0 <= i < n
        ensures draws[i].orderId != draws[n].orderId && draws[i].paymentId != draws[n].paymentId
      {
        assert OrderIdsOf(draws)[i] != OrderIdsOf(draws)[n];
        assert PaymentIdsOf(draws)[i] != PaymentIdsOf(draws)[n];
      }
    }
  }

  /** Rows that were there before the loop are left as they were, as long as no
      drawn id is already a key. */
  lemma {:induction false} WrittenKeepsOldRows(t0: Keyspace, draws: seq<OrderDraw>)
    requires FreshDraws(t0, draws)
    ensures Extends(t0.pedidosBase, Written(t0, draws).pedidosBase)
    ensures Extends(t0.pagamentosBase, Written(t0, draws).pagamentosBase)
  {
    if draws != [] {
      var n := |draws| - 1;
      var init := draws[..n];
      assert OrderIdsOf(init) == OrderIdsOf(draws)[..n];
      assert PaymentIdsOf(init) == PaymentIdsOf(draws)[..n];
      WrittenKeepsOldRows(t0, init);
      WrittenKeys(t0, init);
    }
  }

  /** The last draw of a fresh list is fresh for the keyspace its predecessors left. */
  lemma FreshLast(t0: Keyspace, draws: seq<OrderDraw>)
    requires FreshDraws(t0, draws) && draws != []
    ensures FreshDraws(t0, draws[..|draws| - 1])
    ensures draws[|draws| - 1].orderId !in Written(t0, draws[..|draws| - 1]).pedidosBase
    ensures draws[|draws| - 1].paymentId !in Written(t0, draws[..|draws| - 1]).pagamentosBase
  {
    var n := |draws| - 1;
    var init := draws[..n];
    assert OrderIdsOf(init) == OrderIdsOf(draws)[..n];
    assert PaymentIdsOf(init) == PaymentIdsOf(draws)[..n];
    WrittenKeys(t0, init);
    assert draws[n].orderId !in OrderIdsOf(init) by {
      forall i | 0 <= i < n
        ensures OrderIdsOf(init)[i] != draws[n].orderId
      {
        assert OrderIdsOf(draws)[i] != OrderIdsOf(draws)[n];
      }
    }
    assert draws[n].paymentId !in PaymentIdsOf(init) by {
      forall i | 0 <= i < n
        ensures PaymentIdsOf(init)[i] != draws[n].paymentId
      {
        assert PaymentIdsOf(draws)[i] != PaymentIdsOf(draws)[n];
      }
    }
  }

  /** One order written under a fresh order id keeps the order tables mirrored. */
  lemma WriteOrderKeepsPedidosMirrored(ks: Keyspace, d: OrderDraw)
    requires PedidosMirrored(ks.pedidosBase, ks.pedidosPorClienteStatus) && d.orderId !in ks.pedidosBase
    ensures PedidosMirrored(WriteOrder(ks, d).pedidosBase, WriteOrder(ks, d).pedidosPorClienteStatus)
  {
    var ks' := WriteOrder(ks, d);
    var key := PedidoKeyOf(d.orderId, d.pedido);
    assert key !in ks.pedidosPorClienteStatus;
    forall id | id in ks'.pedidosBase
      ensures PedidoKeyOf(id, ks'.pedidosBase[id]) in ks'.pedidosPorClienteStatus
      ensures ks'.pedidosPorClienteStatus[PedidoKeyOf(id, ks'.pedidosBase[id])] == ks'.pedidosBase[id].valorTotal
    {
      if id != d.orderId {
        assert PedidoKeyOf(id, ks.pedidosBase[id]).idPedido != d.orderId;
      }
    }
  }

  /** One payment written under a fresh payment id keeps the payment tables mirrored. */
  lemma WriteOrderKeepsPagamentosMirrored(ks: Keyspace, d: OrderDraw)
    requires PagamentosMirrored(ks.pagamentosBase, ks.pagamentosPorTipoMes) && d.paymentId !in ks.pagamentosBase
    ensures PagamentosMirrored(WriteOrder(ks, d).pagamentosBase, WriteOrder(ks, d).pagamentosPorTipoMes)
  {
    var ks' := WriteOrder(ks, d);
    var key := PagamentoKeyOf(d.paymentId, d.pagamento);
    assert key !in ks.pagamentosPorTipoMes;
    forall id | id in ks'.pagamentosBase
      ensures PagamentoKeyOf(id, ks'.pagamentosBase[id]) in ks'.pagamentosPorTipoMes
      ensures ks'.pagamentosPorTipoMes[PagamentoKeyOf(id, ks'.pagamentosBase[id])]
              == PagamentoMes(ks'.pagamentosBase[id].idPedido, ks'.pagamentosBase[id].status)
    {
      if id != d.paymentId {
        assert PagamentoKeyOf(id, ks.pagamentosBase[id]).idPagamento != d.paymentId;
      }
    }
  }

  /** One fresh write adds exactly one row to each of the four tables. */
  lemma WriteOrderCounts(ks: Keyspace, d: OrderDraw)
    requires Mirrored(ks) && d.orderId !in ks.pedidosBase && d.paymentId !in ks.pagamentosBase
    ensures |WriteOrder(ks, d).pedidosBase| == |ks.pedidosBase| + 1
    ensures |WriteOrder(ks, d).pedidosPorClienteStatus| == |ks.pedidosPorClienteStatus| + 1
    ensures |WriteOrder(ks, d).pagamentosBase| == |ks.pagamentosBase| + 1
    ensures |WriteOrder(ks, d).pagamentosPorTipoMes| == |ks.pagamentosPorTipoMes| + 1
  {
    assert PedidoKeyOf(d.orderId, d.pedido) !in ks.pedidosPorClienteStatus;
    assert PagamentoKeyOf(d.paymentId, d.pagamento) !in ks.pagamentosPorTipoMes;
  }

  /** Writing fresh orders and payments keeps both fan-outs mirrored and adds
      one row per draw to each of the four tables. */
  lemma {:induction false} WrittenMirroredAndCounted(t0: Keyspace, draws: seq<OrderDraw>)
    requires Mirrored(t0) && FreshDraws(t0, draws)
    ensures Mirrored(Written(t0, draws))
    ensures |Written(t0, draws).pedidosBase| == |t0.pedidosBase| + |draws|
    ensures |Written(t0, draws).pedidosPorClienteStatus| == |t0.pedidosPorClienteStatus| + |draws|
    ensures |Written(t0, draws).pagamentosBase| == |t0.pagamentosBase| + |draws|
    ensures |Written(t0, draws).pagamentosPorTipoMes| == |t0.pagamentosPorTipoMes| + |draws|
  {
    if draws != [] {
      var n := |draws| - 1;
      FreshLast(t0, draws);
      var prev := Written(t0, draws[..n]);
      WrittenMirroredAndCounted(t0, draws[..n]);
      WriteOrderKeepsPedidosMirrored(prev, draws[n]);
      WriteOrderKeepsPagamentosMirrored(prev, draws[n]);
      WriteOrderCounts(prev, draws[n]);
    }
  }

  /** Every order of `orderIds` is named by exactly one row of `pagamentos_base`. */
  ghost predicate OnePaymentPerOrder(ks: Keyspace, orders: set<Uuid>) {
    && (forall o :: o in orders ==> exists p :: p in ks.pagamentosBase && ks.pagamentosBase[p].idPedido == o)
    && (forall p1, p2 ::
          (p1 in ks.pagamentosBase && p2 in ks.pagamentosBase &&
           ks.pagamentosBase[p1].idPedido == ks.pagamentosBase[p2].idPedido &&
           ks.pagamentosBase[p1].idPedido in orders) ==> p1 == p2)
  }

  /** The order ids that `t` has and `t0` had not. */
  ghost function NewOrders(t0: Keyspace, t: Keyspace): set<Uuid> {
    t.pedidosBase.Keys - t0.pedidosBase.Keys
  }

  /** When the payments already there name no drawn order, each order the loop
      adds ends with exactly one payment: the one drawn with it. */
  lemma WrittenOnePaymentPerOrder(t0: Keyspace, draws: seq<OrderDraw>, clientIds: seq<Uuid>, now: DateTime)
    requires FreshDraws(t0, draws)
    requires forall i :: 0 <= i < |draws| ==> DrawInRange(draws[i], clientIds, now)
    requires forall p :: p in t0.pagamentosBase ==> t0.pagamentosBase[p].idPedido !in OrderIdsOf(draws)
    ensures OnePaymentPerOrder(Written(t0, draws), NewOrders(t0, Written(t0, draws)))
  {
    var t := Written(t0, draws);
    var orderIds := OrderIdsOf(draws);
    WrittenKeys(t0, draws);
    WrittenRows(t0, draws);
    WrittenKeepsOldRows(t0, draws);
    forall o | o in NewOrders(t0, t)
      ensures exists p :: p in t.pagamentosBase && t.pagamentosBase[p].idPedido == o
    {
      var i :| 0 <= i < |draws| && orderIds[i] == o;
      assert t.pagamentosBase[draws[i].paymentId].idPedido == o;
    }
    forall p1, p2 | p1 in t.pagamentosBase && p2 in t.pagamentosBase &&
                    t.pagamentosBase[p1].idPedido == t.pagamentosBase[p2].idPedido &&
                    t.pagamentosBase[p1].idPedido in NewOrders(t0, t)
      ensures p1 == p2
    {
      var i := PaymentOfDrawnOrder(t0, draws, clientIds, now, p1);
      var j := PaymentOfDrawnOrder(t0, draws, clientIds, now, p2);
      assert orderIds[i] == orderIds[j];
    }
  }

  /** A payment in the written keyspace that names a drawn order is one of the
      drawn payments, the one drawn with that order. */
  lemma PaymentOfDrawnOrder(t0: Keyspace, draws: seq<OrderDraw>, clientIds: seq<Uuid>, now: DateTime, p: Uuid)
    returns (i: nat)
    requires FreshDraws(t0, draws)
    requires forall k :: 0 <= k < |draws| ==> DrawInRange(draws[k], clientIds, now)
    requires forall q :: q in t0.pagamentosBase ==> t0.pagamentosBase[q].idPedido !in OrderIdsOf(draws)
    requires p in Written(t0, draws).pagamentosBase
    requires Written(t0, draws).pagamentosBase[p].idPedido in OrderIdsOf(draws)
    ensures i < |draws| && p == draws[i].paymentId
    ensures Written(t0, draws).pagamentosBase[p].idPedido == draws[i].orderId
  {
    WrittenKeys(t0, draws);
    WrittenRows(t0, draws);
    WrittenKeepsOldRows(t0, draws);
    var k :| 0 <= k < |draws| && PaymentIdsOf(draws)[k] == p;
    i := k;
  }

  predicate PedidoFieldsInRange(o: PedidoRow, now: DateTime) {
    && Instant(now) - ONE_YEAR <= Instant(o.dataPedido) <= Instant(now)
    && o.status in ORDER_STATUSES
    && 5000 <= o.valorTotal <= 500000
  }

  predicate PedidoRowInRange(o: PedidoRow, clientIds: seq<Uuid>, now: DateTime) {
    o.idCliente in clientIds && PedidoFieldsInRange(o, now)
  }

  predicate PagamentoFieldsInRange(p: PagamentoRow, now: DateTime) {
    && p.tipo in PAYMENT_TYPES
    && p.status in PAYMENT_STATUSES
    && Instant(now) - SIX_MONTHS <= Instant(p.dataPagamento) <= Instant(now)
  }

  predicate PagamentoRowInRange(p: PagamentoRow, orderIds: seq<Uuid>, now: DateTime) {
    p.idPedido in orderIds && PagamentoFieldsInRange(p, now)
  }

  /** What the order loop leaves, whatever was in the keyspace: the customers
      and products untouched, one base row per order id with in-range fields,
      and every payment row it added naming one of the new orders. */
  ghost predicate OrdersWritten(t0: Keyspace, t: Keyspace, orderIds: seq<Uuid>, clientIds: seq<Uuid>, now: DateTime) {
    && t.clientesPorEmail == t0.clientesPorEmail
    && t.produtosPorCategoria == t0.produtosPorCategoria
    && (forall id :: id in t.pedidosBase <==> id in t0.pedidosBase || id in orderIds)
    && (forall id :: id in orderIds ==> PedidoRowInRange(t.pedidosBase[id], clientIds, now))
    && (forall p :: p in t.pagamentosBase && p !in t0.pagamentosBase ==>
          PagamentoRowInRange(t.pagamentosBase[p], orderIds, now))
  }

  lemma WrittenOrdersWritten(t0: Keyspace, draws: seq<OrderDraw>, clientIds: seq<Uuid>, now: DateTime)
    requires DistinctDraws(draws)
    requires forall i :: 0 <= i < |draws| ==> DrawInRange(draws[i], clientIds, now)
    ensures OrdersWritten(t0, Written(t0, draws), OrderIdsOf(draws), clientIds, now)
  {
    var t := Written(t0, draws);
    var orderIds := OrderIdsOf(draws);
    WrittenKeys(t0, draws);
    WrittenRows(t0, draws);
    forall id | id in orderIds
      ensures PedidoRowInRange(t.pedidosBase[id], clientIds, now)
    {
      var i :| 0 <= i < |draws| && orderIds[i] == id;
      assert t.pedidosBase[id] == draws[i].pedido;
    }
    forall p | p in t.pagamentosBase && p !in t0.pagamentosBase
      ensures PagamentoRowInRange(t.pagamentosBase[p], orderIds, now)
    {
      var i :| 0 <= i < |draws| && PaymentIdsOf(draws)[i] == p;
      assert t.pagamentosBase[p] == draws[i].pagamento;
      assert orderIds[i] == draws[i].orderId;
    }
  }

  /** What the order loop leaves in a keyspace this loader filled: the old rows
      as they were, NUM_PEDIDOS more rows in each of the four tables, both
      fan-outs mirrored, and one payment per new order. */
  ghost predicate OrdersAppended(t0: Keyspace, t: Keyspace, orderIds: seq<Uuid>) {
    && Extends(t0.pedidosBase, t.pedidosBase)
    && Extends(t0.pagamentosBase, t.pagamentosBase)
    && |t.pedidosBase| == |t0.pedidosBase| + |orderIds|
    && |t.pedidosPorClienteStatus| == |t0.pedidosPorClienteStatus| + |orderIds|
    && |t.pagamentosBase| == |t0.pagamentosBase| + |orderIds|
    && |t.pagamentosPorTipoMes| == |t0.pagamentosPorTipoMes| + |orderIds|
    && Mirrored(t)
    && NewOrders(t0, t) == Elems(orderIds)
    && OnePaymentPerOrder(t, NewOrders(t0, t))
  }

  /** The orders a fresh loop adds are exactly the ones it drew. */
  lemma WrittenNewOrders(t0: Keyspace, draws: seq<OrderDraw>)
    requires FreshDraws(t0, draws)
    ensures NewOrders(t0, Written(t0, draws)) == Elems(OrderIdsOf(draws))
  {
    WrittenKeys(t0, draws);
  }

  /** The draws of the order loop so far: distinct ids, all handed out by uuid4
      since `issued0`, and values in range. */
  ghost predicate DrawsFrom(draws: seq<OrderDraw>, issued0: set<Uuid>, issued: set<Uuid>,
                            clientIds: seq<Uuid>, now: DateTime) {
    && DistinctDraws(draws)
    && (forall i :: 0 <= i < |draws| ==>
          && draws[i].orderId in issued - issued0
          && draws[i].paymentId in issued - issued0
          && DrawInRange(draws[i], clientIds, now))
  }

  /** Every id the loop draws is new to a tracked keyspace, so the loop appends. */
  lemma WrittenAppends(t0: Keyspace, draws: seq<OrderDraw>, issued0: set<Uuid>, issued: set<Uuid>,
                       emails: set<string>, clientIds: seq<Uuid>, now: DateTime)
    requires Tracked(t0, issued0, emails)
    requires DrawsFrom(draws, issued0, issued, clientIds, now)
    ensures OrdersAppended(t0, Written(t0, draws), OrderIdsOf(draws))
  {
    assert FreshDraws(t0, draws);
    assert forall i :: 0 <= i < |draws| ==> OrderIdsOf(draws)[i] !in issued0;
    WrittenNewOrders(t0, draws);
    WrittenKeepsOldRows(t0, draws);
    WrittenMirroredAndCounted(t0, draws);
    WrittenOnePaymentPerOrder(t0, draws, clientIds, now);
  }

  /** The order ids the loop returns are fresh uuids. */
  lemma DrawnOrderIdsFresh(draws: seq<OrderDraw>, issued0: set<Uuid>, issued: set<Uuid>, clientIds: seq<Uuid>, now: DateTime)
    requires DrawsFrom(draws, issued0, issued, clientIds, now)
    ensures FreshIds(OrderIdsOf(draws), issued0, issued)
  {
  }

  /** One more iteration of the order loop: its two ids are new, so the drawn
      ids stay distinct, and the keyspace is the previous one with its write. */
  lemma DrawsStep(t0: Keyspace, draws: seq<OrderDraw>, d: OrderDraw, issued0: set<Uuid>, before: set<Uuid>,
                  after: set<Uuid>, clientIds: seq<Uuid>, now: DateTime)
    requires DrawsFrom(draws, issued0, before, clientIds, now) && issued0 <= before <= after
    requires d.orderId in after - before && d.paymentId in after - before && DrawInRange(d, clientIds, now)
    ensures DrawsFrom(draws + [d], issued0, after, clientIds, now)
    ensures OrderIdsOf(draws + [d]) == OrderIdsOf(draws) + [d.orderId]
    ensures Written(t0, draws + [d]) == WriteOrder(Written(t0, draws), d)
  {
    var ds := draws + [d];
    assert ds[..|draws|] == draws;
    assert OrderIdsOf(ds) == OrderIdsOf(draws) + [d.orderId];
    assert PaymentIdsOf(ds) == PaymentIdsOf(draws) + [d.paymentId];
  }

  /** A tracked keyspace stays tracked through the order loop: the new keys and
      the orders the new payments name are all uuids of this process. */
  lemma TrackedAfterOrders(t0: Keyspace, draws: seq<OrderDraw>, issued0: set<Uuid>, issued: set<Uuid>,
                           emails: set<string>, clientIds: seq<Uuid>, now: DateTime)
    requires Tracked(t0, issued0, emails) && issued0 <= issued
    requires DrawsFrom(draws, issued0, issued, clientIds, now)
    ensures Tracked(Written(t0, draws), issued, emails)
  {
    var t := Written(t0, draws);
    assert FreshDraws(t0, draws);
    WrittenKeys(t0, draws);
    WrittenRows(t0, draws);
    WrittenKeepsOldRows(t0, draws);
    WrittenMirroredAndCounted(t0, draws);
    forall id | id in t.pedidosBase
      ensures id in issued
    {
      if id !in t0.pedidosBase {
        var i :| 0 <= i < |draws| && OrderIdsOf(draws)[i] == id;
      }
    }
    forall p | p in t.pagamentosBase
      ensures p in issued && t.pagamentosBase[p].idPedido in issued
    {
      if p !in t0.pagamentosBase {
        var i :| 0 <= i < |draws| && PaymentIdsOf(draws)[i] == p;
        assert t.pagamentosBase[p] == draws[i].pagamento;
      }
    }
  }

  /** The order loop: NUM_PEDIDOS iterations, each writing one order to both
      order tables and one payment to both payment tables. The only exception
      it can raise is `random.choice` on an empty `client_ids`, in the first
      iteration, before anything is written. */
  method PopularPedidos(s: CassandraSession, uuid: Uuid4, fake: Faker, now: DateTime,
                        clientIds: seq<Uuid>, productIds: seq<Uuid>)
    returns (r: Result<seq<Uuid>>)
    modifies s, uuid
    ensures old(uuid.issued) <= uuid.issued
    ensures r.Failure? <==> |clientIds| == 0
    ensures r.Failure? ==> r.error == IndexError && s.ks == old(s.ks)
    ensures r.Success? ==> |r.value| == NUM_PEDIDOS && FreshIds(r.value, old(uuid.issued), uuid.issued)
    ensures r.Success? ==> OrdersWritten(old(s.ks), s.ks, r.value, clientIds, now)
    ensures r.Success? && Tracked(old(s.ks), old(uuid.issued), fake.uniqueEmails) ==>
      OrdersAppended(old(s.ks), s.ks, r.value) && Tracked(s.ks, uuid.issued, fake.uniqueEmails)
  {
    ghost var t0 := s.ks;
    ghost var draws: seq<OrderDraw> := [];
    var ids: seq<Uuid> := [];
    for k := 0 to NUM_PEDIDOS
      invariant k > 0 ==> |clientIds| > 0
      invariant |draws| == k && ids == OrderIdsOf(draws)
      invariant s.ks == Written(t0, draws)
      invariant old(uuid.issued) <= uuid.issued
      invariant DrawsFrom(draws, old(uuid.issued), uuid.issued, clientIds, now)
    {
      ghost var before := uuid.issued;
      var d := InserirPedido(s, uuid, fake, now, clientIds, productIds);
      if d.Failure? {
        return Failure(d.error);
      }
      DrawsStep(t0, draws, d.value, old(uuid.issued), before, uuid.issued, clientIds, now);
      draws := draws + [d.value];
      ids := ids + [d.value.orderId];
    }
    r := Success(ids);
    DrawnOrderIdsFresh(draws, old(uuid.issued), uuid.issued, clientIds, now);
    WrittenOrdersWritten(t0, draws, clientIds, now);
    if Tracked(t0, old(uuid.issued), fake.uniqueEmails) {
      WrittenAppends(t0, draws, old(uuid.issued), uuid.issued, fake.uniqueEmails, clientIds, now);
      TrackedAfterOrders(t0, draws, old(uuid.issued), uuid.issued, fake.uniqueEmails, clientIds, now);
    }
  }

  /** A payment is filed under the partition of its own month: the `ano_mes`
      of its key reads back as its date's year and month, and a datetime gets
      that same key exactly when it falls in that month. */
  lemma PaymentPartitionIsItsMonth(ks: Keyspace, k: PagamentoKey, d: DateTime)
    requires Mirrored(ks) && k in ks.pagamentosPorTipoMes
    ensures DecodeYearMonthKey(k.anoMes) == (k.dataPagamento.year, k.dataPagamento.month)
    ensures YearMonthKey(d) == k.anoMes <==> d.year == k.dataPagamento.year && d.month == k.dataPagamento.month
  {
    assert k.anoMes == YearMonthKey(k.dataPagamento);
    DecodeYearMonthKeyInverse(k.dataPagamento);
    YearMonthKeyIdentifiesMonth(d, k.dataPagamento);
  }

  /** What `populate_cassandra` leaves in a keyspace that held only rows this
      loader wrote: every table grows by its count and keeps what it had, both
      fan-outs are mirrored, every new order names a customer that has a row
      and has exactly one payment, every new payment names a new order, and
      every new row is in range. */
  ghost predicate PopulatedRun(t0: Keyspace, t: Keyspace, now: DateTime) {
    && RunGrows(t0, t)
    && Mirrored(t)
    && OnePaymentPerOrder(t, NewOrders(t0, t))
    && RunRefers(t0, t)
    && RunInRange(t0, t, now)
  }

  /** Each table gains exactly its count of rows and keeps every row it had. */
  ghost predicate RunGrows(t0: Keyspace, t: Keyspace) {
    && |t.clientesPorEmail| == |t0.clientesPorEmail| + NUM_CLIENTES
    && Extends(t0.clientesPorEmail, t.clientesPorEmail)
    && |t.produtosPorCategoria| == |t0.produtosPorCategoria| + NUM_PRODUTOS
    && Extends(t0.produtosPorCategoria, t.produtosPorCategoria)
    && |t.pedidosBase| == |t0.pedidosBase| + NUM_PEDIDOS
    && |t.pedidosPorClienteStatus| == |t0.pedidosPorClienteStatus| + NUM_PEDIDOS
    && |t.pagamentosBase| == |t0.pagamentosBase| + NUM_PEDIDOS
    && |t.pagamentosPorTipoMes| == |t0.pagamentosPorTipoMes| + NUM_PEDIDOS
    && Extends(t0.pedidosBase, t.pedidosBase)
    && Extends(t0.pagamentosBase, t.pagamentosBase)
  }

  /** Every new order names a customer that has a row, and every new payment
      names a new order. */
  ghost predicate RunRefers(t0: Keyspace, t: Keyspace) {
    && (forall id :: id in t.pedidosBase && id !in t0.pedidosBase ==> HasCliente(t.clientesPorEmail, t.pedidosBase[id].idCliente))
    && (forall p :: p in t.pagamentosBase && p !in t0.pagamentosBase ==>
          t.pagamentosBase[p].idPedido in t.pedidosBase && t.pagamentosBase[p].idPedido !in t0.pedidosBase)
  }

  /** Every new row holds values from the ranges its loop draws from. */
  ghost predicate RunInRange(t0: Keyspace, t: Keyspace, now: DateTime) {
    && (forall e :: e in t.clientesPorEmail && e !in t0.clientesPorEmail ==> ClienteRowInRange(t.clientesPorEmail[e], now))
    && (forall k :: k in t.produtosPorCategoria && k !in t0.produtosPorCategoria ==>
          ProdutoInRange(k, t.produtosPorCategoria[k]))
    && (forall id :: id in t.pedidosBase && id !in t0.pedidosBase ==> PedidoFieldsInRange(t.pedidosBase[id], now))
    && (forall p :: p in t.pagamentosBase && p !in t0.pagamentosBase ==>
          PagamentoFieldsInRange(t.pagamentosBase[p], now))
  }

  /** The three loops, one after the other, leave a populated run behind. */
  lemma PopulatedRunHolds(t0: Keyspace, t1: Keyspace, t2: Keyspace, t3: Keyspace,
                          clientIds: seq<Uuid>, orderIds: seq<Uuid>, now: DateTime)
    requires t1 == t0.(clientesPorEmail := t1.clientesPorEmail)
    requires |t1.clientesPorEmail| == |t0.clientesPorEmail| + NUM_CLIENTES
    requires Extends(t0.clientesPorEmail, t1.clientesPorEmail)
    requires forall c :: c in clientIds ==> HasCliente(t1.clientesPorEmail, c)
    requires forall e :: e in t1.clientesPorEmail && e !in t0.clientesPorEmail ==>
      ClienteRowInRange(t1.clientesPorEmail[e], now)
    requires t2 == t1.(produtosPorCategoria := t2.produtosPorCategoria)
    requires |t2.produtosPorCategoria| == |t1.produtosPorCategoria| + NUM_PRODUTOS
    requires Extends(t1.produtosPorCategoria, t2.produtosPorCategoria)
    requires forall k :: k in t2.produtosPorCategoria && k !in t1.produtosPorCategoria ==>
      ProdutoInRange(k, t2.produtosPorCategoria[k])
    requires |orderIds| == NUM_PEDIDOS
    requires OrdersWritten(t2, t3, orderIds, clientIds, now) && OrdersAppended(t2, t3, orderIds)
    ensures PopulatedRun(t0, t3, now)
  {
    assert t0.pedidosBase == t2.pedidosBase && t0.pagamentosBase == t2.pagamentosBase;
    assert t0.produtosPorCategoria == t1.produtosPorCategoria && t2.clientesPorEmail == t1.clientesPorEmail;
    RunPaymentsHold(t0, t2, t3, orderIds);
    RunGrowsHolds(t0, t1, t2, t3, orderIds);
    RunRefersHolds(t0, t1, t2, t3, clientIds, orderIds, now);
    RunInRangeHolds(t0, t1, t2, t3, orderIds, clientIds, now);
  }

  lemma RunPaymentsHold(t0: Keyspace, t2: Keyspace, t3: Keyspace, orderIds: seq<Uuid>)
    requires t0.pedidosBase == t2.pedidosBase
    requires OrdersAppended(t2, t3, orderIds)
    ensures Mirrored(t3) && OnePaymentPerOrder(t3, NewOrders(t0, t3))
  {
    assert NewOrders(t0, t3) == NewOrders(t2, t3);
  }

  lemma RunGrowsHolds(t0: Keyspace, t1: Keyspace, t2: Keyspace, t3: Keyspace, orderIds: seq<Uuid>)
    requires t1 == t0.(clientesPorEmail := t1.clientesPorEmail)
    requires |t1.clientesPorEmail| == |t0.clientesPorEmail| + NUM_CLIENTES
    requires Extends(t0.clientesPorEmail, t1.clientesPorEmail)
    requires t2 == t1.(produtosPorCategoria := t2.produtosPorCategoria)
    requires |t2.produtosPorCategoria| == |t1.produtosPorCategoria| + NUM_PRODUTOS
    requires Extends(t1.produtosPorCategoria, t2.produtosPorCategoria)
    requires t3.clientesPorEmail == t2.clientesPorEmail && t3.produtosPorCategoria == t2.produtosPorCategoria
    requires |orderIds| == NUM_PEDIDOS && OrdersAppended(t2, t3, orderIds)
    ensures RunGrows(t0, t3)
  {
  }

  lemma RunRefersHolds(t0: Keyspace, t1: Keyspace, t2: Keyspace, t3: Keyspace,
                       clientIds: seq<Uuid>, orderIds: seq<Uuid>, now: DateTime)
    requires t0.pedidosBase == t2.pedidosBase && t0.pagamentosBase == t2.pagamentosBase
    requires t2.clientesPorEmail == t1.clientesPorEmail
    requires forall c :: c in clientIds ==> HasCliente(t1.clientesPorEmail, c)
    requires OrdersWritten(t2, t3, orderIds, clientIds, now)
    requires NewOrders(t2, t3) == Elems(orderIds)
    ensures RunRefers(t0, t3)
  {
    NewOrdersReferToClientes(t0, t2, t3, clientIds, orderIds, now);
    NewPaymentsReferToNewOrders(t0, t2, t3, clientIds, orderIds, now);
  }

  lemma NewOrdersReferToClientes(t0: Keyspace, t2: Keyspace, t3: Keyspace,
                                 clientIds: seq<Uuid>, orderIds: seq<Uuid>, now: DateTime)
    requires t0.pedidosBase == t2.pedidosBase
    requires forall c :: c in clientIds ==> HasCliente(t2.clientesPorEmail, c)
    requires OrdersWritten(t2, t3, orderIds, clientIds, now)
    ensures forall id :: id in t3.pedidosBase && id !in t0.pedidosBase ==>
      HasCliente(t3.clientesPorEmail, t3.pedidosBase[id].idCliente)
  {
    forall id | id in t3.pedidosBase && id !in t0.pedidosBase
      ensures HasCliente(t3.clientesPorEmail, t3.pedidosBase[id].idCliente)
    {
      assert PedidoRowInRange(t3.pedidosBase[id], clientIds, now);
    }
  }

  lemma NewPaymentsReferToNewOrders(t0: Keyspace, t2: Keyspace, t3: Keyspace,
                                    clientIds: seq<Uuid>, orderIds: seq<Uuid>, now: DateTime)
    requires t0.pedidosBase == t2.pedidosBase && t0.pagamentosBase == t2.pagamentosBase
    requires forall p :: p in t3.pagamentosBase && p !in t2.pagamentosBase ==>
      PagamentoRowInRange(t3.pagamentosBase[p], orderIds, now)
    requires NewOrders(t2, t3) == Elems(orderIds)
    ensures forall p :: p in t3.pagamentosBase && p !in t0.pagamentosBase ==>
      t3.pagamentosBase[p].idPedido in t3.pedidosBase && t3.pagamentosBase[p].idPedido !in t0.pedidosBase
  {
    forall p | p in t3.pagamentosBase && p !in t0.pagamentosBase
      ensures t3.pagamentosBase[p].idPedido in NewOrders(t2, t3)
    {
      assert PagamentoRowInRange(t3.pagamentosBase[p], orderIds, now);
    }
  }

  lemma RunInRangeHolds(t0: Keyspace, t1: Keyspace, t2: Keyspace, t3: Keyspace,
                        orderIds: seq<Uuid>, clientIds: seq<Uuid>, now: DateTime)
    requires t0.produtosPorCategoria == t1.produtosPorCategoria
    requires t0.pedidosBase == t2.pedidosBase && t0.pagamentosBase == t2.pagamentosBase
    requires t2.clientesPorEmail == t1.clientesPorEmail
    requires forall e :: e in t1.clientesPorEmail && e !in t0.clientesPorEmail ==>
      ClienteRowInRange(t1.clientesPorEmail[e], now)
    requires forall k :: k in t2.produtosPorCategoria && k !in t1.produtosPorCategoria ==>
      ProdutoInRange(k, t2.produtosPorCategoria[k])
    requires OrdersWritten(t2, t3, orderIds, clientIds, now)
    ensures RunInRange(t0, t3, now)
  {
    forall id | id in t3.pedidosBase && id !in t0.pedidosBase
      ensures PedidoFieldsInRange(t3.pedidosBase[id], now)
    {
      assert PedidoRowInRange(t3.pedidosBase[id], clientIds, now);
    }
    forall p | p in t3.pagamentosBase && p !in t0.pagamentosBase
      ensures PagamentoFieldsInRange(t3.pagamentosBase[p], now)
    {
      assert PagamentoRowInRange(t3.pagamentosBase[p], orderIds, now);
    }
  }

  /** `populate_cassandra`: the customer loop, the product loop, then the order
      loop, each `INSERT` applied as it is issued. Nothing in the loops can
      raise here: `random.choice(client_ids)` has NUM_CLIENTES ids to choose
      from and `random.sample` is capped at `len(product_ids)`, so the
      `except` branches, which only report, are never taken. */
  method PopulateCassandra(s: CassandraSession, uuid: Uuid4, fake: Faker, now: DateTime)
    modifies s, uuid, fake
    ensures Tracked(old(s.ks), old(uuid.issued), old(fake.uniqueEmails)) ==>
      PopulatedRun(old(s.ks), s.ks, now) && Tracked(s.ks, uuid.issued, fake.uniqueEmails)
  {
    ghost var t0 := s.ks;
    ghost var tracked0 := Tracked(t0, uuid.issued, fake.uniqueEmails);
    var clientIds := PopularClientes(s, uuid, fake, now);
    ghost var t1 := s.ks;
    var productIds := PopularProdutos(s, uuid, fake);
    ghost var t2 := s.ks;
    var orderIds := PopularPedidos(s, uuid, fake, now, clientIds, productIds);
    assert orderIds.Success?;
    if tracked0 {
      PopulatedRunHolds(t0, t1, t2, s.ks, clientIds, orderIds.value, now);
    }
  }
}
