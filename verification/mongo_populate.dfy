/** The document-store loader: `gerar_clientes`, `gerar_produtos` and
    `gerar_pedidos` build the three collections in memory, appending one
    document per iteration; an order embeds its line items and its one payment
    and carries the total of its own items. `populate_mongodb` then inserts
    each list with `insert_many`. */
module MongoPopulate {
  import opened Base
  import opened Calendar
  import opened RandomSources

  const NUM_CLIENTES: nat := 20000
  const NUM_PRODUTOS: nat := 5000
  const NUM_PEDIDOS: nat := 30000

  datatype ClienteDoc = ClienteDoc(
    id: Uuid, nome: string, email: string, telefone: string,
    dataCadastro: DateTime, cpf: string)

  datatype ProdutoDoc = ProdutoDoc(
    id: Uuid, nome: string, categoria: string, preco: Cents, estoque: int)

  datatype ItemDoc = ItemDoc(idProduto: Uuid, quantidade: int, precoUnitario: Cents)

  datatype PagamentoDoc = PagamentoDoc(tipo: string, status: string, dataPagamento: DateTime)

  datatype PedidoDoc = PedidoDoc(
    id: Uuid, idCliente: Uuid, dataPedido: DateTime, status: string,
    itens: seq<ItemDoc>, valorTotal: Cents, pagamento: PagamentoDoc)

  /** `qtd * preco`, the amount one line adds to the order total. */
  function ItemAmount(it: ItemDoc): int {
    it.quantidade * it.precoUnitario
  }

  predicate ClienteInRange(c: ClienteDoc, now: DateTime) {
    Instant(now) - TWO_YEARS <= Instant(c.dataCadastro) <= Instant(now)
  }

  predicate ProdutoInRange(p: ProdutoDoc) {
    p.categoria in CATEGORIES && 1000 <= p.preco <= 500000 && 0 <= p.estoque <= 1000
  }

  predicate ItemInRange(it: ItemDoc) {
    1 <= it.quantidade <= 3 && 1000 <= it.precoUnitario <= 100000
  }

  predicate DistinctProducts(itens: seq<ItemDoc>) {
    forall i, j :: 0 <= i < j < |itens| ==> itens[i].idProduto != itens[j].idProduto
  }

  /** Everything `gerar_pedidos` promises of one order document. */
  predicate PedidoWellFormed(o: PedidoDoc, clientIds: seq<Uuid>, productIds: seq<Uuid>, now: DateTime) {
    && o.idCliente in clientIds
    && Instant(now) - ONE_YEAR <= Instant(o.dataPedido) <= Instant(now)
    && o.status in ORDER_STATUSES
    && 1 <= |o.itens| <= 5
    && (forall it :: it in o.itens ==> it.idProduto in productIds && ItemInRange(it))
    && (Distinct(productIds) ==> DistinctProducts(o.itens))
    && o.valorTotal == SumOf(o.itens, ItemAmount)
    && o.pagamento.tipo in PAYMENT_TYPES
    && o.pagamento.status in PAYMENT_STATUSES
    && Instant(now) - SIX_MONTHS <= Instant(o.pagamento.dataPagamento) <= Instant(now)
  }

  /** `gerar_clientes(n)`: n customer documents and the list of their ids, in the
      same order; emails and CPFs come from `fake.unique`, so none repeats. */
  method GerarClientes(n: nat, uuid: Uuid4, fake: Faker, now: DateTime)
    returns (clientes: seq<ClienteDoc>, ids: seq<Uuid>)
    modifies uuid, fake
    ensures |clientes| == n && |ids| == n
    ensures old(uuid.issued) <= uuid.issued && old(fake.uniqueEmails) <= fake.uniqueEmails
    ensures forall i :: 0 <= i < n ==> clientes[i].id == ids[i]
    ensures forall i :: 0 <= i < n ==> ids[i] in uuid.issued - old(uuid.issued)
    ensures Distinct(ids)
    ensures forall i :: 0 <= i < n ==> clientes[i].email in fake.uniqueEmails - old(fake.uniqueEmails)
    ensures forall i :: 0 <= i < n ==> clientes[i].cpf in fake.uniqueCpfs - old(fake.uniqueCpfs)
    ensures forall i, j :: 0 <= i < j < n ==> clientes[i].email != clientes[j].email
    ensures forall i, j :: 0 <= i < j < n ==> clientes[i].cpf != clientes[j].cpf
    ensures forall i :: 0 <= i < n ==> ClienteInRange(clientes[i], now)
  {
    clientes, ids := [], [];
    for k := 0 to n
      invariant |clientes| == k && |ids| == k
      invariant old(uuid.issued) <= uuid.issued
      invariant old(fake.uniqueEmails) <= fake.uniqueEmails
      invariant old(fake.uniqueCpfs) <= fake.uniqueCpfs
      invariant forall i :: 0 <= i < k ==> clientes[i].id == ids[i]
      invariant forall i :: 0 <= i < k ==> ids[i] in uuid.issued - old(uuid.issued)
      invariant Distinct(ids)
      invariant forall i :: 0 <= i < k ==> clientes[i].email in fake.uniqueEmails - old(fake.uniqueEmails)
      invariant forall i :: 0 <= i < k ==> clientes[i].cpf in fake.uniqueCpfs - old(fake.uniqueCpfs)
      invariant forall i, j :: 0 <= i < j < k ==> clientes[i].email != clientes[j].email
      invariant forall i, j :: 0 <= i < j < k ==> clientes[i].cpf != clientes[j].cpf
      invariant forall i :: 0 <= i < k ==> ClienteInRange(clientes[i], now)
    {
      var c := GerarCliente(uuid, fake, now);
      ids := ids + [c.id];
      clientes := clientes + [c];
    }
  }

  /** One pass of the loop body of `gerar_clientes`: a fresh uuid, a unique
      email and CPF, and a registration date within the last two years. */
  method GerarCliente(uuid: Uuid4, fake: Faker, now: DateTime) returns (c: ClienteDoc)
    modifies uuid, fake
    ensures c.id !in old(uuid.issued) && uuid.issued == old(uuid.issued) + {c.id}
    ensures c.email !in old(fake.uniqueEmails) && fake.uniqueEmails == old(fake.uniqueEmails) + {c.email}
    ensures c.cpf !in old(fake.uniqueCpfs) && fake.uniqueCpfs == old(fake.uniqueCpfs) + {c.cpf}
    ensures ClienteInRange(c, now)
  {
    var id := uuid.Next();
    var nome := fake.Text();
    var email := fake.UniqueEmail();
    var telefone := fake.Text();
    var dataCadastro := fake.DateTimeBetween(now, TWO_YEARS);
    var cpf := fake.UniqueCpf();
    c := ClienteDoc(id, nome, email, telefone, dataCadastro, cpf);
  }

  /** `gerar_produtos(n)`: n product documents and their ids, in the same order,
      each with a category from the eight, a price from 10.00 to 5000.00 and a
      stock from 0 to 1000. */
  method GerarProdutos(n: nat, uuid: Uuid4, fake: Faker)
    returns (produtos: seq<ProdutoDoc>, ids: seq<Uuid>)
    modifies uuid
    ensures |produtos| == n && |ids| == n
    ensures old(uuid.issued) <= uuid.issued
    ensures forall i :: 0 <= i < n ==> produtos[i].id == ids[i]
    ensures forall i :: 0 <= i < n ==> ids[i] in uuid.issued - old(uuid.issued)
    ensures Distinct(ids)
    ensures forall i :: 0 <= i < n ==> ProdutoInRange(produtos[i])
  {
    produtos, ids := [], [];
    for k := 0 to n
      invariant |produtos| == k && |ids| == k
      invariant old(uuid.issued) <= uuid.issued
      invariant forall i :: 0 <= i < k ==> produtos[i].id == ids[i]
      invariant forall i :: 0 <= i < k ==> ids[i] in uuid.issued - old(uuid.issued)
      invariant Distinct(ids)
      invariant forall i :: 0 <= i < k ==> ProdutoInRange(produtos[i])
    {
      var id := uuid.Next();
      ids := ids + [id];
      var nome := fake.Text();
      var categoria := Choice(CATEGORIES);
      var preco := RandInt(1000, 500000);
      var estoque := RandInt(0, 1000);
      produtos := produtos + [ProdutoDoc(id, nome, categoria.value, preco, estoque)];
    }
  }

  /** The inner loop of `gerar_pedidos`: one line per selected product, with a
      quantity from 1 to 3 and a unit price from 10.00 to 1000.00, while `total`
      accumulates quantity times unit price. */
  method DrawItems(selected: seq<Uuid>) returns (itens: seq<ItemDoc>, total: Cents)
    ensures |itens| == |selected|
    ensures forall i :: 0 <= i < |itens| ==> itens[i].idProduto == selected[i] && ItemInRange(itens[i])
    ensures total == SumOf(itens, ItemAmount)
  {
    itens, total := [], 0;
    for k := 0 to |selected|
      invariant |itens| == k
      invariant forall i :: 0 <= i < k ==> itens[i].idProduto == selected[i] && ItemInRange(itens[i])
      invariant total == SumOf(itens, ItemAmount)
    {
      var qtd := RandInt(1, 3);
      var preco := RandInt(1000, 100000);
      var item := ItemDoc(selected[k], qtd, preco);
      SumOfAppend(itens, item, ItemAmount);
      total := total + qtd * preco;
      itens := itens + [item];
    }
  }

  /** One iteration of `gerar_pedidos`: a fresh order id, a customer drawn from
      `client_ids`, one to five products sampled from `product_ids` without
      replacement, their lines and total, and the one embedded payment. */
  method GerarPedido(clientIds: seq<Uuid>, productIds: seq<Uuid>, uuid: Uuid4, fake: Faker, now: DateTime)
    returns (r: Result<PedidoDoc>)
    modifies uuid
    ensures r.Success? ==> uuid.issued == old(uuid.issued) + {r.value.id}
    ensures r.Success? ==> |clientIds| > 0 && |productIds| > 0
    ensures old(uuid.issued) <= uuid.issued
    ensures |clientIds| == 0 ==> r == Failure(IndexError)
    ensures |clientIds| > 0 && |productIds| == 0 ==> r == Failure(ValueError)
    ensures |clientIds| > 0 && |productIds| >= 5 ==> r.Success?
    ensures r.Failure? ==> r.error == IndexError || (r.error == ValueError && |productIds| < 5)
    ensures r.Success? ==> r.value.id !in old(uuid.issued)
    ensures r.Success? ==> PedidoWellFormed(r.value, clientIds, productIds, now)
  {
    var orderId := uuid.Next();
    var clientId := Choice(clientIds);
    if clientId.Failure? {
      return Failure(clientId.error);
    }
    var dataPedido := fake.DateTimeBetween(now, ONE_YEAR);
    var status := Choice(ORDER_STATUSES);
    var numItems := RandInt(1, 5);
    var selected := Sample(productIds, numItems);
    if selected.Failure? {
      return Failure(selected.error);
    }
    var itens, total := DrawItems(selected.value);
    assert forall it :: it in itens ==> it.idProduto in productIds;
    var tipo := Choice(PAYMENT_TYPES);
    var estado := Choice(PAYMENT_STATUSES);
    var dataPagamento := fake.DateTimeBetween(now, SIX_MONTHS);
    var pagamento := PagamentoDoc(tipo.value, estado.value, dataPagamento);
    r := Success(PedidoDoc(orderId, clientId.value, dataPedido, status.value, itens, total, pagamento));
  }

  /** `gerar_pedidos(n, client_ids, product_ids)`: n order documents. Each picks
      its customer from `client_ids`, between one and five distinct products
      from `product_ids` and exactly one embedded payment, and stores the sum of
      its own lines as `valor_total`. There is no guard on `random.sample`: with
      fewer than five products an order may ask for more than there are and the
      call raises ValueError; with no customers `random.choice` raises
      IndexError. */
  method GerarPedidos(n: nat, clientIds: seq<Uuid>, productIds: seq<Uuid>,
                      uuid: Uuid4, fake: Faker, now: DateTime)
    returns (r: Result<seq<PedidoDoc>>)
    modifies uuid
    ensures n > 0 && |clientIds| == 0 ==> r == Failure(IndexError)
    ensures n > 0 && |clientIds| > 0 && |productIds| == 0 ==> r == Failure(ValueError)
    ensures n == 0 || (|clientIds| > 0 && |productIds| >= 5) ==> r.Success?
    ensures r.Failure? ==> r.error == IndexError || (r.error == ValueError && |productIds| < 5)
    ensures r.Success? ==> |r.value| == n
    ensures old(uuid.issued) <= uuid.issued
    ensures r.Success? ==> forall i :: 0 <= i < n ==> PedidoWellFormed(r.value[i], clientIds, productIds, now)
    ensures r.Success? ==> forall i :: 0 <= i < n ==> r.value[i].id in uuid.issued - old(uuid.issued)
    ensures r.Success? ==> forall i, j :: 0 <= i < j < n ==> r.value[i].id != r.value[j].id
  {
    var pedidos: seq<PedidoDoc> := [];
    for k := 0 to n
      invariant |pedidos| == k
      invariant k > 0 ==> |clientIds| > 0 && |productIds| > 0
      invariant old(uuid.issued) <= uuid.issued
      invariant forall i :: 0 <= i < k ==> PedidoWellFormed(pedidos[i], clientIds, productIds, now)
      invariant forall i :: 0 <= i < k ==> pedidos[i].id in uuid.issued - old(uuid.issued)
      invariant forall i, j :: 0 <= i < j < k ==> pedidos[i].id != pedidos[j].id
    {
      var pedido := GerarPedido(clientIds, productIds, uuid, fake, now);
      if pedido.Failure? {
        return Failure(pedido.error);
      }
      pedidos := pedidos + [pedido.value];
    }
    r := Success(pedidos);
  }

  /** One line adds between 10.00 (one unit at the lowest price) and 3 000.00
      (three units at the highest). */
  lemma ItemAmountBounds(it: ItemDoc)
    requires ItemInRange(it)
    ensures 1000 <= ItemAmount(it) <= 300000
  {
    var q, p := it.quantidade, it.precoUnitario;
    assert q * p == p + (q - 1) * p;
    assert (q - 1) * p <= 2 * p by {
      assert (q - 1) * p + (3 - q) * p == 2 * p;
    }
  }

  /** The line items of a well-formed order add up to between 10.00 and
      15 000.00: one to five lines of 10.00 to 3 000.00 each. */
  lemma PedidoTotalBounds(o: PedidoDoc, clientIds: seq<Uuid>, productIds: seq<Uuid>, now: DateTime)
    requires PedidoWellFormed(o, clientIds, productIds, now)
    ensures 1000 <= o.valorTotal <= 1_500_000
  {
    var itens := o.itens;
    assert 1 <= |itens| <= 5;
    forall it | it in itens
      ensures 1000 <= ItemAmount(it) <= 300000
    {
      ItemAmountBounds(it);
    }
    SumOfBounds(itens, ItemAmount, 1000, 300000);
  }

  /** The three collections of `techmarket_db`; `insert_many` appends a batch
      of documents to one of them. */
  /** How many of `docs` an ordered `insert_many` stores into a collection
      that holds `stored`: it inserts them one after the other and stops at
      the first one a unique index rejects, raising BulkWriteError. */
  function Admitted<T>(stored: seq<T>, docs: seq<T>, admissible: (seq<T>, T) -> bool): (n: nat)
    ensures n <= |docs|
    ensures forall k :: 0 <= k < n ==> admissible(stored + docs[..k], docs[k])
    ensures n < |docs| ==> !admissible(stored + docs[..n], docs[n])
    decreases |docs|
  {
    if docs == [] then 0
    else
      ShiftedPrefixes(stored, docs);
      if !admissible(stored, docs[0]) then 0
      else 1 + Admitted(stored + [docs[0]], docs[1..], admissible)
  }

  lemma ShiftedPrefixes<T>(stored: seq<T>, docs: seq<T>)
    requires docs != []
    ensures stored + docs[..0] == stored
    ensures forall k :: 0 < k <= |docs| ==> stored + docs[..k] == (stored + [docs[0]]) + docs[1..][..k - 1]
    ensures forall k :: 0 < k < |docs| ==> docs[1..][k - 1] == docs[k]
  {
    assert docs[..0] == [];
    forall k | 0 < k <= |docs|
      ensures stored + docs[..k] == (stored + [docs[0]]) + docs[1..][..k - 1]
    {
      assert docs[..k] == [docs[0]] + docs[1..][..k - 1];
    }
  }

  /** The unique indexes on `clientes`: `_id`, and `email` (created by
      `create_indexes_mongodb`). */
  predicate ClienteAdmissible(stored: seq<ClienteDoc>, c: ClienteDoc) {
    forall d :: d in stored ==> d.id != c.id && d.email != c.email
  }

  /** The only unique index on `produtos` is `_id`. */
  predicate ProdutoAdmissible(stored: seq<ProdutoDoc>, p: ProdutoDoc) {
    forall d :: d in stored ==> d.id != p.id
  }

  /** The only unique index on `pedidos` is `_id`. */
  predicate PedidoAdmissible(stored: seq<PedidoDoc>, o: PedidoDoc) {
    forall d :: d in stored ==> d.id != o.id
  }

  /** No two customers share an `_id` or an `email`. */
  predicate ClienteKeysUnique(cs: seq<ClienteDoc>) {
    forall i, j :: 0 <= i < j < |cs| ==> cs[i].id != cs[j].id && cs[i].email != cs[j].email
  }

  /** An ordered insert keeps the customer indexes free of repeats. */
  lemma AdmittedClientesUnique(stored: seq<ClienteDoc>, docs: seq<ClienteDoc>)
    requires ClienteKeysUnique(stored)
    ensures ClienteKeysUnique(stored + docs[..Admitted(stored, docs, ClienteAdmissible)])
  {
    var n := Admitted(stored, docs, ClienteAdmissible);
    var cs := stored + docs[..n];
    forall i, j | 0 <= i < j < |cs|
      ensures cs[i].id != cs[j].id && cs[i].email != cs[j].email
    {
      if j >= |stored| {
        var k := j - |stored|;
        assert ClienteAdmissible(stored + docs[..k], docs[k]);
        assert cs[..j] == stored + docs[..k];
        assert cs[i] in cs[..j];
      }
    }
  }

  /** Customers whose ids and emails are new to the store and to each other
      are all inserted. */
  lemma FreshClientesAdmitted(stored: seq<ClienteDoc>, docs: seq<ClienteDoc>, ids: set<Uuid>, emails: set<string>)
    requires forall d :: d in stored ==> d.id in ids && d.email in emails
    requires forall i :: 0 <= i < |docs| ==> docs[i].id !in ids && docs[i].email !in emails
    requires ClienteKeysUnique(docs)
    ensures Admitted(stored, docs, ClienteAdmissible) == |docs|
  {
    forall k | 0 <= k < |docs|
      ensures ClienteAdmissible(stored + docs[..k], docs[k])
    {
      forall d | d in stored + docs[..k]
        ensures d.id != docs[k].id && d.email != docs[k].email
      {
        if d !in stored {
          var i :| 0 <= i < k && docs[..k][i] == d;
        }
      }
    }
  }

  /** Products whose ids are new to the store and to each other are all
      inserted. */
  lemma FreshProdutosAdmitted(stored: seq<ProdutoDoc>, docs: seq<ProdutoDoc>, ids: set<Uuid>)
    requires forall d :: d in stored ==> d.id in ids
    requires forall i :: 0 <= i < |docs| ==> docs[i].id !in ids
    requires forall i, j :: 0 <= i < j < |docs| ==> docs[i].id != docs[j].id
    ensures Admitted(stored, docs, ProdutoAdmissible) == |docs|
  {
    forall k | 0 <= k < |docs|
      ensures ProdutoAdmissible(stored + docs[..k], docs[k])
    {
      forall d | d in stored + docs[..k]
        ensures d.id != docs[k].id
      {
        if d !in stored {
          var i :| 0 <= i < k && docs[..k][i] == d;
        }
      }
    }
  }

  /** Orders whose ids are new to the store and to each other are all
      inserted. */
  lemma FreshPedidosAdmitted(stored: seq<PedidoDoc>, docs: seq<PedidoDoc>, ids: set<Uuid>)
    requires forall d :: d in stored ==> d.id in ids
    requires forall i :: 0 <= i < |docs| ==> docs[i].id !in ids
    requires forall i, j :: 0 <= i < j < |docs| ==> docs[i].id != docs[j].id
    ensures Admitted(stored, docs, PedidoAdmissible) == |docs|
  {
    forall k | 0 <= k < |docs|
      ensures PedidoAdmissible(stored + docs[..k], docs[k])
    {
      forall d | d in stored + docs[..k]
        ensures d.id != docs[k].id
      {
        if d !in stored {
          var i :| 0 <= i < k && docs[..k][i] == d;
        }
      }
    }
  }

  /** The database `techmarket_db`: its three collections, whose documents
      `insert_many` appends in order until a unique index rejects one. */
  class MongoDb {
    var clientes: seq<ClienteDoc>
    var produtos: seq<ProdutoDoc>
    var pedidos: seq<PedidoDoc>

    constructor ()
      ensures clientes == [] && produtos == [] && pedidos == []
    {
      clientes, produtos, pedidos := [], [], [];
    }

    /** `ok` is false when BulkWriteError is raised; the documents before the
        rejected one stay inserted, and the indexes still admit no repeat. */
    method InsertClientes(docs: seq<ClienteDoc>) returns (ok: bool)
      modifies this
      ensures clientes == old(clientes) + docs[..Admitted(old(clientes), docs, ClienteAdmissible)]
      ensures ok == (Admitted(old(clientes), docs, ClienteAdmissible) == |docs|)
      ensures ClienteKeysUnique(old(clientes)) ==> ClienteKeysUnique(clientes)
      ensures produtos == old(produtos) && pedidos == old(pedidos)
    {
      var n := Admitted(clientes, docs, ClienteAdmissible);
      if ClienteKeysUnique(clientes) {
        AdmittedClientesUnique(clientes, docs);
      }
      clientes := clientes + docs[..n];
      ok := n == |docs|;
    }

    method InsertProdutos(docs: seq<ProdutoDoc>) returns (ok: bool)
      modifies this
      ensures produtos == old(produtos) + docs[..Admitted(old(produtos), docs, ProdutoAdmissible)]
      ensures ok == (Admitted(old(produtos), docs, ProdutoAdmissible) == |docs|)
      ensures clientes == old(clientes) && pedidos == old(pedidos)
    {
      var n := Admitted(produtos, docs, ProdutoAdmissible);
      produtos := produtos + docs[..n];
      ok := n == |docs|;
    }

    method InsertPedidos(docs: seq<PedidoDoc>) returns (ok: bool)
      modifies this
      ensures pedidos == old(pedidos) + docs[..Admitted(old(pedidos), docs, PedidoAdmissible)]
      ensures ok == (Admitted(old(pedidos), docs, PedidoAdmissible) == |docs|)
      ensures clientes == old(clientes) && produtos == old(produtos)
    {
      var n := Admitted(pedidos, docs, PedidoAdmissible);
      pedidos := pedidos + docs[..n];
      ok := n == |docs|;
    }
  }

  /** Every document already stored has an id this process's uuid4 issued,
      and every stored email came from its `fake.unique`. An empty database
      satisfies this. */
  predicate MongoTracked(clientes: seq<ClienteDoc>, produtos: seq<ProdutoDoc>, pedidos: seq<PedidoDoc>,
                         ids: set<Uuid>, emails: set<string>) {
    && (forall c :: c in clientes ==> c.id in ids && c.email in emails)
    && (forall p :: p in produtos ==> p.id in ids)
    && (forall o :: o in pedidos ==> o.id in ids)
  }

  /** Every order names the id of one of `clientes` as its customer and the
      id of one of `produtos` in each of its lines. */
  predicate RefersTo(pedidos: seq<PedidoDoc>, clientes: seq<ClienteDoc>, produtos: seq<ProdutoDoc>) {
    && (forall o :: o in pedidos ==> exists c :: c in clientes && c.id == o.idCliente)
    && (forall o, it :: o in pedidos && it in o.itens ==> exists p :: p in produtos && p.id == it.idProduto)
  }

  /** `after` is `before` followed by the first few of `docs`: what an ordered
      `insert_many` of `docs` leaves in a collection that held `before`. */
  predicate StoredPrefix<T(==)>(before: seq<T>, after: seq<T>, docs: seq<T>) {
    |before| <= |after| <= |before| + |docs| && after == before + docs[..|after| - |before|]
  }

  /** What `gerar_clientes` promises of its batch: no two customers share an
      id, an email or a CPF, and every registration date is in range. */
  predicate ClientesBatch(cs: seq<ClienteDoc>, now: DateTime) {
    && ClienteKeysUnique(cs)
    && (forall i, j :: 0 <= i < j < |cs| ==> cs[i].cpf != cs[j].cpf)
    && (forall i :: 0 <= i < |cs| ==> ClienteInRange(cs[i], now))
  }

  /** What `gerar_produtos` promises of its batch: distinct ids, every
      document in range. */
  predicate ProdutosBatch(ps: seq<ProdutoDoc>) {
    && (forall i, j :: 0 <= i < j < |ps| ==> ps[i].id != ps[j].id)
    && (forall i :: 0 <= i < |ps| ==> ProdutoInRange(ps[i]))
  }

  /** What `gerar_pedidos` promises of its batch: distinct ids, every order
      well formed over the two id lists. */
  predicate PedidosBatch(os: seq<PedidoDoc>, clientIds: seq<Uuid>, productIds: seq<Uuid>, now: DateTime) {
    && (forall i, j :: 0 <= i < j < |os| ==> os[i].id != os[j].id)
    && (forall i :: 0 <= i < |os| ==> PedidoWellFormed(os[i], clientIds, productIds, now))
  }

  /** The ids of a list of customers, in order. */
  function ClienteIds(cs: seq<ClienteDoc>): seq<Uuid> {
    seq(|cs|, i requires 0 <= i < |cs| => cs[i].id)
  }

  /** The ids of a list of products, in order. */
  function ProdutoIds(ps: seq<ProdutoDoc>): seq<Uuid> {
    seq(|ps|, i requires 0 <= i < |ps| => ps[i].id)
  }

  /** Whatever part of a generated batch an ordered insert stores keeps the
      batch's promises. */
  lemma StoredBatchesKeepPromises(cs: seq<ClienteDoc>, ps: seq<ProdutoDoc>, os: seq<PedidoDoc>,
                                  clientIds: seq<Uuid>, productIds: seq<Uuid>, now: DateTime,
                                  nc: nat, np: nat, no: nat)
    requires ClientesBatch(cs, now) && ProdutosBatch(ps) && PedidosBatch(os, clientIds, productIds, now)
    requires nc <= |cs| && np <= |ps| && no <= |os|
    ensures ClientesBatch(cs[..nc], now) && ProdutosBatch(ps[..np])
    ensures PedidosBatch(os[..no], clientIds, productIds, now)
  {
    var c, p, o := cs[..nc], ps[..np], os[..no];
    assert forall i :: 0 <= i < nc ==> c[i] == cs[i];
    assert forall i :: 0 <= i < np ==> p[i] == ps[i];
    assert forall i :: 0 <= i < no ==> o[i] == os[i];
  }

  /** Orders generated from the id lists that came with `clientes` and
      `produtos` refer only to those documents. */
  lemma GeneratedOrdersReferToGenerated(pedidos: seq<PedidoDoc>, clientes: seq<ClienteDoc>, clientIds: seq<Uuid>,
                                        produtos: seq<ProdutoDoc>, productIds: seq<Uuid>, now: DateTime)
    requires |clientes| == |clientIds| && forall i :: 0 <= i < |clientes| ==> clientes[i].id == clientIds[i]
    requires |produtos| == |productIds| && forall i :: 0 <= i < |produtos| ==> produtos[i].id == productIds[i]
    requires forall i :: 0 <= i < |pedidos| ==> PedidoWellFormed(pedidos[i], clientIds, productIds, now)
    ensures RefersTo(pedidos, clientes, produtos)
  {
    forall o | o in pedidos
      ensures exists c :: c in clientes && c.id == o.idCliente
    {
      var i :| 0 <= i < |pedidos| && pedidos[i] == o;
      assert PedidoWellFormed(o, clientIds, productIds, now);
      var k :| 0 <= k < |clientIds| && clientIds[k] == o.idCliente;
      assert clientes[k] in clientes;
    }
    forall o, it | o in pedidos && it in o.itens
      ensures exists p :: p in produtos && p.id == it.idProduto
    {
      var i :| 0 <= i < |pedidos| && pedidos[i] == o;
      assert PedidoWellFormed(o, clientIds, productIds, now);
      var k :| 0 <= k < |productIds| && productIds[k] == it.idProduto;
      assert produtos[k] in produtos;
    }
  }

  /** The customer step of `populate_mongodb`: `gerar_clientes`, then
      `insert_many`. Starting from a database whose keys all came from this
      process's generators, every customer goes in and that stays so. */
  method InserirClientes(db: MongoDb, uuid: Uuid4, fake: Faker, now: DateTime)
    returns (clientes: seq<ClienteDoc>, clientIds: seq<Uuid>, ok: bool)
    modifies db, uuid, fake
    ensures |clientes| == NUM_CLIENTES && |clientIds| == NUM_CLIENTES
    ensures forall i :: 0 <= i < NUM_CLIENTES ==> clientes[i].id == clientIds[i]
    ensures ClientesBatch(clientes, now)
    ensures forall i :: 0 <= i < NUM_CLIENTES ==> clientIds[i] in uuid.issued - old(uuid.issued)
    ensures forall i :: 0 <= i < NUM_CLIENTES ==>
      clientes[i].email in fake.uniqueEmails - old(fake.uniqueEmails) && clientes[i].cpf in fake.uniqueCpfs - old(fake.uniqueCpfs)
    ensures old(db.clientes) <= db.clientes && |db.clientes| <= |old(db.clientes)| + NUM_CLIENTES
    ensures StoredPrefix(old(db.clientes), db.clientes, clientes)
    ensures ok <==> db.clientes == old(db.clientes) + clientes
    ensures db.produtos == old(db.produtos) && db.pedidos == old(db.pedidos)
    ensures ClienteKeysUnique(old(db.clientes)) ==> ClienteKeysUnique(db.clientes)
    ensures old(uuid.issued) <= uuid.issued
    ensures MongoTracked(old(db.clientes), db.produtos, db.pedidos, old(uuid.issued), old(fake.uniqueEmails)) ==>
      ok && MongoTracked(db.clientes, db.produtos, db.pedidos, uuid.issued, fake.uniqueEmails)
  {
    ghost var tracked := MongoTracked(db.clientes, db.produtos, db.pedidos, uuid.issued, fake.uniqueEmails);
    clientes, clientIds := GerarClientes(NUM_CLIENTES, uuid, fake, now);
    if tracked {
      FreshClientesAdmitted(db.clientes, clientes, old(uuid.issued), old(fake.uniqueEmails));
    }
    ok := db.InsertClientes(clientes);
    assert clientes[..|clientes|] == clientes;
    assert db.clientes == old(db.clientes) + clientes[..|db.clientes| - |old(db.clientes)|];
  }

  /** The product step: `gerar_produtos`, then `insert_many`. */
  method InserirProdutos(db: MongoDb, uuid: Uuid4, fake: Faker)
    returns (produtos: seq<ProdutoDoc>, productIds: seq<Uuid>, ok: bool)
    modifies db, uuid
    ensures |produtos| == NUM_PRODUTOS && |productIds| == NUM_PRODUTOS
    ensures forall i :: 0 <= i < NUM_PRODUTOS ==> produtos[i].id == productIds[i]
    ensures ProdutosBatch(produtos)
    ensures forall i :: 0 <= i < NUM_PRODUTOS ==> productIds[i] in uuid.issued - old(uuid.issued)
    ensures old(db.produtos) <= db.produtos && |db.produtos| <= |old(db.produtos)| + NUM_PRODUTOS
    ensures StoredPrefix(old(db.produtos), db.produtos, produtos)
    ensures ok <==> db.produtos == old(db.produtos) + produtos
    ensures db.clientes == old(db.clientes) && db.pedidos == old(db.pedidos)
    ensures old(uuid.issued) <= uuid.issued
    ensures MongoTracked(db.clientes, old(db.produtos), db.pedidos, old(uuid.issued), fake.uniqueEmails) ==>
      ok && MongoTracked(db.clientes, db.produtos, db.pedidos, uuid.issued, fake.uniqueEmails)
  {
    ghost var tracked := MongoTracked(db.clientes, db.produtos, db.pedidos, uuid.issued, fake.uniqueEmails);
    produtos, productIds := GerarProdutos(NUM_PRODUTOS, uuid, fake);
    if tracked {
      FreshProdutosAdmitted(db.produtos, produtos, old(uuid.issued));
    }
    ok := db.InsertProdutos(produtos);
    assert produtos[..|produtos|] == produtos;
    assert db.produtos == old(db.produtos) + produtos[..|db.produtos| - |old(db.produtos)|];
  }

  /** The order step: `gerar_pedidos` over the ids of the customers and
      products just generated, then `insert_many`. The orders generated are
      well formed with fresh, distinct ids, and `pedidos` gains the first few
      of them, all of them exactly on success. When every order goes in, each
      one refers to those customers and products. */
  method InserirPedidos(db: MongoDb, uuid: Uuid4, fake: Faker, now: DateTime,
                        clientes: seq<ClienteDoc>, clientIds: seq<Uuid>,
                        produtos: seq<ProdutoDoc>, productIds: seq<Uuid>)
    returns (pedidos: seq<PedidoDoc>, ok: bool)
    requires |clientes| == NUM_CLIENTES && |clientIds| == NUM_CLIENTES
    requires forall i :: 0 <= i < NUM_CLIENTES ==> clientes[i].id == clientIds[i]
    requires |produtos| == NUM_PRODUTOS && |productIds| == NUM_PRODUTOS
    requires forall i :: 0 <= i < NUM_PRODUTOS ==> produtos[i].id == productIds[i]
    modifies db, uuid
    ensures |pedidos| == NUM_PEDIDOS && PedidosBatch(pedidos, clientIds, productIds, now)
    ensures forall i :: 0 <= i < NUM_PEDIDOS ==> pedidos[i].id in uuid.issued - old(uuid.issued)
    ensures old(db.pedidos) <= db.pedidos && |db.pedidos| <= |old(db.pedidos)| + NUM_PEDIDOS
    ensures StoredPrefix(old(db.pedidos), db.pedidos, pedidos)
    ensures ok <==> db.pedidos == old(db.pedidos) + pedidos
    ensures ok <==> |db.pedidos| == |old(db.pedidos)| + NUM_PEDIDOS
    ensures old(uuid.issued) <= uuid.issued
    ensures db.clientes == old(db.clientes) && db.produtos == old(db.produtos)
    ensures MongoTracked(db.clientes, db.produtos, old(db.pedidos), old(uuid.issued), fake.uniqueEmails) ==> ok
    ensures ok ==> RefersTo(db.pedidos[|old(db.pedidos)|..], clientes, produtos)
  {
    var generated := GerarPedidos(NUM_PEDIDOS, clientIds, productIds, uuid, fake, now);
    pedidos := generated.value;
    ok := StorePedidos(db, pedidos, old(uuid.issued));
    if ok {
      GeneratedOrdersReferToGenerated(pedidos, clientes, clientIds, produtos, productIds, now);
    }
  }

  /** The `insert_many` of the order step: `pedidos` gains the first few of
      the batch, all of it exactly on success, and all of it when neither the
      stored orders nor each other share an id with the batch. */
  method StorePedidos(db: MongoDb, pedidos: seq<PedidoDoc>, ghost issued: set<Uuid>) returns (ok: bool)
    modifies db
    ensures StoredPrefix(old(db.pedidos), db.pedidos, pedidos)
    ensures ok <==> db.pedidos == old(db.pedidos) + pedidos
    ensures ok <==> |db.pedidos| == |old(db.pedidos)| + |pedidos|
    ensures ok ==> db.pedidos[|old(db.pedidos)|..] == pedidos
    ensures db.clientes == old(db.clientes) && db.produtos == old(db.produtos)
    ensures && (forall o :: o in old(db.pedidos) ==> o.id in issued)
            && (forall i :: 0 <= i < |pedidos| ==> pedidos[i].id !in issued)
            && (forall i, j :: 0 <= i < j < |pedidos| ==> pedidos[i].id != pedidos[j].id)
            ==> ok
  {
    if (forall o :: o in db.pedidos ==> o.id in issued) &&
       (forall i :: 0 <= i < |pedidos| ==> pedidos[i].id !in issued) &&
       (forall i, j :: 0 <= i < j < |pedidos| ==> pedidos[i].id != pedidos[j].id) {
      FreshPedidosAdmitted(db.pedidos, pedidos, issued);
    }
    ok := db.InsertPedidos(pedidos);
    assert pedidos[..|pedidos|] == pedidos;
    assert db.pedidos == old(db.pedidos) + pedidos[..|db.pedidos| - |old(db.pedidos)|];
  }

  /** `populate_mongodb`: generate and insert the customers, then the products,
      then the orders; the first BulkWriteError is caught by the `except` and
      skips whatever remains. Nothing stored is removed, and the unique
      indexes on `clientes` stay free of repeats. A batch is short only when
      an id or email it generated was already stored, which cannot happen
      when every stored key came from this process's generators: then, since
      with 20 000 customers and 5 000 products neither `random.choice` nor
      `random.sample` can raise, all three batches are inserted in full. When
      the orders are all inserted, every one of them refers to a customer and
      to products inserted in this same run. Whatever part of each batch is
      stored keeps what its generator promised: customers with fresh ids,
      emails and CPFs, no two alike, dated within two years; products with
      fresh, distinct ids, in range; orders with fresh, distinct ids, well
      formed over the ids of the customers and products this run stored. */
  method PopulateMongoDb(db: MongoDb, uuid: Uuid4, fake: Faker, now: DateTime)
    modifies db, uuid, fake
    ensures old(db.clientes) <= db.clientes && old(db.produtos) <= db.produtos && old(db.pedidos) <= db.pedidos
    ensures |db.clientes| <= |old(db.clientes)| + NUM_CLIENTES
    ensures |db.produtos| <= |old(db.produtos)| + NUM_PRODUTOS
    ensures |db.pedidos| <= |old(db.pedidos)| + NUM_PEDIDOS
    ensures ClienteKeysUnique(old(db.clientes)) ==> ClienteKeysUnique(db.clientes)
    ensures |db.clientes| < |old(db.clientes)| + NUM_CLIENTES ==> db.produtos == old(db.produtos)
    ensures |db.produtos| < |old(db.produtos)| + NUM_PRODUTOS ==> db.pedidos == old(db.pedidos)
    ensures MongoTracked(old(db.clientes), old(db.produtos), old(db.pedidos), old(uuid.issued), old(fake.uniqueEmails)) ==>
      |db.pedidos| == |old(db.pedidos)| + NUM_PEDIDOS
    ensures |db.pedidos| == |old(db.pedidos)| + NUM_PEDIDOS ==>
      && |db.clientes| == |old(db.clientes)| + NUM_CLIENTES
      && |db.produtos| == |old(db.produtos)| + NUM_PRODUTOS
      && RefersTo(db.pedidos[|old(db.pedidos)|..], db.clientes[|old(db.clientes)|..], db.produtos[|old(db.produtos)|..])
    ensures ClientesBatch(db.clientes[|old(db.clientes)|..], now)
    ensures ProdutosBatch(db.produtos[|old(db.produtos)|..])
    ensures PedidosBatch(db.pedidos[|old(db.pedidos)|..],
                         ClienteIds(db.clientes[|old(db.clientes)|..]), ProdutoIds(db.produtos[|old(db.produtos)|..]), now)
    ensures forall c :: c in db.clientes[|old(db.clientes)|..] ==>
      && c.id in uuid.issued - old(uuid.issued)
      && c.email in fake.uniqueEmails - old(fake.uniqueEmails) && c.cpf in fake.uniqueCpfs - old(fake.uniqueCpfs)
    ensures forall p :: p in db.produtos[|old(db.produtos)|..] ==> p.id in uuid.issued - old(uuid.issued)
    ensures forall o :: o in db.pedidos[|old(db.pedidos)|..] ==> o.id in uuid.issued - old(uuid.issued)
  {
    var clientes, clientIds, ok := InserirClientes(db, uuid, fake, now);
    ghost var newClientes := db.clientes[|old(db.clientes)|..];
    assert newClientes == clientes[..|newClientes|];
    StoredBatchesKeepPromises(clientes, [], [], [], [], now, |newClientes|, 0, 0);
    if !ok {
      return;
    }
    var produtos, productIds;
    produtos, productIds, ok := InserirProdutos(db, uuid, fake);
    ghost var newProdutos := db.produtos[|old(db.produtos)|..];
    assert newProdutos == produtos[..|newProdutos|];
    StoredBatchesKeepPromises([], produtos, [], [], [], now, 0, |newProdutos|, 0);
    if !ok {
      return;
    }
    var pedidos;
    pedidos, ok := InserirPedidos(db, uuid, fake, now, clientes, clientIds, produtos, productIds);
    assert newClientes == clientes && newProdutos == produtos;
    assert ClienteIds(newClientes) == clientIds && ProdutoIds(newProdutos) == productIds;
    ghost var newPedidos := db.pedidos[|old(db.pedidos)|..];
    assert newPedidos == pedidos[..|newPedidos|];
    StoredBatchesKeepPromises([], [], pedidos, clientIds, productIds, now, 0, 0, |newPedidos|);
  }
}
