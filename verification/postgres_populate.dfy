/** The relational loader: `populate_postgres` inserts customers, products,
    orders with their line items, and payments, row by row, into five
    normalised tables. The database itself enforces the schema's keys: a row
    whose PRIMARY KEY or UNIQUE column repeats, or whose FOREIGN KEY names no
    existing row, is rejected with an IntegrityError, and the loader then rolls
    back its uncommitted work. Each of the four phases ends with a commit. */
module PostgresPopulate {
  import opened Base
  import opened Calendar
  import opened RandomSources

  const NUM_CLIENTES: nat := 20000
  const NUM_PRODUTOS: nat := 5000
  const NUM_PEDIDOS: nat := 30000
  const NUM_PAGAMENTOS: nat := 30000

  datatype ClienteRow = ClienteRow(
    id: Uuid, nome: string, email: string, telefone: string,
    dataCadastro: DateTime, cpf: string)

  datatype ProdutoRow = ProdutoRow(
    id: Uuid, nome: string, categoria: string, preco: Cents, estoque: int)

  datatype PedidoRow = PedidoRow(
    id: Uuid, idCliente: Uuid, dataPedido: DateTime, status: string, valorTotal: Cents)

  datatype ItemPedidoRow = ItemPedidoRow(
    idPedido: Uuid, idProduto: Uuid, quantidade: int, precoUnitario: Cents)

  datatype PagamentoRow = PagamentoRow(
    id: Uuid, idPedido: Uuid, tipo: string, status: string, dataPagamento: DateTime)

  /** The contents of the five tables, in insertion order. */
  datatype Tables = Tables(
    cliente: seq<ClienteRow>, produto: seq<ProdutoRow>, pedido: seq<PedidoRow>,
    itemPedido: seq<ItemPedidoRow>, pagamento: seq<PagamentoRow>)

  const EMPTY: Tables := Tables([], [], [], [], [])

  predicate HasCliente(t: Tables, id: Uuid) {
    exists i :: 0 <= i < |t.cliente| && t.cliente[i].id == id
  }

  predicate HasProduto(t: Tables, id: Uuid) {
    exists i :: 0 <= i < |t.produto| && t.produto[i].id == id
  }

  predicate HasPedido(t: Tables, id: Uuid) {
    exists i :: 0 <= i < |t.pedido| && t.pedido[i].id == id
  }

  /** Cliente: `id` is the primary key, `email` and `cpf` are UNIQUE. */
  predicate ClienteAdmissible(t: Tables, row: ClienteRow) {
    forall c :: c in t.cliente ==> c.id != row.id && c.email != row.email && c.cpf != row.cpf
  }

  /** Produto: `id` is the primary key. */
  predicate ProdutoAdmissible(t: Tables, row: ProdutoRow) {
    forall p :: p in t.produto ==> p.id != row.id
  }

  /** Pedido: `id` is the primary key and `id_cliente` references Cliente. */
  predicate PedidoAdmissible(t: Tables, row: PedidoRow) {
    (forall o :: o in t.pedido ==> o.id != row.id) && HasCliente(t, row.idCliente)
  }

  /** ItemPedido: `(id_pedido, id_produto)` is the primary key, and the two
      columns reference Pedido and Produto. */
  predicate ItemAdmissible(t: Tables, row: ItemPedidoRow) {
    && (forall it :: it in t.itemPedido ==> it.idPedido != row.idPedido || it.idProduto != row.idProduto)
    && HasPedido(t, row.idPedido)
    && HasProduto(t, row.idProduto)
  }

  /** Pagamento: `id` is the primary key and `id_pedido` references Pedido. */
  predicate PagamentoAdmissible(t: Tables, row: PagamentoRow) {
    (forall pg :: pg in t.pagamento ==> pg.id != row.id) && HasPedido(t, row.idPedido)
  }

  /** The line items of one order: all carry the id of an order that exists and
      that no row already in ItemPedido names, their products exist and are
      pairwise distinct. */
  predicate OrderItemsInsertable(t: Tables, rows: seq<ItemPedidoRow>) {
    && (forall r :: r in rows ==> r.idPedido == rows[0].idPedido && HasProduto(t, r.idProduto))
    && (|rows| > 0 ==> HasPedido(t, rows[0].idPedido))
    && (|rows| > 0 ==> forall it :: it in t.itemPedido ==> it.idPedido != rows[0].idPedido)
    && (forall i, j :: 0 <= i < j < |rows| ==> rows[i].idProduto != rows[j].idProduto)
  }

  /** The primary key of ItemPedido, `(id_pedido, id_produto)`, names at most
      one of `items`. */
  predicate ItemKeysUnique(items: seq<ItemPedidoRow>) {
    forall i, j :: 0 <= i < j < |items| ==>
      items[i].idPedido != items[j].idPedido || items[i].idProduto != items[j].idProduto
  }

  /** Each of `rows`, inserted one after the other into `t`, is admissible when
      its turn comes: what `executemany` needs for none of them to be rejected. */
  predicate ItemsAdmissibleInTurn(t: Tables, rows: seq<ItemPedidoRow>) {
    forall k :: 0 <= k < |rows| ==> ItemAdmissible(t.(itemPedido := t.itemPedido + rows[..k]), rows[k])
  }

  /** Rows inserted in turn never repeat a key among themselves. */
  lemma AdmittedItemsUnique(t: Tables, rows: seq<ItemPedidoRow>)
    requires ItemsAdmissibleInTurn(t, rows)
    ensures ItemKeysUnique(rows)
  {
    forall i, j | 0 <= i < j < |rows|
      ensures rows[i].idPedido != rows[j].idPedido || rows[i].idProduto != rows[j].idProduto
    {
      assert ItemAdmissible(t.(itemPedido := t.itemPedido + rows[..j]), rows[j]);
      assert rows[i] in t.itemPedido + rows[..j];
    }
  }

  /** Items of one order with no repeated key are for distinct products. */
  lemma SameOrderDistinctProducts(items: seq<ItemPedidoRow>, id: Uuid)
    requires ItemKeysUnique(items)
    requires forall i :: 0 <= i < |items| ==> items[i].idPedido == id
    ensures forall i, j :: 0 <= i < j < |items| ==> items[i].idProduto != items[j].idProduto
  {
  }

  /** Every key already in the tables came from this process's uuid4 calls and
      its `fake.unique` generators. An empty database satisfies this, and so
      does any state reached from one by this loader. */
  predicate Tracked(t: Tables, ids: set<Uuid>, emails: set<string>, cpfs: set<string>) {
    && (forall c :: c in t.cliente ==> c.id in ids && c.email in emails && c.cpf in cpfs)
    && (forall p :: p in t.produto ==> p.id in ids)
    && (forall o :: o in t.pedido ==> o.id in ids)
    && (forall it :: it in t.itemPedido ==> it.idPedido in ids)
    && (forall pg :: pg in t.pagamento ==> pg.id in ids)
  }

  /** A connection to the database: the tables as this transaction sees them,
      and the state as of the last commit. `cursor.execute` of an INSERT either
      appends its row or, when a constraint rejects it, leaves the tables as
      they were and reports failure. */
  class PostgresDb {
    var tables: Tables
    var committed: Tables

    constructor ()
      ensures tables == EMPTY && committed == EMPTY
    {
      tables, committed := EMPTY, EMPTY;
    }

    method InsertCliente(row: ClienteRow) returns (ok: bool)
      modifies this
      ensures ok == ClienteAdmissible(old(tables), row)
      ensures tables == if ok then old(tables).(cliente := old(tables).cliente + [row]) else old(tables)
      ensures committed == old(committed)
    {
      ok := ClienteAdmissible(tables, row);
      if ok {
        tables := tables.(cliente := tables.cliente + [row]);
      }
    }

    method InsertProduto(row: ProdutoRow) returns (ok: bool)
      modifies this
      ensures ok == ProdutoAdmissible(old(tables), row)
      ensures tables == if ok then old(tables).(produto := old(tables).produto + [row]) else old(tables)
      ensures committed == old(committed)
    {
      ok := ProdutoAdmissible(tables, row);
      if ok {
        tables := tables.(produto := tables.produto + [row]);
      }
    }

    method InsertPedido(row: PedidoRow) returns (ok: bool)
      modifies this
      ensures ok == PedidoAdmissible(old(tables), row)
      ensures tables == if ok then old(tables).(pedido := old(tables).pedido + [row]) else old(tables)
      ensures committed == old(committed)
    {
      ok := PedidoAdmissible(tables, row);
      if ok {
        tables := tables.(pedido := tables.pedido + [row]);
      }
    }

    method InsertPagamento(row: PagamentoRow) returns (ok: bool)
      modifies this
      ensures ok == PagamentoAdmissible(old(tables), row)
      ensures tables == if ok then old(tables).(pagamento := old(tables).pagamento + [row]) else old(tables)
      ensures committed == old(committed)
    {
      ok := PagamentoAdmissible(tables, row);
      if ok {
        tables := tables.(pagamento := tables.pagamento + [row]);
      }
    }

    method InsertItem(row: ItemPedidoRow) returns (ok: bool)
      modifies this
      ensures ok == ItemAdmissible(old(tables), row)
      ensures tables == if ok then old(tables).(itemPedido := old(tables).itemPedido + [row]) else old(tables)
      ensures committed == old(committed)
      ensures ItemKeysUnique(old(tables).itemPedido) ==> ItemKeysUnique(tables.itemPedido)
    {
      ok := ItemAdmissible(tables, row);
      if ok {
        tables := tables.(itemPedido := tables.itemPedido + [row]);
      }
    }

    /** `cursor.executemany` of the ItemPedido INSERT: the rows one after the
        other, stopping at the first one a constraint rejects: all of them go
        in exactly when each is admissible in its turn, and then no two repeat
        a key. Rows of one order, for distinct products, for an order that
        exists and no earlier row names, and for products that exist, are all
        accepted. */
    method InsertItens(rows: seq<ItemPedidoRow>) returns (ok: bool)
      modifies this
      ensures committed == old(committed)
      ensures tables.cliente == old(tables).cliente && tables.produto == old(tables).produto
      ensures tables.pedido == old(tables).pedido && tables.pagamento == old(tables).pagamento
      ensures ok ==> tables.itemPedido == old(tables).itemPedido + rows
      ensures ok == ItemsAdmissibleInTurn(old(tables), rows)
      ensures ok ==> ItemKeysUnique(rows)
      ensures ItemKeysUnique(old(tables).itemPedido) ==> ItemKeysUnique(tables.itemPedido)
      ensures OrderItemsInsertable(old(tables), rows) ==> ok
    {
      ghost var t0 := tables;
      for k := 0 to |rows|
        invariant committed == old(committed)
        invariant tables == t0.(itemPedido := t0.itemPedido + rows[..k])
        invariant forall j :: 0 <= j < k ==> ItemAdmissible(t0.(itemPedido := t0.itemPedido + rows[..j]), rows[j])
        invariant ItemKeysUnique(t0.itemPedido) ==> ItemKeysUnique(tables.itemPedido)
      {
        if OrderItemsInsertable(t0, rows) {
          forall it | it in tables.itemPedido
            ensures it.idPedido != rows[k].idPedido || it.idProduto != rows[k].idProduto
          {
            if it !in t0.itemPedido {
              var j :| 0 <= j < k && rows[j] == it;
            }
          }
          assert HasPedido(tables, rows[k].idPedido);
          assert ItemAdmissible(tables, rows[k]);
        }
        ok := InsertItem(rows[k]);
        if !ok {
          return;
        }
        assert rows[..k + 1] == rows[..k] + [rows[k]];
      }
      ok := true;
      assert rows[..|rows|] == rows;
      AdmittedItemsUnique(t0, rows);
    }

    method Commit()
      modifies this
      ensures committed == tables && tables == old(tables)
    {
      committed := tables;
    }

    method Rollback()
      modifies this
      ensures tables == old(committed) && committed == old(committed)
    {
      tables := committed;
    }
  }

  predicate ClienteRowInRange(c: ClienteRow, now: DateTime) {
    Instant(now) - TWO_YEARS <= Instant(c.dataCadastro) <= Instant(now)
  }

  predicate ProdutoRowInRange(p: ProdutoRow) {
    p.categoria in CATEGORIES && 1000 <= p.preco <= 500000 && 0 <= p.estoque <= 1000
  }

  predicate ItemRowInRange(it: ItemPedidoRow) {
    1 <= it.quantidade <= 3 && 1000 <= it.precoUnitario <= 100000
  }

  predicate PagamentoRowInRange(pg: PagamentoRow, now: DateTime) {
    && pg.tipo in PAYMENT_TYPES && pg.status in PAYMENT_STATUSES
    && Instant(now) - SIX_MONTHS <= Instant(pg.dataPagamento) <= Instant(now)
  }

  /** No two Cliente rows share an id, an email or a CPF: the primary key and
      the two UNIQUE columns of the table. */
  predicate ClienteKeysUnique(cs: seq<ClienteRow>) {
    forall i, j :: 0 <= i < j < |cs| ==>
      cs[i].id != cs[j].id && cs[i].email != cs[j].email && cs[i].cpf != cs[j].cpf
  }

  /** A Cliente row the table admits keeps the rows added since position
      `from` free of repeated keys. */
  lemma ClienteKeysUniqueStep(cs: seq<ClienteRow>, from: nat, row: ClienteRow)
    requires from <= |cs| && ClienteKeysUnique(cs[from..])
    requires forall c :: c in cs ==> c.id != row.id && c.email != row.email && c.cpf != row.cpf
    ensures ClienteKeysUnique((cs + [row])[from..])
  {
    var added := (cs + [row])[from..];
    assert added == cs[from..] + [row];
    forall i, j | 0 <= i < j < |added|
      ensures added[i].id != added[j].id && added[i].email != added[j].email && added[i].cpf != added[j].cpf
    {
      if j == |added| - 1 {
        assert added[i] == cs[from + i];
        assert added[i] in cs;
      } else {
        assert added[i] == cs[from..][i] && added[j] == cs[from..][j];
      }
    }
  }

  /** What phase 1 leaves behind, from tables `t0` to `t1`: NUM_CLIENTES more
      Cliente rows and nothing else, `client_ids[i]` being the id of the i-th;
      the new rows have pairwise distinct ids, emails and CPFs. */
  predicate ClientesPhase(t0: Tables, t1: Tables, ids: seq<Uuid>, now: DateTime) {
    && t1 == t0.(cliente := t1.cliente) && t0.cliente <= t1.cliente
    && |t1.cliente| == |t0.cliente| + NUM_CLIENTES && |ids| == NUM_CLIENTES && Distinct(ids)
    && (forall i :: 0 <= i < |ids| ==> t1.cliente[|t0.cliente| + i].id == ids[i])
    && (forall j :: |t0.cliente| <= j < |t1.cliente| ==> ClienteRowInRange(t1.cliente[j], now))
    && ClienteKeysUnique(t1.cliente[|t0.cliente|..])
  }

  /** What phase 2 leaves behind: NUM_PRODUTOS more Produto rows with distinct
      ids, `product_ids[i]` being the id of the i-th. */
  predicate ProdutosPhase(t1: Tables, t2: Tables, ids: seq<Uuid>) {
    && t2 == t1.(produto := t2.produto) && t1.produto <= t2.produto
    && |t2.produto| == |t1.produto| + NUM_PRODUTOS && |ids| == NUM_PRODUTOS && Distinct(ids)
    && (forall i :: 0 <= i < |ids| ==> t2.produto[|t1.produto| + i].id == ids[i])
    && (forall j :: |t1.produto| <= j < |t2.produto| ==> ProdutoRowInRange(t2.produto[j]))
  }

  /** Phase 1: NUM_CLIENTES Cliente rows, then a commit. `client_ids[i]` is the
      id of the i-th row inserted. On a fresh database, or one that only this
      process has written, no row is rejected. */
  method PopularClientes(db: PostgresDb, uuid: Uuid4, fake: Faker, now: DateTime)
    returns (r: Result<seq<Uuid>>)
    modifies db, uuid, fake
    requires db.tables == db.committed
    ensures db.tables == db.committed
    ensures old(uuid.issued) <= uuid.issued
    ensures old(fake.uniqueEmails) <= fake.uniqueEmails && old(fake.uniqueCpfs) <= fake.uniqueCpfs
    ensures r.Failure? ==> r.error == IntegrityError && db.tables == old(db.tables)
    ensures Tracked(old(db.tables), old(uuid.issued), old(fake.uniqueEmails), old(fake.uniqueCpfs)) ==>
      r.Success? && Tracked(db.tables, uuid.issued, fake.uniqueEmails, fake.uniqueCpfs)
    ensures r.Success? ==> ClientesPhase(old(db.tables), db.tables, r.value, now)
    ensures r.Success? ==> forall i :: 0 <= i < |r.value| ==> r.value[i] in uuid.issued - old(uuid.issued)
  {
    ghost var t0 := db.tables;
    ghost var tracked0 := Tracked(t0, uuid.issued, fake.uniqueEmails, fake.uniqueCpfs);
    var ids: seq<Uuid> := [];
    for k := 0 to NUM_CLIENTES
      invariant db.committed == t0
      invariant db.tables == t0.(cliente := db.tables.cliente)
      invariant t0.cliente <= db.tables.cliente && |db.tables.cliente| == |t0.cliente| + k
      invariant |ids| == k
      invariant old(uuid.issued) <= uuid.issued
      invariant old(fake.uniqueEmails) <= fake.uniqueEmails && old(fake.uniqueCpfs) <= fake.uniqueCpfs
      invariant forall i :: 0 <= i < k ==>
        db.tables.cliente[|t0.cliente| + i].id == ids[i] && ids[i] in uuid.issued - old(uuid.issued)
      invariant forall j :: |t0.cliente| <= j < |db.tables.cliente| ==> ClienteRowInRange(db.tables.cliente[j], now)
      invariant ClienteKeysUnique(db.tables.cliente[|t0.cliente|..])
      invariant tracked0 ==> Tracked(db.tables, uuid.issued, fake.uniqueEmails, fake.uniqueCpfs)
    {
      var clientId := uuid.Next();
      var nome := fake.Text();
      var email := fake.UniqueEmail();
      var telefone := fake.Text();
      var dataCadastro := fake.DateTimeBetween(now, TWO_YEARS);
      var cpf := fake.UniqueCpf();
      var row := ClienteRow(clientId, nome, email, telefone, dataCadastro, cpf);
      ghost var before := db.tables.cliente;
      var ok := db.InsertCliente(row);
      if !ok {
        db.Rollback();
        return Failure(IntegrityError);
      }
      ClienteKeysUniqueStep(before, |t0.cliente|, row);
      ids := ids + [clientId];
    }
    AlignedIdsDistinct(t0.cliente, db.tables.cliente, ids);
    db.Commit();
    r := Success(ids);
  }

  /** The ids of rows with no repeated key, read off in order, are distinct. */
  lemma AlignedIdsDistinct(before: seq<ClienteRow>, after: seq<ClienteRow>, ids: seq<Uuid>)
    requires |before| + |ids| == |after| && ClienteKeysUnique(after[|before|..])
    requires forall i :: 0 <= i < |ids| ==> after[|before| + i].id == ids[i]
    ensures Distinct(ids)
  {
    var added := after[|before|..];
    forall i, j | 0 <= i < |ids| && 0 <= j < |ids| && i != j
      ensures ids[i] != ids[j]
    {
      assert added[i] == after[|before| + i] && added[j] == after[|before| + j];
    }
  }

  /** Phase 2: NUM_PRODUTOS Produto rows, then a commit; `product_ids[i]` is the
      id of the i-th row inserted. */
  method PopularProdutos(db: PostgresDb, uuid: Uuid4, fake: Faker)
    returns (r: Result<seq<Uuid>>)
    modifies db, uuid
    requires db.tables == db.committed
    ensures db.tables == db.committed
    ensures old(uuid.issued) <= uuid.issued
    ensures r.Failure? ==> r.error == IntegrityError && db.tables == old(db.tables)
    ensures Tracked(old(db.tables), old(uuid.issued), fake.uniqueEmails, fake.uniqueCpfs) ==>
      r.Success? && Tracked(db.tables, uuid.issued, fake.uniqueEmails, fake.uniqueCpfs)
    ensures r.Success? ==> ProdutosPhase(old(db.tables), db.tables, r.value)
    ensures r.Success? ==> forall i :: 0 <= i < |r.value| ==> r.value[i] in uuid.issued - old(uuid.issued)
  {
    ghost var t0 := db.tables;
    ghost var tracked0 := Tracked(t0, uuid.issued, fake.uniqueEmails, fake.uniqueCpfs);
    var ids: seq<Uuid> := [];
    for k := 0 to NUM_PRODUTOS
      invariant db.committed == t0
      invariant db.tables == t0.(produto := db.tables.produto)
      invariant t0.produto <= db.tables.produto && |db.tables.produto| == |t0.produto| + k
      invariant |ids| == k
      invariant old(uuid.issued) <= uuid.issued
      invariant forall i :: 0 <= i < k ==>
        db.tables.produto[|t0.produto| + i].id == ids[i] && ids[i] in uuid.issued - old(uuid.issued)
      invariant forall j :: |t0.produto| <= j < |db.tables.produto| ==> ProdutoRowInRange(db.tables.produto[j])
      invariant Distinct(ids)
      invariant tracked0 ==> Tracked(db.tables, uuid.issued, fake.uniqueEmails, fake.uniqueCpfs)
    {
      var productId := uuid.Next();
      var nome := fake.Text();
      var categoria := Choice(CATEGORIES);
      var preco := RandInt(1000, 500000);
      var estoque := RandInt(0, 1000);
      var row := ProdutoRow(productId, nome, categoria.value, preco, estoque);
      var ok := db.InsertProduto(row);
      if !ok {
        db.Rollback();
        return Failure(IntegrityError);
      }
      ids := ids + [productId];
    }
    db.Commit();
    r := Success(ids);
  }

  predicate PedidoFieldsInRange(o: PedidoRow, now: DateTime) {
    o.status in ORDER_STATUSES && Instant(now) - ONE_YEAR <= Instant(o.dataPedido) <= Instant(now)
  }

  predicate PedidoRowInRange(o: PedidoRow, clientIds: seq<Uuid>, now: DateTime) {
    o.idCliente in clientIds && PedidoFieldsInRange(o, now)
  }

  /** `quantity * price_unit`, what one ItemPedido row adds to its order's total. */
  function ItemRowAmount(it: ItemPedidoRow): int {
    it.quantidade * it.precoUnitario
  }

  /** The ItemPedido rows of one order, in insertion order (the rows a
      `WHERE id_pedido = ...` selects). */
  function ItemsOf(rows: seq<ItemPedidoRow>, id: Uuid): (r: seq<ItemPedidoRow>)
    ensures |r| <= |rows|
  {
    if |rows| == 0 then []
    else
      var last := rows[|rows| - 1];
      ItemsOf(rows[..|rows| - 1], id) + (if last.idPedido == id then [last] else [])
  }

  /** Selecting an order's items distributes over the rows inserted before and
      after a point. */
  lemma {:induction false} ItemsOfAppend(a: seq<ItemPedidoRow>, b: seq<ItemPedidoRow>, id: Uuid)
    ensures ItemsOf(a + b, id) == ItemsOf(a, id) + ItemsOf(b, id)
    decreases |b|
  {
    if |b| == 0 {
      assert a + b == a;
    } else {
      var b' := b[..|b| - 1];
      assert (a + b)[..|a + b| - 1] == a + b';
      ItemsOfAppend(a, b', id);
    }
  }

  /** Rows that all belong to another order select nothing. */
  lemma {:induction false} ItemsOfNone(rows: seq<ItemPedidoRow>, id: Uuid)
    requires forall it :: it in rows ==> it.idPedido != id
    ensures ItemsOf(rows, id) == []
  {
    if |rows| > 0 {
      assert forall it :: it in rows[..|rows| - 1] ==> it in rows;
      ItemsOfNone(rows[..|rows| - 1], id);
    }
  }

  /** Rows that all belong to the order are all selected, in order. */
  lemma {:induction false} ItemsOfAll(rows: seq<ItemPedidoRow>, id: Uuid)
    requires forall it :: it in rows ==> it.idPedido == id
    ensures ItemsOf(rows, id) == rows
  {
    if |rows| > 0 {
      var init, last := rows[..|rows| - 1], rows[|rows| - 1];
      assert forall it :: it in init ==> it in rows;
      ItemsOfAll(init, id);
      assert last in rows;
      calc {
        ItemsOf(rows, id);
        ItemsOf(init, id) + [last];
        init + [last];
        { assert init + [last] == rows; }
        rows;
      }
    }
  }

  /** The inner loop over `selected_product_ids`: one row per product with a
      quantity from 1 to 3 and a unit price from 10.00 to 1000.00, all carrying
      this order's id, while `valor_total` accumulates quantity times price. */
  method DrawItemRows(orderId: Uuid, selected: seq<Uuid>) returns (items: seq<ItemPedidoRow>, total: Cents)
    ensures |items| == |selected|
    ensures forall i :: 0 <= i < |items| ==>
      items[i].idPedido == orderId && items[i].idProduto == selected[i] && ItemRowInRange(items[i])
    ensures total == SumOf(items, ItemRowAmount)
  {
    items, total := [], 0;
    for k := 0 to |selected|
      invariant |items| == k
      invariant forall i :: 0 <= i < k ==>
        items[i].idPedido == orderId && items[i].idProduto == selected[i] && ItemRowInRange(items[i])
      invariant total == SumOf(items, ItemRowAmount)
    {
      var quantity := RandInt(1, 3);
      var priceUnit := RandInt(1000, 100000);
      var item := ItemPedidoRow(orderId, selected[k], quantity, priceUnit);
      SumOfAppend(items, item, ItemRowAmount);
      items := items + [item];
      total := total + quantity * priceUnit;
    }
  }

  /** What phase 3 needs of the tables for no insert to be rejected: every key
      in them is tracked, every client id and product id it draws from names an
      existing row, and the product ids are distinct. */
  predicate OrdersInsertable(t: Tables, ids: set<Uuid>, emails: set<string>, cpfs: set<string>,
                             clientIds: seq<Uuid>, productIds: seq<Uuid>) {
    && Tracked(t, ids, emails, cpfs)
    && (forall c :: c in clientIds ==> HasCliente(t, c))
    && (forall p :: p in productIds ==> HasProduto(t, p))
    && Distinct(productIds)
  }

  /** One order as phase 3 generates it: a customer from `client_ids`, a listed
      status, a date in the last year, and one to five in-range items, all for
      this order and for pairwise distinct products of `product_ids`, whose
      amounts add up to its total. */
  predicate OrderWithItems(row: PedidoRow, items: seq<ItemPedidoRow>,
                           clientIds: seq<Uuid>, productIds: seq<Uuid>, now: DateTime) {
    && PedidoRowInRange(row, clientIds, now)
    && (forall it :: it in items ==> it.idPedido == row.id && it.idProduto in productIds && ItemRowInRange(it))
    && (forall i, j :: 0 <= i < j < |items| ==> items[i].idProduto != items[j].idProduto)
    && row.valorTotal == SumOf(items, ItemRowAmount)
    && |items| <= 5 && |items| <= |productIds| && (|productIds| > 0 ==> |items| >= 1)
  }

  /** One iteration of phase 3: a fresh order id, a customer drawn from
      `client_ids`, `min(randint(1, 5), len(product_ids))` distinct products,
      the Pedido row with the accumulated total, then its ItemPedido rows when
      there are any. */
  method InserirPedido(db: PostgresDb, uuid: Uuid4, fake: Faker, now: DateTime,
                       clientIds: seq<Uuid>, productIds: seq<Uuid>)
    returns (r: Result<PedidoRow>, items: seq<ItemPedidoRow>)
    modifies db, uuid
    ensures db.committed == old(db.committed)
    ensures db.tables.cliente == old(db.tables).cliente && db.tables.produto == old(db.tables).produto
    ensures db.tables.pagamento == old(db.tables).pagamento
    ensures old(uuid.issued) <= uuid.issued
    ensures r.Failure? ==> (r.error == IndexError <==> |clientIds| == 0)
    ensures r.Failure? ==> r.error == IndexError || r.error == IntegrityError
    ensures OrdersInsertable(old(db.tables), old(uuid.issued), fake.uniqueEmails, fake.uniqueCpfs, clientIds, productIds)
            && |clientIds| > 0 ==>
      r.Success? && Tracked(db.tables, uuid.issued, fake.uniqueEmails, fake.uniqueCpfs)
    ensures r.Success? ==>
      && r.value.id in uuid.issued - old(uuid.issued)
      && db.tables.pedido == old(db.tables).pedido + [r.value]
      && db.tables.itemPedido == old(db.tables).itemPedido + items
      && OrderWithItems(r.value, items, clientIds, productIds, now)
  {
    ghost var t0 := db.tables;
    ghost var good := OrdersInsertable(t0, uuid.issued, fake.uniqueEmails, fake.uniqueCpfs, clientIds, productIds);
    items := [];
    var orderId := uuid.Next();
    var clientId := Choice(clientIds);
    if clientId.Failure? {
      return Failure(IndexError), [];
    }
    var orderDate := fake.DateTimeBetween(now, ONE_YEAR);
    var status := Choice(ORDER_STATUSES);
    var numItems := RandInt(1, 5);
    var selected := Sample(productIds, Min(numItems, |productIds|));
    var total;
    items, total := DrawItemRows(orderId, selected.value);
    var row := PedidoRow(orderId, clientId.value, orderDate, status.value, total);
    if good {
      assert forall o :: o in t0.pedido ==> o.id != orderId;
    }
    var ok := db.InsertPedido(row);
    if !ok {
      return Failure(IntegrityError), items;
    }
    assert db.tables.pedido[|db.tables.pedido| - 1].id == orderId;
    if good && |items| > 0 {
      assert OrderItemsInsertable(db.tables, items) by {
        forall it | it in items
          ensures it.idPedido == items[0].idPedido && HasProduto(db.tables, it.idProduto)
        {
          assert it.idProduto in productIds;
        }
      }
    }
    ok := InserirItens(db, orderId, items);
    if !ok {
      return Failure(IntegrityError), items;
    }
    r := Success(row);
  }

  /** The `if items_for_order:` step of one order: its ItemPedido rows in one
      `executemany`, none when there are none. When they all go in, they are
      for pairwise distinct products, since the key `(id_pedido, id_produto)`
      admits no repeat within one order. */
  method InserirItens(db: PostgresDb, orderId: Uuid, items: seq<ItemPedidoRow>) returns (ok: bool)
    requires forall i :: 0 <= i < |items| ==> items[i].idPedido == orderId
    modifies db
    ensures db.committed == old(db.committed)
    ensures db.tables == old(db.tables).(itemPedido := db.tables.itemPedido)
    ensures ok ==> db.tables.itemPedido == old(db.tables).itemPedido + items
    ensures ok ==> forall i, j :: 0 <= i < j < |items| ==> items[i].idProduto != items[j].idProduto
    ensures OrderItemsInsertable(old(db.tables), items) ==> ok
  {
    ok := true;
    if |items| > 0 {
      ok := db.InsertItens(items);
    }
    if ok {
      SameOrderDistinctProducts(items, orderId);
    }
  }

  /** An order's total equals the sum over the given ItemPedido rows that name
      it, of which there are one to five (fewer only when there are fewer
      products to sample from). */
  predicate TotalMatchesItems(o: PedidoRow, rows: seq<ItemPedidoRow>, productIds: seq<Uuid>) {
    var its := ItemsOf(rows, o.id);
    && o.valorTotal == SumOf(its, ItemRowAmount)
    && |its| <= 5 && |its| <= |productIds| && (|productIds| > 0 ==> |its| >= 1)
  }

  /** `orders` are the Pedido rows with the ids `ids`, in that order. */
  predicate OrdersHaveIds(orders: seq<PedidoRow>, ids: seq<Uuid>) {
    && |orders| == |ids| && Distinct(ids)
    && (forall i :: 0 <= i < |ids| ==> orders[i].id == ids[i])
  }

  /** Each order has a customer from `client_ids`, a listed status and a date
      in the last year, and a total matching its items in `newItems`. */
  predicate OrdersMatchItems(orders: seq<PedidoRow>, newItems: seq<ItemPedidoRow>,
                             clientIds: seq<Uuid>, productIds: seq<Uuid>, now: DateTime) {
    forall o :: o in orders ==>
      PedidoRowInRange(o, clientIds, now) && TotalMatchesItems(o, newItems, productIds)
  }

  /** Each item belongs to one of the orders `ids` and to a product of
      `product_ids`, with an in-range quantity and price. */
  predicate ItemsBelong(newItems: seq<ItemPedidoRow>, ids: seq<Uuid>, productIds: seq<Uuid>) {
    forall it :: it in newItems ==>
      it.idPedido in ids && it.idProduto in productIds && ItemRowInRange(it)
  }

  /** What phase 3 has added once it has inserted the orders `ids`: those Pedido
      rows `orders`, in order, and the ItemPedido rows `newItems`, which belong
      to those orders, add up to their totals and never repeat an
      `(id_pedido, id_produto)` key. */
  predicate NewOrders(orders: seq<PedidoRow>, newItems: seq<ItemPedidoRow>, ids: seq<Uuid>,
                      clientIds: seq<Uuid>, productIds: seq<Uuid>, now: DateTime) {
    && OrdersHaveIds(orders, ids)
    && OrdersMatchItems(orders, newItems, clientIds, productIds, now)
    && ItemsBelong(newItems, ids, productIds)
    && ItemKeysUnique(newItems)
  }

  /** Appending one more order with its own items keeps `NewOrders`: the new
      items name only the new order, so the totals of the earlier orders still
      match, and no earlier item names the new one. */
  lemma NewOrdersStep(orders: seq<PedidoRow>, newItems: seq<ItemPedidoRow>, ids: seq<Uuid>,
                      clientIds: seq<Uuid>, productIds: seq<Uuid>, now: DateTime,
                      row: PedidoRow, items: seq<ItemPedidoRow>)
    requires NewOrders(orders, newItems, ids, clientIds, productIds, now)
    requires row.id !in ids
    requires OrderWithItems(row, items, clientIds, productIds, now)
    ensures NewOrders(orders + [row], newItems + items, ids + [row.id], clientIds, productIds, now)
  {
    OrdersHaveIdsStep(orders, ids, row);
    FreshIdNotInOrders(orders, ids, row.id);
    assert forall it :: it in newItems ==> it.idPedido != row.id;
    OrdersMatchItemsStep(orders, newItems, clientIds, productIds, now, row, items);
    ItemsBelongStep(newItems, ids, productIds, row.id, items);
    ItemKeysUniqueStep(newItems, ids, row.id, items);
  }

  /** The items of a fresh order, for distinct products, add no repeated key. */
  lemma ItemKeysUniqueStep(newItems: seq<ItemPedidoRow>, ids: seq<Uuid>, id: Uuid, items: seq<ItemPedidoRow>)
    requires ItemKeysUnique(newItems) && id !in ids
    requires forall it :: it in newItems ==> it.idPedido in ids
    requires forall it :: it in items ==> it.idPedido == id
    requires forall i, j :: 0 <= i < j < |items| ==> items[i].idProduto != items[j].idProduto
    ensures ItemKeysUnique(newItems + items)
  {
    var all := newItems + items;
    forall i, j | 0 <= i < j < |all|
      ensures all[i].idPedido != all[j].idPedido || all[i].idProduto != all[j].idProduto
    {
      if j < |newItems| {
        assert all[i] == newItems[i] && all[j] == newItems[j];
      } else if i < |newItems| {
        assert all[i] in newItems && all[j] in items;
      } else {
        assert all[i] == items[i - |newItems|] && all[j] == items[j - |newItems|];
      }
    }
  }

  lemma OrdersHaveIdsStep(orders: seq<PedidoRow>, ids: seq<Uuid>, row: PedidoRow)
    requires OrdersHaveIds(orders, ids) && row.id !in ids
    ensures OrdersHaveIds(orders + [row], ids + [row.id])
  {
    DistinctAppend(ids, row.id);
  }

  lemma ItemsBelongStep(newItems: seq<ItemPedidoRow>, ids: seq<Uuid>, productIds: seq<Uuid>,
                        id: Uuid, items: seq<ItemPedidoRow>)
    requires ItemsBelong(newItems, ids, productIds)
    requires forall it :: it in items ==> it.idPedido == id && it.idProduto in productIds && ItemRowInRange(it)
    ensures ItemsBelong(newItems + items, ids + [id], productIds)
  {
    assert forall it :: it in newItems + items ==> it in newItems || it in items;
  }

  lemma OrdersMatchItemsStep(orders: seq<PedidoRow>, newItems: seq<ItemPedidoRow>,
                             clientIds: seq<Uuid>, productIds: seq<Uuid>, now: DateTime,
                             row: PedidoRow, items: seq<ItemPedidoRow>)
    requires OrdersMatchItems(orders, newItems, clientIds, productIds, now)
    requires forall o :: o in orders ==> o.id != row.id
    requires forall it :: it in newItems ==> it.idPedido != row.id
    requires PedidoRowInRange(row, clientIds, now)
    requires forall it :: it in items ==> it.idPedido == row.id
    requires row.valorTotal == SumOf(items, ItemRowAmount)
    requires |items| <= 5 && |items| <= |productIds| && (|productIds| > 0 ==> |items| >= 1)
    ensures OrdersMatchItems(orders + [row], newItems + items, clientIds, productIds, now)
  {
    forall o | o in orders
      ensures TotalMatchesItems(o, newItems + items, productIds)
    {
      TotalUnaffected(o, newItems, items, productIds);
    }
    TotalOfNewOrder(row, newItems, items, productIds);
    assert forall o :: o in orders + [row] ==> o in orders || o == row;
  }

  /** An id outside `ids` is the id of none of the orders. */
  lemma FreshIdNotInOrders(orders: seq<PedidoRow>, ids: seq<Uuid>, id: Uuid)
    requires OrdersHaveIds(orders, ids) && id !in ids
    ensures forall o :: o in orders ==> o.id != id
  {
    forall o | o in orders
      ensures o.id != id
    {
      var i :| 0 <= i < |orders| && orders[i] == o;
      assert o.id == ids[i];
    }
  }

  lemma DistinctAppend(ids: seq<Uuid>, id: Uuid)
    requires Distinct(ids) && id !in ids
    ensures Distinct(ids + [id])
  {
    var ids' := ids + [id];
    forall i, j | 0 <= i < |ids'| && 0 <= j < |ids'| && i != j
      ensures ids'[i] != ids'[j]
    {
      if i < |ids| && j < |ids| {
        assert ids'[i] == ids[i] && ids'[j] == ids[j];
      }
    }
  }

  /** Items of other orders leave an order's total matching. */
  lemma TotalUnaffected(o: PedidoRow, newItems: seq<ItemPedidoRow>, items: seq<ItemPedidoRow>, productIds: seq<Uuid>)
    requires TotalMatchesItems(o, newItems, productIds)
    requires forall it :: it in items ==> it.idPedido != o.id
    ensures TotalMatchesItems(o, newItems + items, productIds)
  {
    ItemsOfAppend(newItems, items, o.id);
    ItemsOfNone(items, o.id);
    assert ItemsOf(newItems, o.id) + [] == ItemsOf(newItems, o.id);
  }

  /** An order whose id no earlier item names matches the total of exactly the
      items appended for it. */
  lemma TotalOfNewOrder(row: PedidoRow, newItems: seq<ItemPedidoRow>, items: seq<ItemPedidoRow>, productIds: seq<Uuid>)
    requires forall it :: it in newItems ==> it.idPedido != row.id
    requires forall it :: it in items ==> it.idPedido == row.id
    requires row.valorTotal == SumOf(items, ItemRowAmount)
    requires |items| <= 5 && |items| <= |productIds| && (|productIds| > 0 ==> |items| >= 1)
    ensures TotalMatchesItems(row, newItems + items, productIds)
  {
    ItemsOfAppend(newItems, items, row.id);
    ItemsOfNone(newItems, row.id);
    ItemsOfAll(items, row.id);
    assert [] + items == items;
  }

  /** What phase 3 leaves behind: NUM_PEDIDOS more Pedido rows and the
      ItemPedido rows of those orders, and nothing else. */
  predicate PedidosPhase(t2: Tables, t3: Tables, ids: seq<Uuid>,
                         clientIds: seq<Uuid>, productIds: seq<Uuid>, now: DateTime) {
    && t3 == t2.(pedido := t3.pedido, itemPedido := t3.itemPedido)
    && t2.pedido <= t3.pedido && t2.itemPedido <= t3.itemPedido && |ids| == NUM_PEDIDOS
    && NewOrders(t3.pedido[|t2.pedido|..], t3.itemPedido[|t2.itemPedido|..], ids, clientIds, productIds, now)
  }

  /** Phase 3: NUM_PEDIDOS orders, each followed by its items, then a commit. */
  method PopularPedidos(db: PostgresDb, uuid: Uuid4, fake: Faker, now: DateTime,
                        clientIds: seq<Uuid>, productIds: seq<Uuid>)
    returns (r: Result<seq<Uuid>>)
    modifies db, uuid
    requires db.tables == db.committed
    ensures db.tables == db.committed
    ensures old(uuid.issued) <= uuid.issued
    ensures r.Failure? ==> (r.error == IndexError || r.error == IntegrityError) && db.tables == old(db.tables)
    ensures OrdersInsertable(old(db.tables), old(uuid.issued), fake.uniqueEmails, fake.uniqueCpfs, clientIds, productIds)
            && |clientIds| > 0 ==>
      r.Success? && Tracked(db.tables, uuid.issued, fake.uniqueEmails, fake.uniqueCpfs)
    ensures r.Success? ==> PedidosPhase(old(db.tables), db.tables, r.value, clientIds, productIds, now)
    ensures r.Success? ==> forall id :: id in r.value ==> id in uuid.issued && id !in old(uuid.issued)
  {
    ghost var t0 := db.tables;
    ghost var good := OrdersInsertable(t0, uuid.issued, fake.uniqueEmails, fake.uniqueCpfs, clientIds, productIds)
                      && |clientIds| > 0;
    var ids: seq<Uuid> := [];
    ghost var orders: seq<PedidoRow> := [];
    ghost var newItems: seq<ItemPedidoRow> := [];
    for k := 0 to NUM_PEDIDOS
      invariant db.committed == t0
      invariant db.tables.cliente == t0.cliente && db.tables.produto == t0.produto && db.tables.pagamento == t0.pagamento
      invariant db.tables.pedido == t0.pedido + orders && db.tables.itemPedido == t0.itemPedido + newItems
      invariant |ids| == k
      invariant old(uuid.issued) <= uuid.issued
      invariant forall id :: id in ids ==> id in uuid.issued && id !in old(uuid.issued)
      invariant NewOrders(orders, newItems, ids, clientIds, productIds, now)
      invariant good ==> Tracked(db.tables, uuid.issued, fake.uniqueEmails, fake.uniqueCpfs)
    {
      ghost var before := db.tables;
      if good {
        InsertableFrame(t0, db.tables, uuid.issued, fake.uniqueEmails, fake.uniqueCpfs, clientIds, productIds);
      }
      var pedido, items := InserirPedido(db, uuid, fake, now, clientIds, productIds);
      if pedido.Failure? {
        db.Rollback();
        return Failure(pedido.error);
      }
      assert pedido.value.id !in ids;
      PedidosPhaseStep(t0, before, db.tables, orders, newItems, ids, clientIds, productIds, now, pedido.value, items);
      orders, newItems := orders + [pedido.value], newItems + items;
      ids := ids + [pedido.value.id];
    }
    db.Commit();
    r := Success(ids);
    assert db.tables == t0.(pedido := db.tables.pedido, itemPedido := db.tables.itemPedido);
    assert db.tables.pedido[|t0.pedido|..] == orders;
    assert db.tables.itemPedido[|t0.itemPedido|..] == newItems;
  }

  /** One iteration of phase 3, on the tables: the new order and its items
      extend what the phase has added so far. */
  lemma PedidosPhaseStep(t0: Tables, before: Tables, after: Tables,
                         orders: seq<PedidoRow>, newItems: seq<ItemPedidoRow>, ids: seq<Uuid>,
                         clientIds: seq<Uuid>, productIds: seq<Uuid>, now: DateTime,
                         row: PedidoRow, items: seq<ItemPedidoRow>)
    requires before.pedido == t0.pedido + orders && before.itemPedido == t0.itemPedido + newItems
    requires after.pedido == before.pedido + [row] && after.itemPedido == before.itemPedido + items
    requires NewOrders(orders, newItems, ids, clientIds, productIds, now)
    requires row.id !in ids && OrderWithItems(row, items, clientIds, productIds, now)
    ensures after.pedido == t0.pedido + (orders + [row]) && after.itemPedido == t0.itemPedido + (newItems + items)
    ensures NewOrders(orders + [row], newItems + items, ids + [row.id], clientIds, productIds, now)
  {
    NewOrdersStep(orders, newItems, ids, clientIds, productIds, now, row, items);
  }

  /** Phase 3 inserts only Pedido and ItemPedido rows, so the customers and
      products its draws refer to stay in place. */
  lemma InsertableFrame(t0: Tables, t: Tables, ids: set<Uuid>, emails: set<string>, cpfs: set<string>,
                        clientIds: seq<Uuid>, productIds: seq<Uuid>)
    requires OrdersInsertable(t0, ids, emails, cpfs, clientIds, productIds)
    requires t.cliente == t0.cliente && t.produto == t0.produto
    requires Tracked(t, ids, emails, cpfs)
    ensures OrdersInsertable(t, ids, emails, cpfs, clientIds, productIds)
  {
    forall c | c in clientIds
      ensures HasCliente(t, c)
    {
      assert HasCliente(t0, c);
    }
    forall p | p in productIds
      ensures HasProduto(t, p)
    {
      assert HasProduto(t0, p);
    }
  }

  /** What phase 4 leaves behind: NUM_PAGAMENTOS more Pagamento rows, each for
      one of `order_ids`, and nothing else. */
  predicate PagamentosPhase(t3: Tables, t4: Tables, orderIds: seq<Uuid>, now: DateTime) {
    && t4 == t3.(pagamento := t4.pagamento) && t3.pagamento <= t4.pagamento
    && |t4.pagamento| == |t3.pagamento| + NUM_PAGAMENTOS
    && (forall j :: |t3.pagamento| <= j < |t4.pagamento| ==>
          t4.pagamento[j].idPedido in orderIds && PagamentoRowInRange(t4.pagamento[j], now))
  }

  /** Phase 4: NUM_PAGAMENTOS Pagamento rows, then a commit. Each payment names
      an order drawn from `order_ids` with replacement, so an order may receive
      several payments or none. */
  method PopularPagamentos(db: PostgresDb, uuid: Uuid4, fake: Faker, now: DateTime, orderIds: seq<Uuid>)
    returns (r: Result<()>)
    modifies db, uuid
    requires db.tables == db.committed
    ensures db.tables == db.committed
    ensures old(uuid.issued) <= uuid.issued
    ensures r.Failure? ==> (r.error == IndexError || r.error == IntegrityError) && db.tables == old(db.tables)
    ensures Tracked(old(db.tables), old(uuid.issued), fake.uniqueEmails, fake.uniqueCpfs)
            && |orderIds| > 0 && (forall o :: o in orderIds ==> HasPedido(old(db.tables), o)) ==>
      r.Success? && Tracked(db.tables, uuid.issued, fake.uniqueEmails, fake.uniqueCpfs)
    ensures r.Success? ==> PagamentosPhase(old(db.tables), db.tables, orderIds, now)
    ensures r.Success? ==> forall j :: |old(db.tables).pagamento| <= j < |db.tables.pagamento| ==>
      db.tables.pagamento[j].id in uuid.issued - old(uuid.issued)
  {
    ghost var t0 := db.tables;
    ghost var good := Tracked(t0, uuid.issued, fake.uniqueEmails, fake.uniqueCpfs)
                      && |orderIds| > 0 && (forall o :: o in orderIds ==> HasPedido(t0, o));
    for k := 0 to NUM_PAGAMENTOS
      invariant db.committed == t0
      invariant db.tables == t0.(pagamento := db.tables.pagamento)
      invariant t0.pagamento <= db.tables.pagamento && |db.tables.pagamento| == |t0.pagamento| + k
      invariant old(uuid.issued) <= uuid.issued
      invariant forall j :: |t0.pagamento| <= j < |db.tables.pagamento| ==>
        && db.tables.pagamento[j].idPedido in orderIds
        && db.tables.pagamento[j].id in uuid.issued - old(uuid.issued)
        && PagamentoRowInRange(db.tables.pagamento[j], now)
      invariant good ==> Tracked(db.tables, uuid.issued, fake.uniqueEmails, fake.uniqueCpfs)
    {
      var paymentId := uuid.Next();
      var orderId := Choice(orderIds);
      if orderId.Failure? {
        db.Rollback();
        return Failure(IndexError);
      }
      var paymentDate := fake.DateTimeBetween(now, SIX_MONTHS);
      var tipo := Choice(PAYMENT_TYPES);
      var status := Choice(PAYMENT_STATUSES);
      var row := PagamentoRow(paymentId, orderId.value, tipo.value, status.value, paymentDate);
      if good {
        assert HasPedido(t0, orderId.value);
        assert PagamentoAdmissible(db.tables, row);
      }
      var ok := db.InsertPagamento(row);
      if !ok {
        db.Rollback();
        return Failure(IntegrityError);
      }
    }
    db.Commit();
    r := Success(());
  }

  predicate IsNewCliente(t0: Tables, t: Tables, id: Uuid) {
    exists j :: |t0.cliente| <= j < |t.cliente| && t.cliente[j].id == id
  }

  predicate IsNewProduto(t0: Tables, t: Tables, id: Uuid) {
    exists j :: |t0.produto| <= j < |t.produto| && t.produto[j].id == id
  }

  predicate IsNewPedido(t0: Tables, t: Tables, id: Uuid) {
    exists j :: |t0.pedido| <= j < |t.pedido| && t.pedido[j].id == id
  }

  /** A Pedido row of the run: its customer was inserted by the same run, its
      status and date are in range, and it has one to five items of the run
      whose amounts add up to its total. */
  predicate NewPedidoOk(t0: Tables, t: Tables, o: PedidoRow, now: DateTime) {
    && IsNewCliente(t0, t, o.idCliente) && PedidoFieldsInRange(o, now)
    && |t0.itemPedido| <= |t.itemPedido|
    && var its := ItemsOf(t.itemPedido[|t0.itemPedido|..], o.id);
       o.valorTotal == SumOf(its, ItemRowAmount) && 1 <= |its| <= 5
  }

  predicate NewItemOk(t0: Tables, t: Tables, it: ItemPedidoRow) {
    IsNewPedido(t0, t, it.idPedido) && IsNewProduto(t0, t, it.idProduto) && ItemRowInRange(it)
  }

  predicate NewPagamentoOk(t0: Tables, t: Tables, pg: PagamentoRow, now: DateTime) {
    IsNewPedido(t0, t, pg.idPedido) && PagamentoRowInRange(pg, now)
  }

  /** The tables after a complete run, compared with the tables `t0` it started
      from: nothing removed; 20 000 customers, 5 000 products, 30 000 orders and
      30 000 payments added; no two added customers share an id, email or CPF;
      every foreign key of an added row names a row the
      same run added; every added order's total is the sum over its items; no
      two added items share an `(id_pedido, id_produto)` key. */
  predicate PopulatedRun(t0: Tables, t: Tables, now: DateTime) {
    && t0.cliente <= t.cliente && t0.produto <= t.produto && t0.pedido <= t.pedido
    && t0.itemPedido <= t.itemPedido && t0.pagamento <= t.pagamento
    && |t.cliente| == |t0.cliente| + NUM_CLIENTES && |t.produto| == |t0.produto| + NUM_PRODUTOS
    && |t.pedido| == |t0.pedido| + NUM_PEDIDOS && |t.pagamento| == |t0.pagamento| + NUM_PAGAMENTOS
    && (forall j :: |t0.cliente| <= j < |t.cliente| ==> ClienteRowInRange(t.cliente[j], now))
    && ClienteKeysUnique(t.cliente[|t0.cliente|..])
    && (forall j :: |t0.produto| <= j < |t.produto| ==> ProdutoRowInRange(t.produto[j]))
    && (forall j :: |t0.pedido| <= j < |t.pedido| ==> NewPedidoOk(t0, t, t.pedido[j], now))
    && (forall it :: it in t.itemPedido[|t0.itemPedido|..] ==> NewItemOk(t0, t, it))
    && ItemKeysUnique(t.itemPedido[|t0.itemPedido|..])
    && (forall j :: |t0.pagamento| <= j < |t.pagamento| ==> NewPagamentoOk(t0, t, t.pagamento[j], now))
  }

  lemma ClientIdsAreNew(t0: Tables, t1: Tables, t: Tables, ids: seq<Uuid>, now: DateTime)
    requires ClientesPhase(t0, t1, ids, now) && t.cliente == t1.cliente
    ensures forall c :: c in ids ==> IsNewCliente(t0, t, c)
  {
    forall c | c in ids
      ensures IsNewCliente(t0, t, c)
    {
      var i :| 0 <= i < |ids| && ids[i] == c;
      assert t.cliente[|t0.cliente| + i].id == c;
    }
  }

  lemma ProductIdsAreNew(t0: Tables, t1: Tables, t2: Tables, t: Tables, ids: seq<Uuid>)
    requires ProdutosPhase(t1, t2, ids) && t1.produto == t0.produto && t.produto == t2.produto
    ensures forall p :: p in ids ==> IsNewProduto(t0, t, p)
  {
    forall p | p in ids
      ensures IsNewProduto(t0, t, p)
    {
      var i :| 0 <= i < |ids| && ids[i] == p;
      assert t.produto[|t0.produto| + i].id == p;
    }
  }

  lemma OrderIdsAreNew(t0: Tables, t2: Tables, t3: Tables, t: Tables, ids: seq<Uuid>)
    requires t2.pedido == t0.pedido && t.pedido == t3.pedido && t2.pedido <= t3.pedido
    requires OrdersHaveIds(t3.pedido[|t2.pedido|..], ids)
    ensures forall o :: o in ids ==> IsNewPedido(t0, t, o)
  {
    forall o | o in ids
      ensures IsNewPedido(t0, t, o)
    {
      var i :| 0 <= i < |ids| && ids[i] == o;
      assert t3.pedido[|t2.pedido|..][i] == t.pedido[|t0.pedido| + i];
    }
  }

  /** The four phases, each as its method promises, add up to a populated run. */
  lemma PopulatedRunHolds(t0: Tables, t1: Tables, t2: Tables, t3: Tables, t4: Tables,
                          clientIds: seq<Uuid>, productIds: seq<Uuid>, orderIds: seq<Uuid>, now: DateTime)
    requires ClientesPhase(t0, t1, clientIds, now)
    requires ProdutosPhase(t1, t2, productIds)
    requires PedidosPhase(t2, t3, orderIds, clientIds, productIds, now)
    requires PagamentosPhase(t3, t4, orderIds, now)
    ensures PopulatedRun(t0, t4, now)
  {
    ClientIdsAreNew(t0, t1, t4, clientIds, now);
    ProductIdsAreNew(t0, t1, t2, t4, productIds);
    OrderIdsAreNew(t0, t2, t3, t4, orderIds);
    var orders, newItems := t3.pedido[|t2.pedido|..], t3.itemPedido[|t2.itemPedido|..];
    assert newItems == t4.itemPedido[|t0.itemPedido|..];
    forall j | |t0.pedido| <= j < |t4.pedido|
      ensures NewPedidoOk(t0, t4, t4.pedido[j], now)
    {
      var o := t4.pedido[j];
      assert o == orders[j - |t0.pedido|];
      assert o in orders;
    }
    forall it | it in t4.itemPedido[|t0.itemPedido|..]
      ensures NewItemOk(t0, t4, it)
    {
      assert it in newItems;
    }
  }

  lemma ClientIdsExist(t0: Tables, t1: Tables, t: Tables, ids: seq<Uuid>, now: DateTime)
    requires ClientesPhase(t0, t1, ids, now) && t.cliente == t1.cliente
    ensures forall c :: c in ids ==> HasCliente(t, c)
  {
    forall c | c in ids
      ensures HasCliente(t, c)
    {
      var i :| 0 <= i < |ids| && ids[i] == c;
      assert t.cliente[|t0.cliente| + i].id == c;
    }
  }

  lemma ProductIdsExist(t1: Tables, t2: Tables, ids: seq<Uuid>)
    requires ProdutosPhase(t1, t2, ids)
    ensures forall p :: p in ids ==> HasProduto(t2, p)
  {
    forall p | p in ids
      ensures HasProduto(t2, p)
    {
      var i :| 0 <= i < |ids| && ids[i] == p;
      assert t2.produto[|t1.produto| + i].id == p;
    }
  }

  lemma OrderIdsExist(t2: Tables, t3: Tables, ids: seq<Uuid>, clientIds: seq<Uuid>, productIds: seq<Uuid>, now: DateTime)
    requires PedidosPhase(t2, t3, ids, clientIds, productIds, now)
    ensures forall o :: o in ids ==> HasPedido(t3, o)
  {
    forall o | o in ids
      ensures HasPedido(t3, o)
    {
      var i :| 0 <= i < |ids| && ids[i] == o;
      assert t3.pedido[|t2.pedido|..][i] == t3.pedido[|t2.pedido| + i];
    }
  }

  /** `populate_postgres`: the four phases in order, each committed before the
      next begins; the first exception rolls back the phase it interrupts and
      ends the run. Started on a database holding only rows this process
      inserted (an empty one, in particular), no phase fails, and every foreign
      key of a new row names a row inserted earlier in the same run. */
  method PopulatePostgres(db: PostgresDb, uuid: Uuid4, fake: Faker, now: DateTime) returns (r: Result<()>)
    modifies db, uuid, fake
    requires db.tables == db.committed
    ensures db.tables == db.committed
    ensures old(db.tables).cliente <= db.tables.cliente && old(db.tables).produto <= db.tables.produto
    ensures old(db.tables).pedido <= db.tables.pedido && old(db.tables).itemPedido <= db.tables.itemPedido
    ensures old(db.tables).pagamento <= db.tables.pagamento
    ensures Tracked(old(db.tables), old(uuid.issued), old(fake.uniqueEmails), old(fake.uniqueCpfs)) ==> r.Success?
    ensures r.Success? ==> PopulatedRun(old(db.tables), db.tables, now)
  {
    var clientIds := PopularClientes(db, uuid, fake, now);
    if clientIds.Failure? {
      return Failure(clientIds.error);
    }
    ghost var t1 := db.tables;
    var productIds := PopularProdutos(db, uuid, fake);
    if productIds.Failure? {
      return Failure(productIds.error);
    }
    ghost var t2 := db.tables;
    ClientIdsExist(old(db.tables), t1, t2, clientIds.value, now);
    ProductIdsExist(t1, t2, productIds.value);
    var orderIds := PopularPedidos(db, uuid, fake, now, clientIds.value, productIds.value);
    if orderIds.Failure? {
      return Failure(orderIds.error);
    }
    ghost var t3 := db.tables;
    OrderIdsExist(t2, t3, orderIds.value, clientIds.value, productIds.value, now);
    r := PopularPagamentos(db, uuid, fake, now, orderIds.value);
    if r.Success? {
      PopulatedRunHolds(old(db.tables), t1, t2, t3, db.tables, clientIds.value, productIds.value, orderIds.value, now);
    }
  }
}
