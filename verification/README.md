# db-comparing, modelled in Dafny

db-comparing loads one e-commerce dataset ("TechMarket") into three stores and
times the same six queries on each. The three stores are PostgreSQL, MongoDB and
Cassandra. This project models the core of that work and proves what it promises.

- **The loaders.** `populate.py` for each store draws 20 000 customers,
  5 000 products and 30 000 orders.
  - The document loader embeds each order's line items and its one payment in
    the order.
  - The relational loader writes five normalised tables. Its 30 000 payments
    pick their order at random, with replacement.
  - The wide-column loader writes every order and every payment twice: once to
    a base table keyed by id, and once to a table shaped for one access
    pattern. The payment copy is partitioned by its `"%Y-%m"` month.
- **The query windows.** Q5 selects a calendar month around a sampled payment
  date. Q6 uses a 90-day look-back. Cassandra's Q5 instead uses the current
  `"%Y-%m"` partition plus a 30-day range.
- **The benchmark loop.** Each query block runs its query `NUM_RUNS` (10)
  times. It appends one latency sample per run and reports
  `sum / NUM_RUNS`. Cassandra's Q1 sample is the sum of two lookups, and its
  Q6 adds up `valor_total` on the client side.

How the model is built:

- Stores whose state the loaders change are classes (`MongoDb`, `PostgresDb`,
  `CassandraSession`). Their tables are fields of type `seq` (insertion order)
  or `map` (Cassandra's upsert by primary key).
- The relational tables check their PRIMARY KEY, UNIQUE and FOREIGN KEY
  constraints on insert. A rejected insert raises `IntegrityError`, which rolls
  the transaction back to the last commit.
- `random`, `uuid.uuid4` and `Faker` are nondeterministic choices limited to
  their documented range. `fake.unique` and uuid4 are modelled as never
  repeating a value, by remembering what they have handed out.
- Money is exact integer cents. Datetimes are proleptic-Gregorian
  field records, and the model compares them as microseconds since
  0001-01-01.
- The query scripts are split in two:
  - a pure *plan* gives, from what the untimed sample lookups return, the
    query each block times and the exception that ends the script;
  - an imperative runner drives a `Client` whose trace records every clock
    reading, every query sent and every answer received.

  Each runner is proved to grow the trace by exactly the runs of the plan's
  blocks, block after block in the plan's order: the i-th block's `NUM_RUNS`
  runs of its query start right where the blocks before it end. Each sample
  is the time between the two clock readings around the run.

## Model

| member | source | states |
|---|---|---|
| RandomSources.Choice | mongo/populate.py:87 | `random.choice` returns an element of the list, and raises IndexError exactly when the list is empty |
| RandomSources.RandInt | mongo/populate.py:76-77 | `random.randint(a, b)` returns a value from a to b inclusive; on bounds in cents, `round(random.uniform(lo, hi), 2)` returns an amount within [lo, hi] |
| RandomSources.Sample | mongo/populate.py:92 | `random.sample` returns k elements of the population. It raises ValueError exactly when k exceeds the population size. Picks from a population of distinct values are distinct |
| RandomSources.Uuid4.Next | mongo/populate.py:48 | `uuid.uuid4()` returns an id never returned before, and records it as issued |
| RandomSources.FreshIdsAppend | mongo/populate.py:48-49 | a list of fresh uuids, extended by the next uuid4, is still pairwise distinct and fresh |
| RandomSources.Faker.UniqueEmail | mongo/populate.py:54 | `fake.unique.email()` never returns an email it returned before; the CPF memory is unchanged |
| RandomSources.Faker.UniqueCpf | mongo/populate.py:59 | `fake.unique.cpf()` never returns a CPF it returned before; the email memory is unchanged |
| RandomSources.Faker.DateTimeBetween | mongo/populate.py:56-58 | `fake.date_time_between(start_date=-span, end_date="now")` lies within [now - span, now] |
| MongoPopulate.GerarClientes | mongo/populate.py:44-62 | returns exactly n customer documents plus an id list aligned with them. The ids are fresh and pairwise distinct. Emails and CPFs are pairwise distinct and new to `fake.unique`. Each `data_cadastro` is within the last two years |
| MongoPopulate.GerarCliente | mongo/populate.py:48-60 | one loop pass: the new document's `_id` is a uuid not issued before, its email and CPF were not yet drawn by `fake.unique` and are now recorded there, and its `data_cadastro` lies within the two years before now |
| MongoPopulate.GerarProdutos | mongo/populate.py:65-80 | returns exactly n product documents with aligned, fresh, distinct ids. Each has a category from the eight, a price in [10.00, 5000.00] and a stock in [0, 1000] |
| MongoPopulate.DrawItems | mongo/populate.py:94-106 | one item per selected product, in order. Quantity is in [1, 3] and unit price in [10.00, 1000.00]. The accumulated total equals the sum of quantity × unit price over the items |
| MongoPopulate.GerarPedido | mongo/populate.py:85-124 | no customers: IndexError. Customers but no products: ValueError. Five or more products: always succeeds. Otherwise any failure is ValueError, from `random.sample` getting fewer products than `num_items`. On success the order is well formed: fresh id; customer from `client_ids`; listed status; date in the last year; 1 to 5 items for distinct listed products; total equal to the items' sum; one payment with listed type and status, dated in the last six months |
| MongoPopulate.GerarPedidos | mongo/populate.py:83-126 | has the same error cases as one order. On success: exactly n well-formed orders with fresh, pairwise distinct ids |
| MongoPopulate.ItemAmountBounds | mongo/populate.py:97-99 | each item adds between 10.00 and 3000.00 to its order's total |
| MongoPopulate.PedidoTotalBounds | mongo/populate.py:91-99 | an order's `valor_total` lies between 10.00 and 15 000.00 |
| MongoPopulate.Admitted | mongo/populate.py:145 | an ordered `insert_many` stores a prefix of the batch: every stored document was admissible when its turn came, and the first one left out was not |
| MongoPopulate.AdmittedClientesUnique | mongo/init_db.py:10 | inserting into `clientes` keeps `_id` and the unique `email` index free of repeats |
| MongoPopulate.FreshClientesAdmitted | mongo/populate.py:44-62 | customers whose ids and emails are new to the store and pairwise distinct are all inserted |
| MongoPopulate.FreshProdutosAdmitted | mongo/populate.py:65-80 | products with new, pairwise distinct ids are all inserted |
| MongoPopulate.FreshPedidosAdmitted | mongo/populate.py:83-126 | orders with new, pairwise distinct ids are all inserted |
| MongoPopulate.MongoDb.InsertClientes | mongo/populate.py:145 | the ordered `insert_many` appends the documents up to the first one whose `_id` or `email` is already stored; it reports success exactly when all went in; the unique indexes on `clientes` stay free of repeats; the other collections are unchanged |
| MongoPopulate.MongoDb.InsertProdutos | mongo/populate.py:151 | the ordered `insert_many` appends the documents up to the first one whose `_id` is already stored, and reports success exactly when all went in; the other collections are unchanged |
| MongoPopulate.MongoDb.InsertPedidos | mongo/populate.py:157 | the ordered `insert_many` appends the documents up to the first one whose `_id` is already stored, and reports success exactly when all went in; the other collections are unchanged |
| MongoPopulate.GeneratedOrdersReferToGenerated | mongo/populate.py:87-92 | every order names a customer document and products among the documents generated with the id lists it drew from |
| MongoPopulate.InserirClientes | mongo/populate.py:141-145 | NUM_CLIENTES customers are generated, with fresh ids, emails and CPFs, no two alike, dated within two years. `clientes` keeps its documents and gains the first few of the batch, all of them exactly on success. The email index stays free of repeats. On a database whose keys all came from this process, all go in and that stays so |
| MongoPopulate.InserirProdutos | mongo/populate.py:147-151 | NUM_PRODUTOS products are generated, with fresh, distinct ids and in range. `produtos` gains the first few of the batch, all of them exactly on success. On a tracked database all go in |
| MongoPopulate.InserirPedidos | mongo/populate.py:153-157 | NUM_PEDIDOS orders are generated, well formed over the given id lists, with fresh, distinct ids. `pedidos` gains the first few of the batch, all of them exactly on success. On a tracked database all go in. When all go in, every new order refers to the customers and products just generated |
| MongoPopulate.StorePedidos | mongo/populate.py:157 | `insert_many` of the orders: `pedidos` gains the first few of the batch, all of it exactly on success, and all of it when the batch's ids are distinct and new to the collection |
| MongoPopulate.StoredBatchesKeepPromises | mongo/populate.py:143-157 | any first part of a generated batch, which is what an interrupted ordered `insert_many` stores, keeps the generator's promises: distinct keys, ranges, well-formed orders |
| MongoPopulate.PopulateMongoDb | mongo/populate.py:128-165 | nothing stored is removed and each collection gains at most its count. A rejected batch skips the later ones (the `except`). The unique indexes on `clientes` stay free of repeats. Every stored customer has a fresh id, email and CPF, no two alike, dated within two years. Every stored product has a fresh, distinct id and is in range. Every stored order has a fresh, distinct id and is well formed over the ids of the customers and products this run stored: total equal to the sum of its lines, one to five distinct products, status, dates and payment in range. On a database whose ids and emails all came from this process, all NUM_CLIENTES / NUM_PRODUTOS / NUM_PEDIDOS documents go in. Whenever all orders go in, so did all customers and products, and every new order refers only to the new customers and products |
| PostgresPopulate.PostgresDb.InsertCliente | postgres/populate.py:50-63 | the INSERT succeeds exactly when id, email and CPF are all new. If so, it appends the row; otherwise nothing changes |
| PostgresPopulate.PostgresDb.InsertProduto | postgres/populate.py:83-95 | the INSERT succeeds exactly when the id is new, and then appends the row |
| PostgresPopulate.PostgresDb.InsertPedido | postgres/populate.py:127-139 | the INSERT succeeds exactly when the id is new and the customer exists, and then appends the row |
| PostgresPopulate.PostgresDb.InsertItem | postgres/populate.py:143-149 | the INSERT succeeds exactly when the (order, product) pair is new and both ids exist, and then appends the row; the table's `(id_pedido, id_produto)` key stays free of repeats |
| PostgresPopulate.PostgresDb.InsertItens | postgres/populate.py:142-149 | `executemany` succeeds exactly when each row is admissible in its turn, and then appends all the rows, no two of which share a key; the table's key stays free of repeats. It always succeeds for the items of one existing order that has no items yet, with distinct existing products |
| PostgresPopulate.AdmittedItemsUnique | postgres/init_db.py:86 | rows that the `(id_pedido, id_produto)` primary key admits one after the other never repeat a key among themselves |
| PostgresPopulate.PostgresDb.InsertPagamento | postgres/populate.py:161-173 | the INSERT succeeds exactly when the id is new and the order exists, and then appends the row |
| PostgresPopulate.PostgresDb.Commit | postgres/populate.py:64 | the committed state becomes the current tables |
| PostgresPopulate.PostgresDb.Rollback | postgres/populate.py:182-187 | the tables return to the last committed state |
| PostgresPopulate.PopularClientes | postgres/populate.py:46-64 | adds exactly NUM_CLIENTES Cliente rows, in range, and nothing else. `client_ids[i]` is the id of the i-th new row. The new rows have pairwise distinct ids, emails and CPFs, so `client_ids` is repeat-free. On tables written only by this loader no row is rejected. On failure: IntegrityError and a rollback |
| PostgresPopulate.PopularProdutos | postgres/populate.py:69-96 | adds exactly NUM_PRODUTOS in-range Produto rows with distinct ids, and nothing else. `product_ids[i]` is the i-th new id. No rejection on a tracked database. On failure: IntegrityError and a rollback |
| PostgresPopulate.DrawItemRows | postgres/populate.py:119-125 | one ItemPedido row per selected product, all carrying this order's id. Quantity is in [1, 3] and unit price in [10.00, 1000.00]. `valor_total` is the sum of quantity × unit price |
| PostgresPopulate.ItemsOfAppend | postgres/populate.py:142-149 | an order's items over rows inserted in two stretches are its items from each stretch, in order |
| PostgresPopulate.ItemsOfNone | postgres/populate.py:133 | rows of other orders contribute no items to an order |
| PostgresPopulate.ItemsOfAll | postgres/populate.py:123 | rows that all carry the order's id are exactly its items |
| PostgresPopulate.InserirPedido | postgres/populate.py:102-149 | one iteration. IndexError exactly when `client_ids` is empty. On success: one Pedido row with a fresh id and a customer from `client_ids`, then its items, all for this order and for pairwise distinct products of `product_ids`, summing to the order's total; their number is at most 5 and at most `len(product_ids)`, and at least 1 when there is a product, which is exactly the set of values `min(randint(1, 5), len(product_ids))` takes. The customer, product and payment tables are unchanged |
| PostgresPopulate.InserirItens | postgres/populate.py:140-148 | `if items_for_order:` the order's rows go in one `executemany`; when they all go in they are for pairwise distinct products; they go in whenever the order exists, has no items yet, and names distinct existing products |
| PostgresPopulate.NewOrdersStep | postgres/populate.py:127-149 | adding an order with its own items keeps every earlier order's total equal to the sum of its items, and keeps the added items free of repeated `(id_pedido, id_produto)` keys |
| PostgresPopulate.ClienteKeysUniqueStep | postgres/init_db.py:13-19 | a Cliente row the table admits (new id, new email, new CPF) keeps the rows added in this run free of a repeated id, email or CPF |
| PostgresPopulate.ItemKeysUniqueStep | postgres/populate.py:110-149 | the items of a fresh order, for distinct products, add no repeated key to the items of earlier orders |
| PostgresPopulate.TotalUnaffected | postgres/populate.py:142-149 | items of other orders do not change whether an order's total matches its items |
| PostgresPopulate.TotalOfNewOrder | postgres/populate.py:125-137 | a new order's total matches exactly the items inserted for it |
| PostgresPopulate.PopularPedidos | postgres/populate.py:101-150 | adds exactly NUM_PEDIDOS Pedido rows with fresh distinct ids, plus those orders' items, and nothing else. Each order's total is the sum of its items, and no two added items share an `(id_pedido, id_produto)` key. No rejection on a tracked database with existing customers and products. On failure: IndexError or IntegrityError, and a rollback |
| PostgresPopulate.PedidosPhaseStep | postgres/populate.py:102-149 | one iteration extends what phase 3 has added by one order and its items |
| PostgresPopulate.InsertableFrame | postgres/populate.py:105-117 | phase 3 does not touch Cliente and Produto, so the ids it draws keep naming existing rows |
| PostgresPopulate.PopularPagamentos | postgres/populate.py:154-174 | adds exactly NUM_PAGAMENTOS in-range Pagamento rows with fresh ids, each naming an order of `order_ids` drawn with replacement. Succeeds on a tracked database whose `order_ids` exist. On failure: IndexError or IntegrityError, and a rollback |
| PostgresPopulate.ClientIdsAreNew | postgres/populate.py:46-49 | every id in `client_ids` is the id of a Cliente row this run added |
| PostgresPopulate.ProductIdsAreNew | postgres/populate.py:69-82 | every id in `product_ids` is the id of a Produto row this run added |
| PostgresPopulate.OrderIdsAreNew | postgres/populate.py:101-104 | every id in `order_ids` is the id of a Pedido row this run added |
| PostgresPopulate.ClientIdsExist | postgres/populate.py:64 | after phase 1, every id in `client_ids` names a Cliente row |
| PostgresPopulate.ProductIdsExist | postgres/populate.py:96 | after phase 2, every id in `product_ids` names a Produto row |
| PostgresPopulate.OrderIdsExist | postgres/populate.py:150 | after phase 3, every id in `order_ids` names a Pedido row |
| PostgresPopulate.PopulatedRunHolds | postgres/populate.py:46-174 | the four phases together add 20 000 customers, 5 000 products, 30 000 orders with 1 to 5 items each, and 30 000 payments. No two added customers share an id, an email or a CPF. Every foreign key of an added row names a row added by the same run, every order's total is the sum of its items, and no two added items share an `(id_pedido, id_produto)` key |
| PostgresPopulate.PopulatePostgres | postgres/populate.py:34-190 | nothing committed is removed. On a database written only by this loader the run succeeds. A successful run leaves the populated state described above |
| CassandraPopulate.CassandraSession.InsertClientePorEmail | cassandra/populate.py:56-69 | the INSERT upserts the row under its email and changes no other table |
| CassandraPopulate.CassandraSession.InsertProdutoPorCategoria | cassandra/populate.py:92-104 | the INSERT upserts the row under (categoria, preco, id_produto) and changes no other table |
| CassandraPopulate.CassandraSession.InsertPedidoBase | cassandra/populate.py:134-140 | the INSERT upserts the order under its id and changes no other table |
| CassandraPopulate.CassandraSession.InsertPedidoPorClienteStatus | cassandra/populate.py:143-149 | the INSERT upserts the order under (customer, status, date, id) and changes no other table |
| CassandraPopulate.CassandraSession.InsertPagamentoBase | cassandra/populate.py:159-165 | the INSERT upserts the payment under its id and changes no other table |
| CassandraPopulate.CassandraSession.InsertPagamentoPorTipoMes | cassandra/populate.py:168-181 | the INSERT upserts the payment under (type, ano_mes, date, id) and changes no other table |
| CassandraPopulate.TrackedGrows | cassandra/populate.py:53-55 | a keyspace whose keys all came from this process's uuid4 and `fake.unique` stays so as more values are handed out |
| CassandraPopulate.ClientesStep | cassandra/populate.py:52-69 | each customer is written under a new email, so no earlier row is replaced |
| CassandraPopulate.PopularClientes | cassandra/populate.py:51-69 | writes only `clientes_por_email` and returns NUM_CLIENTES fresh distinct ids, each the id of a row. Every new row is in range and carries an id of the list. On a tracked keyspace the table grows by exactly NUM_CLIENTES rows and no row is replaced |
| CassandraPopulate.PopularProdutos | cassandra/populate.py:76-104 | writes only `produtos_por_categoria` and returns NUM_PRODUTOS distinct fresh ids, each the id of a row. Every new row has a category from the eight, a price in [10.00, 5000.00] and a stock in [0, 1000]. On a tracked keyspace the table grows by exactly NUM_PRODUTOS |
| CassandraPopulate.InserirPedido | cassandra/populate.py:117-181 | one iteration. IndexError exactly when `client_ids` is empty, and then nothing is written. Otherwise it makes the four writes of one order and its payment. The total is in [50.00, 5000.00], drawn independently of the sampled products, and `ano_mes` is the payment date's `"%Y-%m"` |
| CassandraPopulate.WrittenKeys | cassandra/populate.py:116-181 | the order loop leaves customers and products alone; the base tables end with their old keys plus the drawn ids |
| CassandraPopulate.WrittenRows | cassandra/populate.py:134-165 | with distinct ids, every drawn order and payment is stored in its base table exactly as drawn |
| CassandraPopulate.WrittenKeepsOldRows | cassandra/populate.py:134-165 | when no drawn id was already a key, every row already in the base tables is left as it was |
| CassandraPopulate.FreshLast | cassandra/populate.py:117-152 | the newest drawn ids are not yet keys of the tables the earlier iterations wrote |
| CassandraPopulate.WriteOrderKeepsPedidosMirrored | cassandra/populate.py:134-149 | writing an order under a fresh id keeps `pedidos_base` and `pedidos_por_cliente_status` holding the same orders with the same fields |
| CassandraPopulate.WriteOrderKeepsPagamentosMirrored | cassandra/populate.py:159-181 | writing a payment under a fresh id keeps `pagamentos_base` and `pagamentos_por_tipo_mes` holding the same payments with the same fields |
| CassandraPopulate.WriteOrderCounts | cassandra/populate.py:134-181 | one fresh iteration adds exactly one row to each of the four order and payment tables |
| CassandraPopulate.WrittenMirroredAndCounted | cassandra/populate.py:116-181 | after fresh iterations both fan-outs stay mirrored, and each of the four tables gains one row per iteration |
| CassandraPopulate.WrittenOnePaymentPerOrder | cassandra/populate.py:152-165 | each order the loop adds is named by exactly one row of `pagamentos_base` |
| CassandraPopulate.PaymentOfDrawnOrder | cassandra/populate.py:152-165 | a payment that names a drawn order is the payment drawn in that same iteration |
| CassandraPopulate.WrittenOrdersWritten | cassandra/populate.py:116-181 | every drawn order is stored with in-range fields and a customer from `client_ids`. Every payment the loop stores names one of the new orders |
| CassandraPopulate.WrittenNewOrders | cassandra/populate.py:117-118 | the orders a fresh loop adds are exactly the ids in `order_ids` |
| CassandraPopulate.WrittenAppends | cassandra/populate.py:116-181 | on a tracked keyspace the loop only appends: old rows stay, each table gains NUM_PEDIDOS rows, the fan-outs are mirrored, one payment per order |
| CassandraPopulate.DrawnOrderIdsFresh | cassandra/populate.py:117-118 | the returned `order_ids` are fresh, pairwise distinct uuids |
| CassandraPopulate.DrawsStep | cassandra/populate.py:116-181 | one more iteration keeps the drawn ids distinct and fresh, and adds its write to the keyspace |
| CassandraPopulate.TrackedAfterOrders | cassandra/populate.py:116-181 | every key the order loop adds, and every order its payments name, is a uuid of this process |
| CassandraPopulate.PopularPedidos | cassandra/populate.py:111-181 | IndexError exactly when `client_ids` is empty, before anything is written. Otherwise: NUM_PEDIDOS fresh distinct order ids, each stored in range. On a tracked keyspace every table gains NUM_PEDIDOS rows, no row is replaced, the fan-outs are mirrored and every new order has exactly one payment |
| CassandraPopulate.PaymentPartitionIsItsMonth | cassandra/populate.py:156-181 | a payment's `ano_mes` reads back as its own date's year and month. A datetime has that key exactly when it falls in that month |
| CassandraPopulate.PopulatedRunHolds | cassandra/populate.py:48-181 | the three loops together leave a populated run: every table grows by its count and keeps what it had; fan-outs mirrored; new orders name existing customers and have one payment each; new payments name new orders; all values in range |
| CassandraPopulate.RunPaymentsHold | cassandra/populate.py:152-181 | after the run, each new order has exactly one payment |
| CassandraPopulate.RunGrowsHolds | cassandra/populate.py:52-181 | after the run, each of the six tables has grown by exactly its count |
| CassandraPopulate.RunRefersHolds | cassandra/populate.py:119-164 | after the run, new orders name customers that have rows and new payments name new orders |
| CassandraPopulate.NewOrdersReferToClientes | cassandra/populate.py:119 | every new order's customer has a `clientes_por_email` row |
| CassandraPopulate.NewPaymentsReferToNewOrders | cassandra/populate.py:164 | every new payment names an order the run added |
| CassandraPopulate.RunInRangeHolds | cassandra/populate.py:52-181 | after the run, every new row holds values from the ranges its loop draws from |
| CassandraPopulate.PopulateCassandra | cassandra/populate.py:40-195 | on a keyspace written only by this loader, no exception is raised and the populated-run property holds afterwards |
| Calendar.DaysInMonth | postgres/queries.py:204-222 | every Gregorian month has 28 to 31 days |
| Calendar.NextMonth | postgres/queries.py:204-222 | the month after (y, m) is one month later, with December rolling over to January of y + 1 |
| Calendar.MonthStartStep | postgres/queries.py:204-222 | the next month starts exactly the current month's length of days after this month starts |
| Calendar.MonthStartMonotone | postgres/queries.py:204-222 | a later month starts no earlier than the end of an earlier one |
| Calendar.InstantWithinItsMonth | postgres/queries.py:201-222 | every datetime lies between the start of its month and the start of the next month |
| Calendar.InMonthIff | postgres/queries.py:201-222 | a datetime lies between the starts of month (y, m) and the month after it exactly when its year and month are (y, m) |
| Calendar.YearMonthKey | cassandra/populate.py:156 | `strftime("%Y-%m")` is seven characters: four digits, a dash, two digits |
| Calendar.DecodeYearMonthKeyInverse | cassandra/populate.py:156 | the `"%Y-%m"` key reads back as the date's year and month |
| Calendar.YearMonthKeyIdentifiesMonth | cassandra/queries.py:206 | two datetimes have the same `"%Y-%m"` key exactly when they share year and month |
| QueryWindows.MonthWindow | postgres/queries.py:201-222 | the month window fails exactly for December 9999, where `replace(year=year + 1)` raises ValueError. Otherwise it contains the reference date |
| QueryWindows.MonthWindowIsCalendarMonth | mongo/queries.py:207-228 | a datetime is in the month window exactly when it has the reference date's year and month |
| QueryWindows.LookBack | postgres/queries.py:267-271 | `end - timedelta(days=n)` fails exactly when it would fall before 0001-01-01. Otherwise the window ends at `end` and contains exactly the instants from n days before `end` up to `end` |
| Benchmark.Client.Time | postgres/queries.py:38 | `time.time()` appends one clock reading to the trace |
| Benchmark.Client.Send | postgres/queries.py:40-43 | sending a query appends it to the trace |
| Benchmark.Client.FetchAll | postgres/queries.py:45 | `fetchall()` returns every row of the answer and records how many |
| Benchmark.ExecuteQuery | postgres/queries.py:36-46 | `execute_query` returns every row, reads the clock before sending and after fetching everything, and returns `(end - start) * 1000` |
| Benchmark.MeasureExecutionTime | mongo/queries.py:30-34 | `measure_execution_time` drains the cursor between the two clock readings and returns `(end - start) * 1000` with every row |
| Benchmark.TimedRun | cassandra/queries.py:37-46 | one run records four events and returns its sample and its rows. Where the query is sent relative to the clock depends on the driver call |
| Benchmark.RunKept | postgres/queries.py:70-88 | a recorded run stays recorded when the trace grows |
| Benchmark.RunsLoggedStep | postgres/queries.py:71-87 | appending one run to a back-to-back log adds its sample to the samples |
| Benchmark.TimeQuery | postgres/queries.py:70-88 | a timing loop adds exactly NUM_RUNS runs of the query to the trace, one sample per run, in order, and returns the last run's rows |
| Benchmark.RunsLoggedUnique | postgres/queries.py:70-88 | the trace determines the samples: two logs of the same runs have the same samples |
| Benchmark.SumBounds | postgres/queries.py:88 | a sum of n samples each within [lo, hi] lies within [n·lo, n·hi] |
| Benchmark.AverageBounds | postgres/queries.py:88 | the reported average `sum / NUM_RUNS` of NUM_RUNS samples lies between their lower and upper bounds |
| Benchmark.AverageOfConstant | mongo/queries.py:88 | NUM_RUNS equal samples average to that value |
| Benchmark.BlockDoneKept | postgres/queries.py:68-94 | a block finished at a position of the trace stays finished there as later blocks append to it |
| Benchmark.AllDoneAppend | postgres/queries.py:64-297 | a block finished right where the earlier blocks end extends the list of finished blocks, and the blocks' span grows by its runs |
| Benchmark.AllDoneBlocks | postgres/queries.py:64-297 | the k-th of the finished blocks is done at the position where the k blocks before it end, within the trace |
| Benchmark.AllDoneKept | postgres/queries.py:64-297 | finished blocks stay finished, at the same positions, as the trace grows |
| Benchmark.GatedTiming | postgres/queries.py:68-94 | a block with no sample records nothing and reports "none found". A block with a sample appends exactly NUM_RUNS runs of its query, starting where the trace ended, and reports their average |
| Benchmark.NextBlock | postgres/queries.py:64-297 | the next block appends exactly its runs right after the earlier blocks, which stay done, and becomes the last finished block |
| PostgresQueries.QueryPlanBlocks | postgres/queries.py:49-302 | Q1–Q3 are timed exactly when their lookup found a row, and Q4 always runs. Q5 runs exactly when a PIX payment was found, Q6 exactly when the sampled customer has an order. ValueError (payment in December 9999) or OverflowError (order date under 90 days after 0001-01-01) ends the script, and only those errors can |
| PostgresQueries.RunPostgresQueries | postgres/queries.py:49-302 | the script ends with exactly the plan's exception; the trace grows by exactly the runs of the blocks the plan reached, block after block in plan order, each holding NUM_RUNS runs of its query and the average reported |
| PostgresQueries.RunFirstBlocks | postgres/queries.py:59-130 | Q1 then Q2, as planned, appended from the end of the trace |
| PostgresQueries.RunMiddleBlocks | postgres/queries.py:132-187 | Q3 then Q4, as planned, appended right after Q1 and Q2 |
| PostgresQueries.RunLastBlocks | postgres/queries.py:189-297 | right after the first four blocks, Q5 and Q6 are appended as planned, or the script stops at the planned exception |
| PostgresQueries.Q5SelectsReferenceMonth | postgres/queries.py:194-240 | Q5's window contains the reference payment date. A payment is selected exactly when it is a PIX payment of the reference date's calendar month |
| PostgresQueries.Q6SelectsNinetyDays | postgres/queries.py:266-287 | Q6 is for the sampled customer. An order is selected exactly when it belongs to that customer and is dated from 90 days before the sampled order date up to it |
| PostgresQueries.Q5SampleSelected | postgres/queries.py:194-240 | on samples taken from the tables, the sampled PIX payment is itself selected by Q5 |
| PostgresQueries.Q6SampleSelected | postgres/queries.py:253-287 | on samples taken from the tables, the order whose date ends Q6's window is selected by Q6 |
| PostgresQueries.Q6TimedIffClientHasOrders | postgres/queries.py:253-266 | Q6 is timed exactly when the sampled customer has an order |
| PostgresQueries.BlocksTimedIffRows | postgres/queries.py:64-198 | on samples taken from the tables, each block with a lookup is timed exactly when its table has rows |
| MongoQueries.QueryPlanBlocks | mongo/queries.py:37-313 | every block reached whose lookup found a document is timed, except Q5, which also needs `pagamento.data_pagamento`. `.next()` on an empty sample raises StopIteration, which ends the script, exactly at the first empty lookup. Q5 raises ValueError for December 9999; Q6 raises OverflowError for an order under 90 days after 0001-01-01 |
| MongoQueries.RunMongoQueries | mongo/queries.py:37-313 | the script ends with exactly the plan's exception. The trace grows by exactly the runs of the blocks reached, block after block in plan order, each holding NUM_RUNS runs of its query: timed around the send for `find`, after the send for `aggregate` |
| MongoQueries.RunFirstBlocks | mongo/queries.py:47-121 | Q1 then Q2, appended from the end of the trace |
| MongoQueries.RunMiddleBlocks | mongo/queries.py:123-187 | Q3 then Q4, appended right after Q1 and Q2 |
| MongoQueries.RunLastBlocks | mongo/queries.py:189-300 | right after Q1–Q4, Q5 and Q6 are appended as planned, or the script stops at the planned exception |
| MongoQueries.Q5SelectsReferenceMonth | mongo/queries.py:193-245 | Q5's window contains the sampled payment date. An order is selected exactly when its payment is PIX and dated in that calendar month |
| MongoQueries.Q6SelectsSampledOrder | mongo/queries.py:261-300 | Q6's customer and window end come from one sampled order, so that order is selected. An order is selected exactly when it has that customer and a date from 90 days before up to the sampled date |
| MongoQueries.EmptySampleEndsScript | mongo/queries.py:49-199 | with no customers, the first `.next()` raises StopIteration before any block is timed. With no PIX order, Q1–Q4 run and Q5's sample raises StopIteration |
| MongoQueries.AllBlocksTimed | mongo/queries.py:37-300 | on populated collections with a PIX order and dates past the ranges that overflow, all six blocks are timed and no exception is raised |
| MongoQueries.Q5SampleSelected | mongo/queries.py:193-245 | on samples from the collections, the sampled PIX order is selected by Q5 |
| MongoQueries.Q6SampleSelected | mongo/queries.py:261-300 | on samples from the collections, Q6 selects at least the sampled order |
| CassandraQueries.QueryPlanBlocks | cassandra/queries.py:49-275 | Q2, Q3 and Q6 are timed exactly when their `LIMIT 1` lookup found a row. Q4 and Q5 always run. The only exception is OverflowError, from a clock reading under 30 or 90 days after 0001-01-01 |
| CassandraQueries.PairRunKept | cassandra/queries.py:92-100 | a recorded Q1 run stays recorded when the trace grows |
| CassandraQueries.ClientOrdersRun | cassandra/queries.py:92-100 | one Q1 run times both lookups and returns both answers. Its sample is the customer-lookup time plus the orders-lookup time |
| CassandraQueries.TimeClientOrders | cassandra/queries.py:76-102 | the Q1 loop records exactly NUM_RUNS two-lookup runs, one summed sample each |
| CassandraQueries.Q1DoneKept | cassandra/queries.py:72-108 | a Q1 block finished at a position of the trace stays finished there when the trace grows |
| CassandraQueries.ClientOrdersBlock | cassandra/queries.py:72-108 | without a sampled customer, Q1 records nothing. With one, it appends exactly NUM_RUNS paired runs from the end of the trace and reports their average |
| CassandraQueries.TotalGasto | cassandra/queries.py:258 | `sum(row.valor_total for row in results) if results else 0` is the sum of `valor_total` over the rows, and 0 for none |
| CassandraQueries.TotalGastoBounds | cassandra/queries.py:258 | a total over n rows whose `valor_total` lies in [lo, hi] lies in [n·lo, n·hi] |
| CassandraQueries.TimeSpending | cassandra/queries.py:243-262 | the Q6 loop records NUM_RUNS runs whose samples time only the query, not the sum, and returns the client-side total of the rows |
| CassandraQueries.RunCassandraQueries | cassandra/queries.py:49-275 | Q1 is done first, from where the trace ended, and the script ends with exactly the plan's exception. Right after Q1, the trace grows by exactly the runs of the blocks reached, in plan order, each holding NUM_RUNS runs. A Q6 total exists exactly when Q6 ran, and it is the sum over Q6's rows |
| CassandraQueries.RunTimedBlocks | cassandra/queries.py:111-268 | Q2 to Q6 appended from the end of the trace as planned, ending with the plan's exception; the Q6 total as above |
| CassandraQueries.RunFirstBlocks | cassandra/queries.py:111-166 | Q2 then Q3, as planned, appended from the end of the trace |
| CassandraQueries.RunLastBlocks | cassandra/queries.py:197-268 | right after Q2–Q4, Q5 and Q6 are appended as planned. A Q6 total exists exactly when Q6 ran, and it is its rows' sum |
| CassandraQueries.RunQ6Block | cassandra/queries.py:227-268 | the 90-day window raises exactly when the plan says, leaving the trace as it was; otherwise the Q6 block is appended right after the earlier blocks |
| CassandraQueries.NextSpendingBlock | cassandra/queries.py:236-262 | `if sample_client_q6:` appends the Q6 block right after the earlier blocks; a total exists exactly when the block ran, and it is the sum over its rows |
| CassandraQueries.Q5SelectsIff | cassandra/queries.py:201-220 | a PIX payment is selected exactly when it is dated in the month of the partition-key clock reading and within the 30-day range |
| CassandraQueries.Q5RangeReachesPreviousMonth | cassandra/queries.py:201-213 | the 30-day range starts before the current month exactly when the day of month is at most 30 |
| CassandraQueries.Q5MissesPreviousMonth | cassandra/queries.py:201-213 | when both clock readings fall in one month, no payment dated before that month is returned, even inside the 30-day range |
| CassandraQueries.Q5EmptyAfterMonthChange | cassandra/queries.py:201-206 | when the key's clock reading has passed into a later month than the range's end, Q5 returns nothing |
| CassandraQueries.Q6SelectsOrdersOfNinetyDays | cassandra/queries.py:234-257 | Q6 selects exactly the sampled customer's orders dated in the 90 days up to the clock reading. On a mirrored keyspace these are its `pedidos_base` orders of that range |
| CassandraQueries.BlocksTimedIffRows | cassandra/queries.py:68-236 | on samples from the keyspace, each block with a lookup is timed exactly when its table has rows. `LIMIT 1` returns the same first customer for Q1, Q3 and Q6 |

## Left out

- Connections, retries, DDL, index creation, session shutdown, `print` reporting and the elapsed-time figures of the loaders. These are I/O. A connection that fails before any work is not modelled.
- The `except` branches of the scripts only print. They are modelled as the script ending with the exception, or in the relational loader as a rollback.
- Query evaluation inside the stores: joins, GROUP BY, ORDER BY, aggregation pipelines, CQL clustering order and every `LIMIT`.
  - Only the WHERE clauses of Q5 and Q6 are modelled as selection predicates.
  - The answer to each timed query is an oracle parameter `store`.
  - Nothing is claimed about Q2's order, Q4's "top sellers" or how Q1 picks its last orders.
- Whether Cassandra accepts the partial-partition-key queries of cassandra/queries.py:84-88 and cassandra/queries.py:249-253 (no `ALLOW FILTERING`) is not modelled. They are taken to answer.
- The untimed sample lookups (`OFFSET floor(random() * ...)`, `$sample`, `LIMIT 1`) are oracle inputs, not trace events.
  - `SampledFrom` states only what the lookups guarantee: the value comes from a row of the table.
  - For Cassandra it also states that every `LIMIT 1` on `clientes_por_email` returns the same first row.
- Faker.DateTimeBetween: one `now` stands for every clock reading Faker takes during a load. `date_time_between(..., end_date="now")` reads the clock on each call, but MongoPopulate.GerarClientes and GerarPedidos, PostgresPopulate.PopularClientes, PopularPedidos, PopularPagamentos and PopulatePostgres, and CassandraPopulate.PopularClientes, PopularPedidos and PopulateCassandra all pass one `now` to every draw. The date ranges they state (`ClienteRowInRange`, `PagamentoRowInRange`, `PedidoWellFormed`, `RunInRange`) are therefore exact only up to the load's duration: an early row may lie that much before `now - span`.
- `datetime.now()` and `time.time()` are inputs. Latencies are exact reals, so float rounding in `sum(...)/NUM_RUNS` is not modelled.
- Money is exact integer cents.
  - MongoPopulate.GerarPedido, PostgresPopulate.DrawItemRows: the float `total += qty * preco` followed by `round(total, 2)` is modelled as the exact sum in cents. Binary-float drift of less than a cent is not modelled.
  - CassandraQueries.TotalGasto: Cassandra `decimal` values are summed exactly.
- Faker's text providers (names, phones, words) are free strings. Only the ranges of `date_time_between` and the uniqueness of `fake.unique` are kept. Faker's reading of "-2y", "-1y" and "-6m" uses 365.24-day years and 30.42-day months.
- Distributions, seeding and reproducibility of `random` are not modelled.
- uuid4 freshness is assumed by construction (the issued set), not proved.
- RandomSources.Faker.UniqueEmail, RandomSources.Faker.UniqueCpf: always return a new value. Faker's `unique` proxy gives up with UniquenessException after 1 000 repeated draws; that exhaustion error is part of the assumed freshness of `fake.unique` and is not modelled.
- Calendar.YearMonthKey: `strftime("%Y")` is taken to give four digits. Years below 1000 are not zero-padded by some C libraries; the populated dates are all recent.
- MongoPopulate.MongoDb, MongoQueries and the Cassandra keyspace: MongoDB stores a `datetime` as a BSON date and Cassandra as a `timestamp`, both with millisecond precision, so Faker's microseconds are dropped on write. The model keeps microseconds, so a datetime is read back exactly as written. No proved property depends on this, since truncation keeps the month and the order of dates.
- The MongoDB field-presence check of Q5 is modelled as a sample with or without `data_pagamento`. Populated documents always have it.
- Mongo Q1 samples a customer's email as well as its id. The email is only printed, so only the id is modelled.
- The Cassandra loader is modelled with its order-loop `random.sample` drawn and discarded, since nothing written depends on it.

## Behaviour of the code worth noting

- A block's example result is the last run's rows: `results` is overwritten on every run of the timing loop (postgres/queries.py:86, mongo/queries.py:84).
- An exception in any block ends the whole script, because all six blocks sit in one `try` (postgres/queries.py:57-301); the later blocks are not run.
- The relational loader's payments pick their order with replacement (postgres/populate.py:159), so some orders have several payments and some none.
- The Cassandra order total is drawn independently of the items (cassandra/populate.py:131).
- The Mongo loader has no `min(...)` guard on `random.sample` (mongo/populate.py:92), so fewer than five products can raise ValueError.
