# pdv_py — a verified model of the point-of-sale core

pdv_py is a small retail point of sale ("PDV") written in Python on
Streamlit. A cashier builds a cart (by barcode, code or from a product list),
adjusts quantities, and concludes the sale, which records a sale header, one
item row per cart line and one stock decrement per line. Back-office screens
manage products and categories and show sales and stock reports.

The repository holds three variants of this core, and the model keeps all
three apart, because they differ precisely in what happens when a statement
fails:

* `models.py` over `database.py` (PostgreSQL), driven by `views.py` —
  module `Models` (tables, keys, constraints, lookups, `Venda.registrar`) and
  module `Views` (the session state of the screens: cart, two-click delete,
  edit forms, reports). `registrar` is one transaction: all or nothing.
* `app_nativo.py` (SQLite) — module `AppNativo`: cart with merge-by-id,
  barcode lookup, listings, search, dashboard metrics and `create_sale`,
  whose every statement commits on its own and whose errors are swallowed.
* `app_cloud.py` (PostgreSQL, one cached connection) — module `AppCloud`:
  the same screens as `app_nativo.py` (reused from `AppNativo`), with the
  data layer as written: the barcode lookup stamps `ultima_leitura`, and
  `create_sale` takes its key from `run_query`'s return value and runs on a
  connection that is never rolled back.

Supporting modules: `Common` (Option, the statement labels used to place
server faults, filter/find/sum over sequences), `Ordering` (a sort by a total
preorder, lexicographic string order), `Text` (`lower()` on the Latin-1
letters, and substring).

Modelling conventions:

* Money is an integer number of cents; timestamps and dates are integers
  (seconds), a day is `t / 86400`.
* Tables are sequences of rows in table order; keys come from a counter
  that stands for `SERIAL` (PostgreSQL) or SQLite's rowid.
* The database server is not modelled. Instead, every write takes a set
  `faults` of statements at which the server raises (`Query`, `Header`,
  `Item(k)`, `Stock(k)`, `Commit`, and `Select` and `Stamp` in the barcode
  lookup of `app_cloud.py`). The other lookups take no faults: they are
  modelled as reads that always succeed. Constraint violations
  the schema itself raises are modelled concretely: UNIQUE `produtos.codigo`
  and `vendas.venda_id`, and the foreign keys `produtos.categoria_id`,
  `venda_itens.venda_id` and `venda_itens.produto_id` (`database.py:89-139`).
  Every other error the schema can raise falls under `faults`: a string
  longer than its VARCHAR (for example `codigo` 50, `nome` 200), an `estoque`
  outside the INT range, or an amount outside DECIMAL(10,2).
* Generated values are parameters: `uuid4()` in `registrar` (`vendaId`,
  never empty), the clock (`agora`).
* Streamlit's `session_state` is the class `Views.Sessao` (and the cart
  class `AppNativo.Carrinho`). Every button handler is a method on it.

## Model

| member | source | states |
|---|---|---|
| Models.Database.constructor | database.py:82-151 | after the first `init_database` the tables are created, `categorias` holds the five default categories under keys 1 to 5 (so the next key is 6), the other tables are empty, and the keys, UNIQUE columns and foreign keys hold |
| Models.Database.InitDatabase | database.py:141-151 | on every rerun (app.py:20): an empty category table is re-seeded with the five defaults under the next five keys, and a non-empty one is left alone, so without a fault the table is never empty afterwards; the other tables and the product key never change |
| Models.Database.CategoriaAdd | models.py:23-36 | a new category gets the next key, and exactly that row is appended; on a server fault nothing changes; no other table changes |
| Models.Database.CategoriaUpdate | models.py:39-50 | the row with that key gets the new name and description, and every other row is untouched; a failure changes nothing |
| Models.Database.CategoriaDelete | models.py:53-68 | true exactly when there is no fault and no product still references the category; then only rows with that key are gone; on false nothing changed |
| Models.Database.ProdutoAdd | models.py:131-153 | succeeds exactly when there is no fault, the code is not in use and the category is absent or exists; then the product is appended under the next key; otherwise nothing changed |
| Models.Database.ProdutoUpdate | models.py:156-178 | rewrites every column of the row with that key and only that row; fails (nothing changed) on a fault, on a code used by another product, or on a missing category |
| Models.Database.ProdutoDelete | models.py:181-196 | true exactly when there is no fault and no sale item references the product; the product is then removed, and otherwise nothing changed |
| Models.Database.UpdateStock | models.py:199-213 | only that product's stock changes, by minus the quantity, with no lower bound; every other table is unchanged |
| Models.Database.Registrar | models.py:220-276 | all or nothing: it succeeds exactly when the key is new, every cart product exists and no statement fails. On success the header carries the caller's total, the item rows are exactly the cart lines and stock drops per line. Otherwise no table changed |
| Models.RegistrarKeepsConsistent | models.py:244-266 | a committed sale preserves every key, UNIQUE column and foreign key of the schema |
| Models.BaixarEstoqueEffect | models.py:250-264 | after a sale each product's stock has dropped by exactly the total quantity of that product over the cart lines (duplicate lines add up); no other column changes |
| Models.StockDecrementedTotal | models.py:199-213 | one decrement keeps every product key, lowers the total stock by the quantity when the product exists, and leaves the table as it was when it does not |
| Models.BaixarEstoqueKeepsId | models.py:261-264 | stock decrements never add, remove or re-key a product |
| Models.GetById | models.py:91-108 | Some exactly when a product with that key exists, and then it is that product |
| Models.GetByBarcode | models.py:111-128 | None exactly when no product has that barcode; otherwise a product with that barcode |
| Models.ProdutoGetAll | models.py:75-88 | every product exactly once (a permutation of the table), ordered by name |
| Models.CategoriaGetAll | models.py:13-20 | every category exactly once, ordered by name |
| Models.VendasNoPeriodo | models.py:290-299 | exactly the sales whose date lies within the optional inclusive bounds |
| Models.VendaGetAll | models.py:279-303 | a permutation of the sales in the period, newest first |
| Models.GetDetalhes | models.py:306-322 | the item rows of that sale whose product still exists (the INNER JOIN), and no other row |
| Models.GetDetalhesMultiplicidade | models.py:306-322 | each such item row appears exactly as often as in the table, and every other row not at all |
| Models.DetalhesDaVendaRegistrada | models.py:306-322 | right after `registrar` commits, the details of the new sale are exactly its cart lines, as item rows |
| Models.Database.Transacao | models.py:244-266 | inside the open transaction, every item insert and decrement succeeds exactly when no such statement fails and every cart product exists; the rows and stock seen are then those of the whole cart |
| Models.GetByIdAposAtualizar | models.py:156-178 | after an update, looking up the updated key finds the new row when that key existed, and every other key finds what it found before |
| Models.SemProduto | models.py:191-193 | deleting keeps exactly the products with another key |
| Models.SemCategoria | models.py:63-65 | deleting keeps exactly the categories with another key |
| Views.Sessao.AdicionarAoCarrinho | views.py:179-189 | appends one line, with no merge with an existing line of the same product; the new line has quantity 1 and subtotal the product's price, so the cart total rises by that price; the confirmations and both forms are unchanged |
| Views.Sessao.AtualizarCarrinho | views.py:101-107 | the cart becomes the edited rows with every subtotal recomputed as quantity × unit price; its total is then the sum of quantity × unit price over the edited rows; the confirmations and both forms are unchanged |
| Views.TotalDeLinhasCoerentes | views.py:115 | for coherent lines the cart total (sum of subtotals) equals the sum of quantity × unit price |
| Views.MesmaQuantidadeVezesPreco | views.py:101-107 | rows that agree on quantity and unit price have the same quantity × price sum, whatever their stale subtotals |
| Views.Sessao.LimparCarrinho | views.py:110-112 | the cart is empty; the confirmations and both forms are unchanged |
| Views.Sessao.FinalizarVenda | views.py:127-143 | an empty cart is refused and nothing is written. Otherwise the sale is recorded exactly when `registrar` succeeds, with the cart's total; the cart is cleared exactly then; on failure the cart and every table are unchanged. The categories, both key counters, the confirmations and both forms never change |
| Views.SegundoCliqueExclui | views.py:252-265 | a first click on an item never deletes, and it arms the confirmation so that the next click on the same item does |
| Views.Sessao.ExcluirProduto | views.py:252-265 | deletes only on the confirming click, exactly when `Produto.delete` succeeds; the pending confirmation becomes the clicked id after a first click, and is cleared after a successful confirming click; the cart, the other confirmation, both forms, the other tables and both key counters are unchanged |
| Views.Sessao.ExcluirCategoria | views.py:408-421 | the same two-click protocol for categories, deleting exactly when `Categoria.delete` succeeds; nothing else in the session or the other tables changes, nor does either key counter |
| Views.Sessao.EditarProduto | views.py:241-249 | enters edit mode with the product exactly when the id is non-zero and the product exists; otherwise the edit state is unchanged; the cart, the confirmations and the category form never change |
| Views.Sessao.EditarCategoria | views.py:396-405 | enters edit mode with the listed category exactly when the id is non-zero and it is listed; the cart, the confirmations and the product form never change |
| Views.MesmasCategorias | views.py:396-405 | looking the category up in the sorted listing finds it exactly when it is in the table |
| Views.Sessao.SalvarProduto | views.py:338-359 | rejected (nothing written) exactly when code or name is empty or the price is zero. Otherwise it updates when editing a non-zero id and adds otherwise, succeeding exactly when the model operation does; a successful update leaves edit mode. The product key counter advances exactly on a successful add; the cart, the confirmations, the category form and the other tables never change |
| Views.Sessao.SalvarCategoria | views.py:448-463 | rejected exactly when the name is empty; otherwise updates or appends the category, and a successful update leaves edit mode. The category key counter advances exactly on a successful add; the cart, the confirmations, the product form and the other tables never change |
| Views.Sessao.CancelarEdicaoProduto | views.py:362-365 | leaves product edit mode; the cart, the confirmations and the category form are unchanged |
| Views.Sessao.CancelarEdicaoCategoria | views.py:466-469 | leaves category edit mode; the cart, the confirmations and the product form are unchanged |
| Views.ResumoDoPeriodo | views.py:493-500 | the count and the revenue of the sales report are the count and the sum of totals of exactly the sales in the period |
| Views.AgruparParticiona | views.py:529-540 | grouping sales by day or by payment method gives distinct keys. A key appears exactly when some sale has it, each group's total is the sum over the sales with that key, and the group totals add up to the period's revenue |
| Views.TotalDaChaveAusente | views.py:529-540 | a key no sale carries has total zero |
| Views.ValorETotalDaListagem | views.py:583 | the stock value (Σ price × stock) and the item count (Σ stock) of the product listing equal those of the product table (views.py:631) |
| Views.AbaixoDoLimite | views.py:636-638 | exactly the products whose stock is below the configured threshold (10, config.py:28) |
| Views.EstoqueBaixo | views.py:636-638 | the low-stock products, every one exactly once, in ascending order of stock |
| AppNativo.Carrinho.Add | app_nativo.py:449-463 | the cart becomes `Adicionado`: the first line with the product's id gains the quantity, or else a new line is appended; line ids stay unique |
| AppNativo.AdicionadoMerge | app_nativo.py:452-455 | when the product is already in the cart, only that line changes and only its quantity grows |
| AppNativo.AdicionadoAppend | app_nativo.py:456-463 | when the product is not in the cart, exactly one line (id, name, barcode, price, quantity) is appended |
| AppNativo.AdicionadoMantemUnicos | app_nativo.py:375-389 | adding keeps one line per product, the product is then in the cart, the cart grows exactly when the product was new, and existing lines keep their positions |
| AppNativo.AdicionadoTotal | app_nativo.py:375-389 | the cart total rises by quantity × price: the price already stored in the cart line when merging, the product's price when appending |
| AppNativo.Carrinho.SetQuantity | app_nativo.py:503-509 | only that line's quantity changes, and the total changes by the difference of that line's subtotals |
| AppNativo.Carrinho.Remove | app_nativo.py:512-514 | exactly that line is removed, the others keep their order, and the total drops by its subtotal |
| AppNativo.Carrinho.Clear | app_nativo.py:566-568 | the cart is empty |
| AppNativo.GetProductByBarcode | app_nativo.py:136-154 | nothing for an empty token; otherwise None exactly when no active product has that barcode or code, else the first such product |
| AppNativo.Ativos | app_nativo.py:158-167 | exactly the active products, each at most as often as in the table |
| AppNativo.GetAllProducts | app_nativo.py:158-167 | a permutation of the active products, ordered by name |
| AppNativo.EstoqueBaixo | app_nativo.py:310 | exactly the products whose stock is at or below their own minimum |
| AppNativo.ValorEmEstoqueDaListagem | app_nativo.py:313 | the dashboard's stock value over the listing equals Σ price × stock over the active products |
| AppNativo.FiltrarBusca | app_nativo.py:408-411 | exactly the products whose lower-cased name, code or barcode contains the lower-cased query |
| AppNativo.Buscar | app_nativo.py:406-411 | an empty query keeps the listing; otherwise exactly the products matching the lower-cased query |
| AppNativo.BuscarIgnoraCaixa | app_nativo.py:406-411 | the search does not depend on the case of the query |
| AppNativo.Loja.CreateSale | app_nativo.py:170-209 | an empty cart fails with "Carrinho vazio" and a failed header with "Falha ao criar venda", writing nothing. Otherwise the header gets a fresh id and the cart total, and the item and stock statements run one by one, each committed on its own |
| AppNativo.VendaSemFalhas | app_nativo.py:170-209 | with no failing statement the items are exactly the cart lines and each product's stock drops by its total quantity in the cart |
| AppNativo.ItemFalhoPreservaDemais | app_nativo.py:189-204 | when only line j's item insert fails, every other line's item row is still written and every stock decrement, line j's included, still happens |
| AppNativo.EstoqueSemFalhas | app_nativo.py:199-204 | with no failing decrement, each product's stock drops by its total quantity over the processed lines |
| AppNativo.ItensSemFalhas | app_nativo.py:191-196 | with no failing item insert, the item rows are exactly the processed lines |
| AppNativo.ConcluirVenda | app_nativo.py:533-562 | an empty cart fails with "Carrinho vazio". The cart is cleared exactly when the sale was created, and the store then holds what `create_sale` wrote: the header under the next id with the cart total, and the item rows and decrements of the cart lines that did not fail. On failure the cart and the store are unchanged |
| AppCloud.GetProductByBarcode | app_cloud.py:59-85 | the first active product with that barcode or code, or nothing; on a match only that product's `ultima_leitura` is stamped, the product is returned even when the stamp fails, and a failing statement leaves the connection aborted |
| AppCloud.CreateSaleAsWritten | app_cloud.py:100-139 | as written: the header gets the next id (and the counter advances) with the cart total, but the function returns 1 and writes the item rows under 1. On the shared connection the first failing statement aborts it, and nothing after that is written |
| AppCloud.ItensApontamParaChaveDevolvida | app_cloud.py:114-119 | even when nothing fails, no item row of the new sale references the new header unless its id is 1 |
| AppCloud.DuasVendasComoEscritas | app_cloud.py:100-139 | on a fresh store and connection, two one-line sales with no failing statement give headers 1 and 2, and both item rows reference sale 1 |
| AppCloud.FalhaAbortaConexao | app_cloud.py:54-56 | a failing item insert for line j aborts the connection: neither that line's decrement nor any later item row or decrement is written |
| AppCloud.AbortadaCongela | app_cloud.py:54-56 | once the connection is aborted, no further statement changes anything |
| AppCloud.PersistenteSemFalhas | app_cloud.py:122-137 | with no failing statement the shared connection writes exactly what independent commits write |

## Left out

- User interface: layout, messages, balloons, receipts (`generate_receipt_html`), downloads, `experimental_rerun`, `time.sleep`.
- `barcode_scanner.py`: camera capture and image decoding are I/O. The cart only sees the decoded token it produces.
- `app.py`: navigation and configuration only. `config.py`'s constants are used (low-stock threshold, payment methods).
- `bcryptjs-update.js` is not part of this model.
- Connection opening and closing, cursors and pandas DataFrames. A table is a sequence of rows.
- Caching (`st.cache_data(ttl=5)`): `app_nativo.py` caches `get_product_by_barcode` (app_nativo.py:135) and `get_all_products` (app_nativo.py:157), which can return a result up to 5 s stale; the model reads the current tables. `app_nativo.py`'s `run_query` is not cached.
- AppCloud.CreateSaleAsWritten: assumes every statement runs. `app_cloud.py` caches `run_query` itself (app_cloud.py:32), writes included, so a statement with the same text and parameters as one issued less than 5 s earlier is not executed and returns the cached value. Two one-unit sales of the same product within 5 s show it: every item insert goes under sale 1, so the second sale's item insert repeats the first one's parameters exactly and is skipped, and so is its stock decrement. When customer, payment method and total match as well, the header insert is skipped too, and the second sale writes nothing yet reports success.
- AppCloud.GetProductByBarcode: assumes every statement runs. The cached `run_query` can return the SELECT's result up to 5 s stale, and skips the `ultima_leitura` stamp when the same statement ran less than 5 s earlier.
- Floating point and `DECIMAL(10,2)`: money is integer cents, so rounding is not modelled.
- Timestamps `created_at` and `updated_at` are not modelled. `data_venda` and `ultima_leitura` come from the `agora` parameter.
- The `categoria_nome` column of the product listings (a LEFT JOIN on `categorias`), and the per-category count and value reports (views.py:592, views.py:689).
- The top-products report and the search box of the products page in `views.py`: both are pandas expressions (a regex `str.contains`) whose semantics are not modelled.
- Models.ProdutoGetAll, Models.CategoriaGetAll: ordered by code point on the names, not by the server's collation. The order of rows with equal names is not fixed, as in SQL.
- Models.VendaGetAll: the order of sales with equal `data_venda` is not fixed, as in SQL.
- Models.GetByBarcode, Models.GetDetalhes, Models.DetalhesDaVendaRegistrada, AppNativo.GetProductByBarcode, AppCloud.GetProductByBarcode: these queries have no ORDER BY, so the database promises no row order. The model returns the rows in table order (the first match, the item rows in insertion order), which the server does not guarantee.
- Failing lookups: the lookups of `models.py` raise on a server error (`query_to_dataframe`, database.py:66-80), and `app_nativo.py`'s `run_query` turns a failing SELECT into None, which the barcode lookup reports as "not found" (app_nativo.py:130-132). The model has no fault for these SELECTs.
- Views.EstoqueBaixo: `sort_values` is not stable by default, and the model does not fix the order of equal stock values.
- AppNativo.FiltrarBusca: `lower()` is modelled on the Latin-1 letters only (A-Z and À-Þ except ×); other Unicode case mappings are not.
- Key generation: a `SERIAL` value consumed by an insert that later fails is not skipped. The model's counter only advances on success.
- `Venda.registrar` when the server drops the connection after `COMMIT` is not modelled; a `Commit` fault means the transaction rolled back.
- AppNativo.GetAllProducts: `run_query(...) or []` turns a failing SELECT into an empty listing, and the model has no fault for this SELECT.
- SQLite (`app_nativo.py`) does not enforce foreign keys unless a pragma enables them, and the source never enables them. The `AppNativo` tables therefore carry no FK invariant, only fresh sale ids.
- The checkout of `app_cloud.py` (app_cloud.py:463-498) and its cart handlers (app_cloud.py:305-319, 379-393, 433-447) are those of `app_nativo.py`. They are modelled once, in `AppNativo`.
- Cash tendered and change, and refusing a sale for an unknown product, are not in the code; the model follows the code.

## Findings

| source | as written | input that shows it | evidently intended | confidence | as-written member | corrected member |
|---|---|---|---|---|---|---|
| app_cloud.py:114-119 | `create_sale` takes the new sale's key from `run_query`'s result. For `INSERT ... RETURNING id` that function commits and returns `cur.rowcount` (app_cloud.py:45-50), i.e. 1, so item rows are written under sale 1 and the caller is told the sale id is 1 | any non-empty cart when the `vendas` table already holds a sale: the new header gets id 2 and its item rows reference sale 1 | the item rows reference the id of the header just inserted, which is then returned | not executed | AppCloud.CreateSaleAsWritten, AppCloud.ItensApontamParaChaveDevolvida, AppCloud.DuasVendasComoEscritas | AppNativo.Loja.CreateSale |
| app_cloud.py:54-56 | on an error `run_query` reports it and returns None without rolling back. The cached connection stays in an aborted transaction, and every later statement on it fails | a two-line cart whose first item insert raises (for instance, its product was deleted meanwhile): that line's decrement and the second line's item row and decrement are never written, and later queries keep failing | roll back after the error, so that each later statement runs and commits on its own | not executed | AppCloud.FalhaAbortaConexao, AppCloud.CreateSaleAsWritten | AppNativo.ItemFalhoPreservaDemais, AppNativo.Loja.CreateSale |
