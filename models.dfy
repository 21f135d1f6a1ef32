/** models.py: the Categoria, Produto and Venda operations over the PostgreSQL
    schema of database.py:89-139, with the four tables held in memory.
    Every single-statement operation goes through `execute_query`
    (database.py:26-64), which commits on success and rolls back and re-raises
    on error; a raised error is the `None`/`false` outcome here and leaves every
    table as it was. */
module Models {
  import opened Common
  import opened Ordering

  datatype Categoria = Categoria(id: int, nome: string, descricao: string)

  /** A row of `produtos`; a NULL barcode is `None`. Prices are in cents. */
  datatype Produto = Produto(
    id: int,
    codigo: string,
    barcode: Option<string>,
    nome: string,
    descricao: string,
    preco: int,
    estoque: int,
    categoriaId: Option<int>,
    imagemUrl: string)

  /** A row of `vendas`; `vendaId` is the generated unique key the items join on. */
  datatype Venda = Venda(
    vendaId: string,
    dataVenda: int,
    total: int,
    formaPagamento: string,
    status: string,
    observacoes: string)

  datatype VendaItem = VendaItem(
    vendaId: string,
    produtoId: int,
    quantidade: int,
    precoUnitario: int,
    subtotal: int)

  /** A cart line as the sales screen builds it and `registrar` reads it. */
  datatype ItemCarrinho = ItemCarrinho(
    produtoId: int,
    nome: string,
    precoUnitario: int,
    quantidade: int,
    subtotal: int)

  const StatusConcluida := "concluida"

  predicate HasCategoria(cs: seq<Categoria>, id: int)
  {
    exists i :: 0 <= i < |cs| && cs[i].id == id
  }

  predicate HasProduto(ps: seq<Produto>, id: int)
  {
    exists i :: 0 <= i < |ps| && ps[i].id == id
  }

  predicate HasVenda(vs: seq<Venda>, vendaId: string)
  {
    exists i :: 0 <= i < |vs| && vs[i].vendaId == vendaId
  }

  /** Some item row references product `id` (the FK venda_itens.produto_id). */
  predicate ProdutoReferenciado(its: seq<VendaItem>, id: int)
  {
    exists i :: 0 <= i < |its| && its[i].produtoId == id
  }

  /** Some product row references category `id` (the FK produtos.categoria_id). */
  predicate CategoriaReferenciada(ps: seq<Produto>, id: int)
  {
    exists i :: 0 <= i < |ps| && ps[i].categoriaId == Some(id)
  }

  /** Another product than `exceptId` already holds `codigo` (UNIQUE produtos.codigo). */
  predicate CodigoEmUso(ps: seq<Produto>, codigo: string, exceptId: int)
  {
    exists i :: 0 <= i < |ps| && ps[i].codigo == codigo && ps[i].id != exceptId
  }

  /** A NULL category, or one that exists (the FK produtos.categoria_id). */
  predicate CategoriaValida(cs: seq<Categoria>, categoriaId: Option<int>)
  {
    categoriaId.None? || HasCategoria(cs, categoriaId.value)
  }

  /** The primary keys, the UNIQUE columns and the foreign keys of database.py:89-139. */
  ghost predicate Consistent(cs: seq<Categoria>, ps: seq<Produto>, vs: seq<Venda>, its: seq<VendaItem>,
                             nextCategoriaId: int, nextProdutoId: int)
  {
    && nextCategoriaId >= 1 && nextProdutoId >= 1
    && (forall i :: 0 <= i < |cs| ==> 1 <= cs[i].id < nextCategoriaId)
    && (forall i, j :: 0 <= i < j < |cs| ==> cs[i].id != cs[j].id)
    && (forall i :: 0 <= i < |ps| ==> 1 <= ps[i].id < nextProdutoId)
    && (forall i, j :: 0 <= i < j < |ps| ==> ps[i].id != ps[j].id && ps[i].codigo != ps[j].codigo)
    && (forall i, j :: 0 <= i < j < |vs| ==> vs[i].vendaId != vs[j].vendaId)
    && (forall i :: 0 <= i < |ps| ==> CategoriaValida(cs, ps[i].categoriaId))
    && (forall i :: 0 <= i < |its| ==> HasVenda(vs, its[i].vendaId) && HasProduto(ps, its[i].produtoId))
  }

  /** The default categories `init_database` inserts into an empty table, in
      insertion order, under consecutive keys starting at `primeiro`. */
  function CategoriasPadrao(primeiro: int): (r: seq<Categoria>)
    ensures |r| == 5
    ensures forall k :: 0 <= k < |r| ==> r[k].id == primeiro + k
  {
    [Categoria(primeiro, "Alimentos", "Produtos alimentícios"),
     Categoria(primeiro + 1, "Bebidas", "Bebidas diversas"),
     Categoria(primeiro + 2, "Limpeza", "Produtos de limpeza"),
     Categoria(primeiro + 3, "Higiene", "Produtos de higiene pessoal"),
     Categoria(primeiro + 4, "Outros", "Produtos diversos")]
  }

  // ---------------------------------------------------------------- lookups

  /** Produto.get_by_id: the product with that id, if any. */
  function GetById(ps: seq<Produto>, id: int): (r: Option<Produto>)
    ensures r.Some? <==> HasProduto(ps, id)
    ensures r.Some? ==> r.value in ps && r.value.id == id
  {
    Find(ps, (p: Produto) => p.id == id)
  }

  /** Produto.get_by_barcode: the first row whose barcode equals `barcode`
      exactly; there is no filter on anything else. */
  function GetByBarcode(ps: seq<Produto>, barcode: string): (r: Option<Produto>)
    ensures r.None? <==> forall i :: 0 <= i < |ps| ==> ps[i].barcode != Some(barcode)
    ensures r.Some? ==> exists i :: 0 <= i < |ps| && ps[i] == r.value && r.value.barcode == Some(barcode)
                                    && forall j :: 0 <= j < i ==> ps[j].barcode != Some(barcode)
  {
    Find(ps, (p: Produto) => p.barcode == Some(barcode))
  }

  predicate NomeLe(a: Produto, b: Produto)
  {
    LexLe(a.nome, b.nome)
  }

  lemma NomeLeTotalPreorder()
    ensures TotalPreorder(NomeLe)
  {
    forall a: Produto, b: Produto ensures NomeLe(a, b) || NomeLe(b, a) {
      LexLeTotal(a.nome, b.nome);
    }
    forall a: Produto, b: Produto, c: Produto | NomeLe(a, b) && NomeLe(b, c) ensures NomeLe(a, c) {
      LexLeTransitive(a.nome, b.nome, c.nome);
    }
  }

  /** Produto.get_all: every product, ordered by name. */
  function ProdutoGetAll(ps: seq<Produto>): (r: seq<Produto>)
    ensures multiset(r) == multiset(ps)
    ensures forall i, j :: 0 <= i < j < |r| ==> LexLe(r[i].nome, r[j].nome)
  {
    NomeLeTotalPreorder();
    SortBy(ps, NomeLe)
  }

  predicate CategoriaNomeLe(a: Categoria, b: Categoria)
  {
    LexLe(a.nome, b.nome)
  }

  lemma CategoriaNomeLeTotalPreorder()
    ensures TotalPreorder(CategoriaNomeLe)
  {
    forall a: Categoria, b: Categoria ensures CategoriaNomeLe(a, b) || CategoriaNomeLe(b, a) {
      LexLeTotal(a.nome, b.nome);
    }
    forall a: Categoria, b: Categoria, c: Categoria | CategoriaNomeLe(a, b) && CategoriaNomeLe(b, c)
      ensures CategoriaNomeLe(a, c)
    {
      LexLeTransitive(a.nome, b.nome, c.nome);
    }
  }

  /** Categoria.get_all: every category, ordered by name. */
  function CategoriaGetAll(cs: seq<Categoria>): (r: seq<Categoria>)
    ensures multiset(r) == multiset(cs)
    ensures forall i, j :: 0 <= i < j < |r| ==> LexLe(r[i].nome, r[j].nome)
  {
    CategoriaNomeLeTotalPreorder();
    SortBy(cs, CategoriaNomeLe)
  }

  /** The date filter of Venda.get_all: each bound applies only when given. */
  predicate NoPeriodo(v: Venda, inicio: Option<int>, fim: Option<int>)
  {
    (inicio.None? || inicio.value <= v.dataVenda) && (fim.None? || v.dataVenda <= fim.value)
  }

  function VendasNoPeriodo(vs: seq<Venda>, inicio: Option<int>, fim: Option<int>): (r: seq<Venda>)
    ensures forall v :: v in r <==> v in vs && NoPeriodo(v, inicio, fim)
    ensures multiset(r) <= multiset(vs)
  {
    Filter(vs, (v: Venda) => NoPeriodo(v, inicio, fim))
  }

  predicate DataDesc(a: Venda, b: Venda)
  {
    a.dataVenda >= b.dataVenda
  }

  /** Venda.get_all: the sales inside the given bounds, newest first. */
  function VendaGetAll(vs: seq<Venda>, inicio: Option<int>, fim: Option<int>): (r: seq<Venda>)
    ensures multiset(r) == multiset(VendasNoPeriodo(vs, inicio, fim))
    ensures forall v :: v in r <==> v in vs && NoPeriodo(v, inicio, fim)
    ensures forall i, j :: 0 <= i < j < |r| ==> r[i].dataVenda >= r[j].dataVenda
  {
    assert TotalPreorder(DataDesc);
    var r := SortBy(VendasNoPeriodo(vs, inicio, fim), DataDesc);
    assert forall v :: v in r <==> v in multiset(r);
    r
  }

  // ------------------------------------------------------------ stock effects

  /** Produto.update_stock: `estoque = estoque - quantidade WHERE id = produtoId`,
      with no lower bound. */
  function StockDecremented(ps: seq<Produto>, produtoId: int, quantidade: int): (r: seq<Produto>)
    ensures |r| == |ps|
    ensures forall j :: 0 <= j < |ps| ==>
              r[j] == if ps[j].id == produtoId then ps[j].(estoque := ps[j].estoque - quantidade) else ps[j]
  {
    seq(|ps|, j requires 0 <= j < |ps| =>
      if ps[j].id == produtoId then ps[j].(estoque := ps[j].estoque - quantidade) else ps[j])
  }

  function EstoqueDe(p: Produto): int
  {
    p.estoque
  }

  /** In a table with distinct keys one decrement keeps every key and lowers
      the total stock by `quantidade` when the product exists, and leaves the
      table as it was when it does not. */
  lemma StockDecrementedTotal(ps: seq<Produto>, produtoId: int, quantidade: int)
    requires forall i, j :: 0 <= i < j < |ps| ==> ps[i].id != ps[j].id
    ensures forall id :: HasProduto(StockDecremented(ps, produtoId, quantidade), id) <==> HasProduto(ps, id)
    ensures SumOf(StockDecremented(ps, produtoId, quantidade), EstoqueDe)
            == SumOf(ps, EstoqueDe) - (if HasProduto(ps, produtoId) then quantidade else 0)
    ensures !HasProduto(ps, produtoId) ==> StockDecremented(ps, produtoId, quantidade) == ps
  {
    StockDecrementedMesmasChaves(ps, produtoId, quantidade);
    if HasProduto(ps, produtoId) {
      var i :| 0 <= i < |ps| && ps[i].id == produtoId;
      StockDecrementedUmaLinha(ps, produtoId, quantidade, i);
      SumUpdate(ps, i, ps[i].(estoque := ps[i].estoque - quantidade), EstoqueDe);
    } else {
      assert StockDecremented(ps, produtoId, quantidade) == ps;
    }
  }

  lemma StockDecrementedMesmasChaves(ps: seq<Produto>, produtoId: int, quantidade: int)
    ensures forall id :: HasProduto(StockDecremented(ps, produtoId, quantidade), id) <==> HasProduto(ps, id)
  {
    var r := StockDecremented(ps, produtoId, quantidade);
    forall id ensures HasProduto(r, id) <==> HasProduto(ps, id) {
      if HasProduto(r, id) {
        var i :| 0 <= i < |r| && r[i].id == id;
        assert ps[i].id == id;
      }
      if HasProduto(ps, id) {
        var i :| 0 <= i < |ps| && ps[i].id == id;
        assert r[i].id == id;
      }
    }
  }

  lemma StockDecrementedUmaLinha(ps: seq<Produto>, produtoId: int, quantidade: int, i: int)
    requires forall i, j :: 0 <= i < j < |ps| ==> ps[i].id != ps[j].id
    requires 0 <= i < |ps| && ps[i].id == produtoId
    ensures StockDecremented(ps, produtoId, quantidade) == ps[i := ps[i].(estoque := ps[i].estoque - quantidade)]
  {
    var r, t := StockDecremented(ps, produtoId, quantidade), ps[i := ps[i].(estoque := ps[i].estoque - quantidade)];
    forall k | 0 <= k < |ps| ensures r[k] == t[k] {
      if k != i {
        assert ps[k].id != produtoId by {
          if k < i { assert ps[k].id != ps[i].id; } else { assert ps[i].id != ps[k].id; }
        }
      }
    }
  }

  /** The product table after one decrement per cart line, in cart order. */
  function BaixarEstoque(ps: seq<Produto>, items: seq<ItemCarrinho>): seq<Produto>
  {
    if items == [] then ps
    else
      var last := items[|items| - 1];
      StockDecremented(BaixarEstoque(ps, items[..|items| - 1]), last.produtoId, last.quantidade)
  }

  /** The total quantity of product `id` over the cart lines. */
  function QtdDe(items: seq<ItemCarrinho>, id: int): int
  {
    if items == [] then 0
    else
      var last := items[|items| - 1];
      QtdDe(items[..|items| - 1], id) + (if last.produtoId == id then last.quantidade else 0)
  }

  /** Each product's stock drops by exactly the quantity the cart holds of it
      (the sum over duplicate lines); every other column and every product
      outside the cart is unchanged. */
  lemma {:induction false} BaixarEstoqueEffect(ps: seq<Produto>, items: seq<ItemCarrinho>)
    ensures |BaixarEstoque(ps, items)| == |ps|
    ensures forall j :: 0 <= j < |ps| ==>
              BaixarEstoque(ps, items)[j] == ps[j].(estoque := ps[j].estoque - QtdDe(items, ps[j].id))
  {
    if items != [] {
      BaixarEstoqueEffect(ps, items[..|items| - 1]);
    }
  }

  /** Decrementing stock never adds, drops or re-keys a product. */
  lemma BaixarEstoqueKeepsId(ps: seq<Produto>, items: seq<ItemCarrinho>, id: int)
    ensures HasProduto(BaixarEstoque(ps, items), id) <==> HasProduto(ps, id)
  {
    BaixarEstoqueEffect(ps, items);
    var r := BaixarEstoque(ps, items);
    if HasProduto(r, id) {
      var i :| 0 <= i < |r| && r[i].id == id;
      assert ps[i].id == id;
    }
    if HasProduto(ps, id) {
      var i :| 0 <= i < |ps| && ps[i].id == id;
      assert r[i].id == id;
    }
  }

  /** The item row `registrar` writes for a cart line: its subtotal is the line's
      quantity times the line's own unit price, never re-read from `produtos`. */
  function ItemRow(vendaId: string, item: ItemCarrinho): VendaItem
  {
    VendaItem(vendaId, item.produtoId, item.quantidade, item.precoUnitario, item.quantidade * item.precoUnitario)
  }

  function ItensDaVenda(vendaId: string, items: seq<ItemCarrinho>): (r: seq<VendaItem>)
    ensures |r| == |items|
    ensures forall k :: 0 <= k < |items| ==>
              r[k].vendaId == vendaId && r[k].produtoId == items[k].produtoId
              && r[k].quantidade == items[k].quantidade && r[k].precoUnitario == items[k].precoUnitario
              && r[k].subtotal == items[k].quantidade * items[k].precoUnitario
  {
    seq(|items|, k requires 0 <= k < |items| => ItemRow(vendaId, items[k]))
  }

  /** No statement of the `registrar` transaction raises: the generated key is
      new (UNIQUE vendas.venda_id), every cart product exists (the FK
      venda_itens.produto_id), and the server fails none of the statements. */
  predicate RegistrarSucceeds(ps: seq<Produto>, vs: seq<Venda>, items: seq<ItemCarrinho>,
                              vendaId: string, faults: set<Stmt>)
  {
    && Header !in faults
    && !HasVenda(vs, vendaId)
    && (forall k :: 0 <= k < |items| ==> Item(k) !in faults && Stock(k) !in faults)
    && (forall k :: 0 <= k < |items| ==> HasProduto(ps, items[k].produtoId))
    && Commit !in faults
  }

  predicate DetalheDe(it: VendaItem, ps: seq<Produto>, vendaId: string)
  {
    it.vendaId == vendaId && HasProduto(ps, it.produtoId)
  }

  /** Venda.get_detalhes: the item rows of the sale joined with their products
      (an inner join, so a row whose product is gone is dropped), in table order. */
  function GetDetalhes(its: seq<VendaItem>, ps: seq<Produto>, vendaId: string): (r: seq<VendaItem>)
    ensures forall it :: it in r <==> it in its && DetalheDe(it, ps, vendaId)
    ensures |r| <= |its|
  {
    if its == [] then []
    else
      assert its == [its[0]] + its[1..];
      (if DetalheDe(its[0], ps, vendaId) then [its[0]] else []) + GetDetalhes(its[1..], ps, vendaId)
  }

  /** The details hold every item row of the sale whose product exists
      exactly as often as the table does, and no other row. */
  lemma {:induction false} GetDetalhesMultiplicidade(its: seq<VendaItem>, ps: seq<Produto>, vendaId: string,
                                                      it: VendaItem)
    ensures multiset(GetDetalhes(its, ps, vendaId))[it]
            == if DetalheDe(it, ps, vendaId) then multiset(its)[it] else 0
  {
    if its != [] {
      GetDetalhesMultiplicidade(its[1..], ps, vendaId, it);
      assert its == [its[0]] + its[1..];
      assert multiset(its) == multiset([its[0]]) + multiset(its[1..]);
    }
  }

  lemma {:induction false} GetDetalhesConcat(a: seq<VendaItem>, b: seq<VendaItem>, ps: seq<Produto>, vendaId: string)
    ensures GetDetalhes(a + b, ps, vendaId) == GetDetalhes(a, ps, vendaId) + GetDetalhes(b, ps, vendaId)
  {
    if a == [] {
      assert a + b == b;
    } else {
      var ab := a + b;
      var cabeca := if DetalheDe(a[0], ps, vendaId) then [a[0]] else [];
      assert ab != [] && ab[0] == a[0];
      assert ab[1..] == a[1..] + b;
      assert GetDetalhes(ab, ps, vendaId) == cabeca + GetDetalhes(ab[1..], ps, vendaId);
      assert GetDetalhes(a, ps, vendaId) == cabeca + GetDetalhes(a[1..], ps, vendaId);
      GetDetalhesConcat(a[1..], b, ps, vendaId);
    }
  }

  lemma {:induction false} GetDetalhesTodos(its: seq<VendaItem>, ps: seq<Produto>, vendaId: string)
    requires forall k :: 0 <= k < |its| ==> DetalheDe(its[k], ps, vendaId)
    ensures GetDetalhes(its, ps, vendaId) == its
  {
    if its != [] {
      GetDetalhesTodos(its[1..], ps, vendaId);
      assert its == [its[0]] + its[1..];
    }
  }

  lemma {:induction false} GetDetalhesNenhum(its: seq<VendaItem>, ps: seq<Produto>, vendaId: string)
    requires forall k :: 0 <= k < |its| ==> its[k].vendaId != vendaId
    ensures GetDetalhes(its, ps, vendaId) == []
  {
    if its != [] {
      GetDetalhesNenhum(its[1..], ps, vendaId);
    }
  }

  /** Round trip: right after `registrar` commits, the details of the new sale
      are exactly one row per cart line, in cart order, with the cart's
      quantities and prices. */
  lemma DetalhesDaVendaRegistrada(cs: seq<Categoria>, ps: seq<Produto>, vs: seq<Venda>, its: seq<VendaItem>,
                                  nextCategoriaId: int, nextProdutoId: int,
                                  items: seq<ItemCarrinho>, vendaId: string)
    requires Consistent(cs, ps, vs, its, nextCategoriaId, nextProdutoId)
    requires !HasVenda(vs, vendaId)
    requires forall k :: 0 <= k < |items| ==> HasProduto(ps, items[k].produtoId)
    ensures GetDetalhes(its + ItensDaVenda(vendaId, items), BaixarEstoque(ps, items), vendaId)
            == ItensDaVenda(vendaId, items)
  {
    var ps' := BaixarEstoque(ps, items);
    var novos := ItensDaVenda(vendaId, items);
    GetDetalhesConcat(its, novos, ps', vendaId);
    forall k | 0 <= k < |its| ensures its[k].vendaId != vendaId {
      assert HasVenda(vs, its[k].vendaId);
    }
    GetDetalhesNenhum(its, ps', vendaId);
    forall k | 0 <= k < |novos| ensures DetalheDe(novos[k], ps', vendaId) {
      BaixarEstoqueKeepsId(ps, items, items[k].produtoId);
    }
    GetDetalhesTodos(novos, ps', vendaId);
  }

  function SemProduto(ps: seq<Produto>, id: int): (r: seq<Produto>)
    ensures forall p :: p in r <==> p in ps && p.id != id
  {
    Filter(ps, (p: Produto) => p.id != id)
  }

  function SemCategoria(cs: seq<Categoria>, id: int): (r: seq<Categoria>)
    ensures forall c :: c in r <==> c in cs && c.id != id
  {
    Filter(cs, (c: Categoria) => c.id != id)
  }

  function ComProdutoAtualizado(ps: seq<Produto>, p: Produto): (r: seq<Produto>)
    ensures |r| == |ps|
    ensures forall j :: 0 <= j < |ps| ==> r[j] == if ps[j].id == p.id then p else ps[j]
  {
    seq(|ps|, j requires 0 <= j < |ps| => if ps[j].id == p.id then p else ps[j])
  }

  /** Read after write: in a table with distinct keys, after the row with key
      `p.id` is replaced by `p`, looking up `p.id` gives `p` when that row
      existed and nothing when it did not, and every other key gives what it
      gave before. */
  lemma GetByIdAposAtualizar(ps: seq<Produto>, p: Produto, id: int)
    requires forall i, j :: 0 <= i < j < |ps| ==> ps[i].id != ps[j].id
    ensures GetById(ComProdutoAtualizado(ps, p), id)
            == if id == p.id && HasProduto(ps, id) then Some(p) else GetById(ps, id)
  {
    var r := ComProdutoAtualizado(ps, p);
    assert forall i :: 0 <= i < |r| ==> r[i].id == ps[i].id;
    if HasProduto(ps, id) {
      var k :| 0 <= k < |ps| && ps[k].id == id;
      assert HasProduto(r, id) by { assert r[k].id == id; }
      UnicoComChave(ps, id, k);
      UnicoComChave(r, id, k);
      assert r[k] == if id == p.id then p else ps[k];
    } else {
      assert !HasProduto(r, id);
    }
  }

  /** In a table with distinct keys, the lookup of a key present at `k` is row `k`. */
  lemma UnicoComChave(ps: seq<Produto>, id: int, k: int)
    requires forall i, j :: 0 <= i < j < |ps| ==> ps[i].id != ps[j].id
    requires 0 <= k < |ps| && ps[k].id == id
    ensures GetById(ps, id) == Some(ps[k])
  {
    var g := GetById(ps, id);
    var i :| 0 <= i < |ps| && ps[i] == g.value;
    assert ps[i].id == id;
  }

  function ComCategoriaAtualizada(cs: seq<Categoria>, c: Categoria): (r: seq<Categoria>)
    ensures |r| == |cs|
    ensures forall j :: 0 <= j < |cs| ==> r[j] == if cs[j].id == c.id then c else cs[j]
  {
    seq(|cs|, j requires 0 <= j < |cs| => if cs[j].id == c.id then c else cs[j])
  }

  /** The database: the four tables and the next values of the SERIAL keys of
      `categorias` and `produtos`. */
  class Database {
    var categorias: seq<Categoria>
    var produtos: seq<Produto>
    var vendas: seq<Venda>
    var itens: seq<VendaItem>
    var nextCategoriaId: int
    var nextProdutoId: int

    ghost predicate Valid()
      reads this
    {
      Consistent(categorias, produtos, vendas, itens, nextCategoriaId, nextProdutoId)
    }

    /** A fresh database after the first `init_database`: the tables are
        created empty and, since `categorias` is empty, the five default
        categories are inserted under keys 1 to 5. */
    constructor ()
      ensures Valid()
      ensures categorias == CategoriasPadrao(1) && produtos == [] && vendas == [] && itens == []
      ensures nextCategoriaId == 6 && nextProdutoId == 1
    {
      categorias, produtos, vendas, itens := CategoriasPadrao(1), [], [], [];
      nextCategoriaId, nextProdutoId := 6, 1;
    }

    /** init_database on an existing database, as on every rerun of the app:
        the CREATE TABLE IF NOT EXISTS statements change nothing, and when
        `categorias` is empty the five default categories are inserted under
        the next keys and committed together. A raising statement leaves the
        tables as they were. */
    method InitDatabase(faults: set<Stmt>)
      requires Valid()
      modifies this
      ensures Valid()
      ensures old(categorias) == [] && Query !in faults ==>
                categorias == CategoriasPadrao(old(nextCategoriaId)) && nextCategoriaId == old(nextCategoriaId) + 5
      ensures old(categorias) != [] || Query in faults ==>
                categorias == old(categorias) && nextCategoriaId == old(nextCategoriaId)
      ensures Query !in faults ==> categorias != []
      ensures produtos == old(produtos) && vendas == old(vendas) && itens == old(itens)
      ensures nextProdutoId == old(nextProdutoId)
    {
      if Query in faults || categorias != [] {
        return;
      }
      categorias := CategoriasPadrao(nextCategoriaId);
      nextCategoriaId := nextCategoriaId + 5;
    }

    /** Categoria.add: inserts a row under the next key and returns the key. */
    method CategoriaAdd(nome: string, descricao: string, faults: set<Stmt>) returns (r: Option<int>)
      requires Valid()
      modifies this
      ensures Valid()
      ensures r.Some? <==> Query !in faults
      ensures r.Some? ==> r.value == old(nextCategoriaId)
                          && categorias == old(categorias) + [Categoria(r.value, nome, descricao)]
                          && nextCategoriaId == old(nextCategoriaId) + 1
      ensures r.None? ==> categorias == old(categorias) && nextCategoriaId == old(nextCategoriaId)
      ensures produtos == old(produtos) && vendas == old(vendas) && itens == old(itens)
      ensures nextProdutoId == old(nextProdutoId)
    {
      if Query in faults {
        return None;
      }
      var c := Categoria(nextCategoriaId, nome, descricao);
      var cs := categorias + [c];
      forall i | 0 <= i < |cs| ensures 1 <= cs[i].id < nextCategoriaId + 1 {
        if i < |categorias| {
          assert cs[i] == categorias[i];
        }
      }
      forall i, j | 0 <= i < j < |cs| ensures cs[i].id != cs[j].id {
        assert cs[i] == categorias[i];
      }
      forall i | 0 <= i < |produtos| ensures CategoriaValida(categorias + [c], produtos[i].categoriaId) {
        if produtos[i].categoriaId.Some? {
          var k :| 0 <= k < |categorias| && categorias[k].id == produtos[i].categoriaId.value;
          assert (categorias + [c])[k] == categorias[k];
        }
      }
      categorias := categorias + [c];
      nextCategoriaId := nextCategoriaId + 1;
      r := Some(c.id);
    }

    /** Categoria.update: rewrites name and description of the row with that key
        (no row when the key is absent). */
    method CategoriaUpdate(id: int, nome: string, descricao: string, faults: set<Stmt>) returns (ok: bool)
      requires Valid()
      modifies this
      ensures Valid()
      ensures ok <==> Query !in faults
      ensures categorias == if ok then ComCategoriaAtualizada(old(categorias), Categoria(id, nome, descricao))
                           else old(categorias)
      ensures produtos == old(produtos) && vendas == old(vendas) && itens == old(itens)
      ensures nextCategoriaId == old(nextCategoriaId) && nextProdutoId == old(nextProdutoId)
    {
      if Query in faults {
        return false;
      }
      var cs := ComCategoriaAtualizada(categorias, Categoria(id, nome, descricao));
      assert forall i :: 0 <= i < |cs| ==> cs[i].id == categorias[i].id;
      forall i | 0 <= i < |produtos| ensures CategoriaValida(cs, produtos[i].categoriaId) {
        if produtos[i].categoriaId.Some? {
          var k :| 0 <= k < |categorias| && categorias[k].id == produtos[i].categoriaId.value;
          assert cs[k].id == categorias[k].id;
        }
      }
      categorias := cs;
      ok := true;
    }

    /** Categoria.delete: true when the DELETE went through; false when it
        raised, in particular when a product still references the category,
        and then nothing changed. */
    method CategoriaDelete(id: int, faults: set<Stmt>) returns (ok: bool)
      requires Valid()
      modifies this
      ensures Valid()
      ensures ok <==> Query !in faults && !CategoriaReferenciada(old(produtos), id)
      ensures categorias == if ok then SemCategoria(old(categorias), id) else old(categorias)
      ensures produtos == old(produtos) && vendas == old(vendas) && itens == old(itens)
      ensures nextCategoriaId == old(nextCategoriaId) && nextProdutoId == old(nextProdutoId)
    {
      if Query in faults || CategoriaReferenciada(produtos, id) {
        return false;
      }
      var cs := SemCategoria(categorias, id);
      forall i | 0 <= i < |cs| ensures 1 <= cs[i].id < nextCategoriaId {
        assert cs[i] in categorias;
      }
      forall i, j | 0 <= i < j < |cs| ensures cs[i].id != cs[j].id {
        SubsequenceKeysDistinct(categorias, id, i, j);
      }
      forall i | 0 <= i < |produtos| ensures CategoriaValida(cs, produtos[i].categoriaId) {
        if produtos[i].categoriaId.Some? {
          var k :| 0 <= k < |categorias| && categorias[k].id == produtos[i].categoriaId.value;
          assert categorias[k] in cs;
          var m :| 0 <= m < |cs| && cs[m] == categorias[k];
        }
      }
      categorias := cs;
      ok := true;
    }

    /** Produto.add: inserts under the next key; raises (None) on a code already
        in use, on a category that does not exist, or on a server fault. */
    method ProdutoAdd(codigo: string, nome: string, descricao: string, preco: int, estoque: int,
                      categoriaId: Option<int>, barcode: Option<string>, imagemUrl: string,
                      faults: set<Stmt>) returns (r: Option<int>)
      requires Valid()
      modifies this
      ensures Valid()
      ensures r.Some? <==> Query !in faults && !CodigoEmUso(old(produtos), codigo, 0)
                           && CategoriaValida(old(categorias), categoriaId)
      ensures r.Some? ==> r.value == old(nextProdutoId)
                          && produtos == old(produtos) + [Produto(r.value, codigo, barcode, nome, descricao,
                                                                  preco, estoque, categoriaId, imagemUrl)]
                          && nextProdutoId == old(nextProdutoId) + 1
      ensures r.None? ==> produtos == old(produtos) && nextProdutoId == old(nextProdutoId)
      ensures categorias == old(categorias) && vendas == old(vendas) && itens == old(itens)
      ensures nextCategoriaId == old(nextCategoriaId)
    {
      if Query in faults || CodigoEmUso(produtos, codigo, 0) || !CategoriaValida(categorias, categoriaId) {
        return None;
      }
      var p := Produto(nextProdutoId, codigo, barcode, nome, descricao, preco, estoque, categoriaId, imagemUrl);
      var ps := produtos + [p];
      forall i | 0 <= i < |ps| ensures 1 <= ps[i].id < nextProdutoId + 1 && CategoriaValida(categorias, ps[i].categoriaId) {
        if i < |produtos| {
          assert ps[i] == produtos[i];
        }
      }
      forall i, j | 0 <= i < j < |ps| ensures ps[i].id != ps[j].id && ps[i].codigo != ps[j].codigo {
        assert ps[i] == produtos[i];
        if j == |produtos| {
          assert !CodigoEmUso(produtos, codigo, 0);
        }
      }
      forall i | 0 <= i < |itens| ensures HasProduto(ps, itens[i].produtoId) {
        assert HasProduto(produtos, itens[i].produtoId);
        var k :| 0 <= k < |produtos| && produtos[k].id == itens[i].produtoId;
        assert ps[k] == produtos[k];
      }
      produtos := ps;
      nextProdutoId := nextProdutoId + 1;
      r := Some(p.id);
    }

    /** Produto.update: rewrites every column of the row with key `id` (no row
        when the key is absent); raises (false) when the new code belongs to
        another product, the category does not exist, or the server fails. */
    method ProdutoUpdate(id: int, codigo: string, nome: string, descricao: string, preco: int, estoque: int,
                         categoriaId: Option<int>, barcode: Option<string>, imagemUrl: string,
                         faults: set<Stmt>) returns (ok: bool)
      requires Valid()
      modifies this
      ensures Valid()
      ensures ok <==> Query !in faults
                      && (HasProduto(old(produtos), id) ==>
                            !CodigoEmUso(old(produtos), codigo, id) && CategoriaValida(old(categorias), categoriaId))
      ensures produtos == if ok then ComProdutoAtualizado(old(produtos), Produto(id, codigo, barcode, nome, descricao,
                                                                                 preco, estoque, categoriaId, imagemUrl))
                         else old(produtos)
      ensures categorias == old(categorias) && vendas == old(vendas) && itens == old(itens)
      ensures nextCategoriaId == old(nextCategoriaId) && nextProdutoId == old(nextProdutoId)
    {
      if Query in faults {
        return false;
      }
      if HasProduto(produtos, id) && (CodigoEmUso(produtos, codigo, id) || !CategoriaValida(categorias, categoriaId)) {
        return false;
      }
      var p := Produto(id, codigo, barcode, nome, descricao, preco, estoque, categoriaId, imagemUrl);
      var ps := ComProdutoAtualizado(produtos, p);
      assert forall i :: 0 <= i < |ps| ==> ps[i].id == produtos[i].id;
      forall i, j | 0 <= i < j < |ps| ensures ps[i].codigo != ps[j].codigo {
        if ps[i].id == id {
          assert !CodigoEmUso(produtos, codigo, id);
          assert produtos[j].id != id;
        } else if ps[j].id == id {
          assert !CodigoEmUso(produtos, codigo, id);
        }
      }
      forall i | 0 <= i < |ps| ensures CategoriaValida(categorias, ps[i].categoriaId) {
        if ps[i].id == id {
          assert HasProduto(produtos, id);
        }
      }
      forall i | 0 <= i < |itens| ensures HasProduto(ps, itens[i].produtoId) {
        var k :| 0 <= k < |produtos| && produtos[k].id == itens[i].produtoId;
        assert ps[k].id == produtos[k].id;
      }
      produtos := ps;
      ok := true;
    }

    /** Produto.delete: true when the DELETE went through; false when it raised,
        in particular when a sale item still references the product, and then
        nothing changed. */
    method ProdutoDelete(id: int, faults: set<Stmt>) returns (ok: bool)
      requires Valid()
      modifies this
      ensures Valid()
      ensures ok <==> Query !in faults && !ProdutoReferenciado(old(itens), id)
      ensures produtos == if ok then SemProduto(old(produtos), id) else old(produtos)
      ensures categorias == old(categorias) && vendas == old(vendas) && itens == old(itens)
      ensures nextCategoriaId == old(nextCategoriaId) && nextProdutoId == old(nextProdutoId)
    {
      if Query in faults || ProdutoReferenciado(itens, id) {
        return false;
      }
      var ps := SemProduto(produtos, id);
      forall i | 0 <= i < |ps| ensures 1 <= ps[i].id < nextProdutoId && CategoriaValida(categorias, ps[i].categoriaId) {
        assert ps[i] in produtos;
      }
      forall i, j | 0 <= i < j < |ps| ensures ps[i].id != ps[j].id && ps[i].codigo != ps[j].codigo {
        SubsequenceRowsDistinct(produtos, id, i, j);
      }
      forall i | 0 <= i < |itens| ensures HasProduto(ps, itens[i].produtoId) {
        var k :| 0 <= k < |produtos| && produtos[k].id == itens[i].produtoId;
        assert produtos[k] in ps;
        var m :| 0 <= m < |ps| && ps[m] == produtos[k];
      }
      produtos := ps;
      ok := true;
    }

    /** Produto.update_stock: subtracts `quantidade` from the product's stock,
        with no lower bound. */
    method UpdateStock(produtoId: int, quantidade: int, faults: set<Stmt>) returns (ok: bool)
      requires Valid()
      modifies this
      ensures Valid()
      ensures ok <==> Query !in faults
      ensures produtos == if ok then StockDecremented(old(produtos), produtoId, quantidade) else old(produtos)
      ensures categorias == old(categorias) && vendas == old(vendas) && itens == old(itens)
      ensures nextCategoriaId == old(nextCategoriaId) && nextProdutoId == old(nextProdutoId)
    {
      if Query in faults {
        return false;
      }
      var ps := StockDecremented(produtos, produtoId, quantidade);
      forall i | 0 <= i < |itens| ensures HasProduto(ps, itens[i].produtoId) {
        var k :| 0 <= k < |produtos| && produtos[k].id == itens[i].produtoId;
        assert ps[k].id == produtos[k].id;
      }
      produtos := ps;
      ok := true;
    }

    /** Venda.registrar: one transaction that inserts the header with the given
        total, one item row per cart line and one stock decrement per line,
        then commits and returns the generated key. If any statement raises,
        the transaction is rolled back and None is returned: no header, no item
        and no decrement survives. The key (`uuid4()`) and the clock are
        parameters. */
    method Registrar(items: seq<ItemCarrinho>, total: int, formaPagamento: string, observacoes: string,
                     vendaId: string, agora: int, faults: set<Stmt>) returns (r: Option<string>)
      requires Valid()
      modifies this
      ensures Valid()
      ensures r.Some? <==> RegistrarSucceeds(old(produtos), old(vendas), items, vendaId, faults)
      ensures r.Some? ==> r.value == vendaId
                          && vendas == old(vendas) + [Venda(vendaId, agora, total, formaPagamento,
                                                            StatusConcluida, observacoes)]
                          && itens == old(itens) + ItensDaVenda(vendaId, items)
                          && produtos == BaixarEstoque(old(produtos), items)
      ensures r.None? ==> vendas == old(vendas) && itens == old(itens) && produtos == old(produtos)
      ensures categorias == old(categorias)
      ensures nextCategoriaId == old(nextCategoriaId) && nextProdutoId == old(nextProdutoId)
    {
      if Header in faults || HasVenda(vendas, vendaId) {
        return None;
      }
      var ok, txItens, txProdutos := Transacao(items, vendaId, faults);
      if !ok || Commit in faults {
        return None;
      }
      RegistrarKeepsConsistent(categorias, produtos, vendas, itens, nextCategoriaId, nextProdutoId,
                               items, total, formaPagamento, observacoes, vendaId, agora);
      vendas, itens, produtos := vendas + [Venda(vendaId, agora, total, formaPagamento, StatusConcluida, observacoes)],
                                 txItens, txProdutos;
      r := Some(vendaId);
    }

    /** The item inserts and stock decrements of `registrar` as the open
        transaction sees them: `ok` is false as soon as one of them raises (a
        failing statement, or a cart product missing from the table), and
        otherwise the rows and the stock are those of the whole cart. The real
        tables are not touched before COMMIT. */
    method Transacao(items: seq<ItemCarrinho>, vendaId: string, faults: set<Stmt>)
      returns (ok: bool, txItens: seq<VendaItem>, txProdutos: seq<Produto>)
      ensures ok <==> (forall k :: 0 <= k < |items| ==> Item(k) !in faults && Stock(k) !in faults)
                      && (forall k :: 0 <= k < |items| ==> HasProduto(produtos, items[k].produtoId))
      ensures ok ==> txItens == itens + ItensDaVenda(vendaId, items) && txProdutos == BaixarEstoque(produtos, items)
    {
      txItens, txProdutos := itens, produtos;
      var i := 0;
      while i < |items|
        invariant 0 <= i <= |items|
        invariant forall k :: 0 <= k < i ==> Item(k) !in faults && Stock(k) !in faults
        invariant forall k :: 0 <= k < i ==> HasProduto(produtos, items[k].produtoId)
        invariant txItens == itens + ItensDaVenda(vendaId, items[..i])
        invariant txProdutos == BaixarEstoque(produtos, items[..i])
      {
        var item := items[i];
        BaixarEstoqueKeepsId(produtos, items[..i], item.produtoId);
        if Item(i) in faults || !HasProduto(txProdutos, item.produtoId) {
          return false, txItens, txProdutos;
        }
        txItens := txItens + [ItemRow(vendaId, item)];
        if Stock(i) in faults {
          return false, txItens, txProdutos;
        }
        txProdutos := StockDecremented(txProdutos, item.produtoId, item.quantidade);
        PrefixStep(produtos, items, vendaId, i);
        i := i + 1;
      }
      assert items[..i] == items;
      ok := true;
    }
  }

  /** What one more cart line adds to the transaction's item rows and stock. */
  lemma PrefixStep(ps: seq<Produto>, items: seq<ItemCarrinho>, vendaId: string, i: int)
    requires 0 <= i < |items|
    ensures ItensDaVenda(vendaId, items[..i + 1]) == ItensDaVenda(vendaId, items[..i]) + [ItemRow(vendaId, items[i])]
    ensures BaixarEstoque(ps, items[..i + 1])
            == StockDecremented(BaixarEstoque(ps, items[..i]), items[i].produtoId, items[i].quantidade)
  {
    assert items[..i + 1][..i] == items[..i];
  }

  /** A committed sale keeps every key, UNIQUE column and foreign key intact. */
  lemma RegistrarKeepsConsistent(cs: seq<Categoria>, ps: seq<Produto>, vs: seq<Venda>, its: seq<VendaItem>,
                                 nextCategoriaId: int, nextProdutoId: int,
                                 items: seq<ItemCarrinho>, total: int, formaPagamento: string,
                                 observacoes: string, vendaId: string, agora: int)
    requires Consistent(cs, ps, vs, its, nextCategoriaId, nextProdutoId)
    requires !HasVenda(vs, vendaId)
    requires forall k :: 0 <= k < |items| ==> HasProduto(ps, items[k].produtoId)
    ensures Consistent(cs, BaixarEstoque(ps, items),
                       vs + [Venda(vendaId, agora, total, formaPagamento, StatusConcluida, observacoes)],
                       its + ItensDaVenda(vendaId, items), nextCategoriaId, nextProdutoId)
  {
    var ps' := BaixarEstoque(ps, items);
    var vs' := vs + [Venda(vendaId, agora, total, formaPagamento, StatusConcluida, observacoes)];
    var its' := its + ItensDaVenda(vendaId, items);
    BaixarEstoqueEffect(ps, items);
    assert forall i :: 0 <= i < |ps'| ==> ps'[i].id == ps[i].id && ps'[i].codigo == ps[i].codigo
                                          && ps'[i].categoriaId == ps[i].categoriaId;
    forall i | 0 <= i < |its'| ensures HasVenda(vs', its'[i].vendaId) && HasProduto(ps', its'[i].produtoId) {
      if i < |its| {
        var k :| 0 <= k < |vs| && vs[k].vendaId == its[i].vendaId;
        assert vs'[k] == vs[k];
        BaixarEstoqueKeepsId(ps, items, its[i].produtoId);
      } else {
        BaixarEstoqueKeepsId(ps, items, items[i - |its|].produtoId);
        assert vs'[|vs|].vendaId == vendaId;
        assert its'[i].produtoId == items[i - |its|].produtoId;
      }
    }
    forall i, j | 0 <= i < j < |vs'| ensures vs'[i].vendaId != vs'[j].vendaId {
      if j == |vs| {
        assert vs'[i] == vs[i];
      }
    }
  }

  /** Removing the rows with one key from a table with distinct keys keeps the keys distinct. */
  lemma SubsequenceKeysDistinct(cs: seq<Categoria>, id: int, i: int, j: int)
    requires forall a, b :: 0 <= a < b < |cs| ==> cs[a].id != cs[b].id
    requires 0 <= i < j < |SemCategoria(cs, id)|
    ensures SemCategoria(cs, id)[i].id != SemCategoria(cs, id)[j].id
  {
    FilterDistinct(cs, (c: Categoria) => c.id != id, (c: Categoria) => c.id, i, j);
  }

  lemma SubsequenceRowsDistinct(ps: seq<Produto>, id: int, i: int, j: int)
    requires forall a, b :: 0 <= a < b < |ps| ==> ps[a].id != ps[b].id && ps[a].codigo != ps[b].codigo
    requires 0 <= i < j < |SemProduto(ps, id)|
    ensures SemProduto(ps, id)[i].id != SemProduto(ps, id)[j].id
    ensures SemProduto(ps, id)[i].codigo != SemProduto(ps, id)[j].codigo
  {
    FilterDistinct(ps, (p: Produto) => p.id != id, (p: Produto) => p.id, i, j);
    FilterDistinct(ps, (p: Produto) => p.id != id, (p: Produto) => p.codigo, i, j);
  }

  /** A filter keeps a column's values pairwise distinct. */
  lemma {:induction false} FilterDistinct<T(!new), K>(s: seq<T>, p: T -> bool, key: T -> K, i: int, j: int)
    requires forall a, b :: 0 <= a < b < |s| ==> key(s[a]) != key(s[b])
    requires 0 <= i < j < |Filter(s, p)|
    ensures key(Filter(s, p)[i]) != key(Filter(s, p)[j])
  {
    assert s != [];
    var tail := s[1..];
    var t := Filter(tail, p);
    var h := if p(s[0]) then [s[0]] else [];
    assert Filter(s, p) == h + t;
    forall a, b | 0 <= a < b < |tail| ensures key(tail[a]) != key(tail[b]) {
      assert tail[a] == s[a + 1] && tail[b] == s[b + 1];
    }
    if h == [] {
      FilterDistinct(tail, p, key, i, j);
    } else if i == 0 {
      var y := t[j - 1];
      assert Filter(s, p)[j] == y;
      assert y in tail;
      var m :| 0 <= m < |tail| && tail[m] == y;
      assert s[m + 1] == y;
    } else {
      FilterDistinct(tail, p, key, i - 1, j - 1);
      assert Filter(s, p)[i] == t[i - 1] && Filter(s, p)[j] == t[j - 1];
    }
  }
}
