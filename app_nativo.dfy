/** app_nativo.py: the standalone point of sale over SQLite. app_cloud.py is the
    same program over PostgreSQL; the parts the two share are modelled here once
    and the cloud module adds only what differs. Money is in cents. A NULL
    text column is "", which the source's truthiness tests treat alike. */
module AppNativo {
  import opened Common
  import opened Ordering
  import opened Text

  /** A row of `produtos`. `ultimaLeitura` exists only in the cloud database
      (it is stamped by its barcode lookup); the SQLite table never sets it. */
  datatype Produto = Produto(
    id: int,
    nome: string,
    codigo: string,
    codigoBarras: string,
    precoVenda: int,
    estoque: int,
    estoqueMinimo: int,
    ativo: bool,
    ultimaLeitura: Option<int>)

  datatype Venda = Venda(id: int, clienteNome: string, valorTotal: int, formaPagamento: string, status: string)

  datatype VendaItem = VendaItem(vendaId: int, produtoId: int, quantidade: int, precoUnitario: int)

  /** A cart line: the product's id, name, barcode and price as they were when
      the product was first added, and the quantity. */
  datatype CartLine = CartLine(id: int, nome: string, codigoBarras: string, precoVenda: int, quantidade: int)

  /** The `(success, result)` pair `create_sale` returns. */
  datatype SaleOutcome = Ok(saleId: int) | Fail(message: string)

  const CarrinhoVazio := "Carrinho vazio"
  const FalhaAoCriarVenda := "Falha ao criar venda"
  const StatusConcluida := "concluida"
  const FormasDePagamento := ["Dinheiro", "Cartão de Crédito", "Cartão de Débito", "PIX"]

  // ------------------------------------------------------------------ cart

  function Subtotal(l: CartLine): int
  {
    l.precoVenda * l.quantidade
  }

  /** The cart total: the sum of price times quantity over the lines. */
  function CartTotal(lines: seq<CartLine>): int
  {
    SumOf(lines, Subtotal)
  }

  predicate HasLine(lines: seq<CartLine>, id: int)
  {
    exists i :: 0 <= i < |lines| && lines[i].id == id
  }

  predicate IdsUnicos(lines: seq<CartLine>)
  {
    forall i, j :: 0 <= i < j < |lines| ==> lines[i].id != lines[j].id
  }

  function NovaLinha(p: Produto, quantidade: int): CartLine
  {
    CartLine(p.id, p.nome, p.codigoBarras, p.precoVenda, quantidade)
  }

  /** The cart after adding `quantidade` of `p`: the first line with the same
      product id has its quantity increased, keeping its own name and price;
      without such a line one new line is appended. */
  function Adicionado(lines: seq<CartLine>, p: Produto, quantidade: int): seq<CartLine>
  {
    if lines == [] then [NovaLinha(p, quantidade)]
    else if lines[0].id == p.id then [lines[0].(quantidade := lines[0].quantidade + quantidade)] + lines[1..]
    else [lines[0]] + Adicionado(lines[1..], p, quantidade)
  }

  lemma {:induction false} AdicionadoMerge(lines: seq<CartLine>, p: Produto, quantidade: int, i: int)
    requires 0 <= i < |lines| && lines[i].id == p.id
    requires forall j :: 0 <= j < i ==> lines[j].id != p.id
    ensures Adicionado(lines, p, quantidade)
            == lines[i := lines[i].(quantidade := lines[i].quantidade + quantidade)]
  {
    if i > 0 {
      AdicionadoMerge(lines[1..], p, quantidade, i - 1);
      assert lines[1..][i - 1 := lines[i].(quantidade := lines[i].quantidade + quantidade)]
             == lines[i := lines[i].(quantidade := lines[i].quantidade + quantidade)][1..];
    }
  }

  lemma {:induction false} AdicionadoAppend(lines: seq<CartLine>, p: Produto, quantidade: int)
    requires forall j :: 0 <= j < |lines| ==> lines[j].id != p.id
    ensures Adicionado(lines, p, quantidade) == lines + [NovaLinha(p, quantidade)]
  {
    if lines != [] {
      AdicionadoAppend(lines[1..], p, quantidade);
      assert lines == [lines[0]] + lines[1..];
    }
  }

  /** Merging keeps the product ids unique and the order of the lines; the cart
      grows by one line exactly when the product was not in it. */
  lemma AdicionadoMantemUnicos(lines: seq<CartLine>, p: Produto, quantidade: int)
    requires IdsUnicos(lines)
    ensures IdsUnicos(Adicionado(lines, p, quantidade))
    ensures HasLine(Adicionado(lines, p, quantidade), p.id)
    ensures |Adicionado(lines, p, quantidade)| == if HasLine(lines, p.id) then |lines| else |lines| + 1
    ensures forall i :: 0 <= i < |lines| ==> Adicionado(lines, p, quantidade)[i].id == lines[i].id
  {
    if HasLine(lines, p.id) {
      var i := FirstLine(lines, p.id);
      AdicionadoMerge(lines, p, quantidade, i);
      assert Adicionado(lines, p, quantidade)[i].id == p.id;
    } else {
      AdicionadoAppend(lines, p, quantidade);
      var r := lines + [NovaLinha(p, quantidade)];
      assert r[|lines|].id == p.id;
    }
  }

  /** Adding raises the total by the added quantity times the price of the line
      it lands on: the price captured when the product was first added, not the
      product's current price. */
  lemma AdicionadoTotal(lines: seq<CartLine>, p: Produto, quantidade: int)
    ensures HasLine(lines, p.id) ==>
              CartTotal(Adicionado(lines, p, quantidade))
              == CartTotal(lines) + quantidade * lines[FirstLine(lines, p.id)].precoVenda
    ensures !HasLine(lines, p.id) ==>
              CartTotal(Adicionado(lines, p, quantidade)) == CartTotal(lines) + quantidade * p.precoVenda
  {
    if HasLine(lines, p.id) {
      var i := FirstLine(lines, p.id);
      AdicionadoMerge(lines, p, quantidade, i);
      SumUpdate(lines, i, lines[i].(quantidade := lines[i].quantidade + quantidade), Subtotal);
    } else {
      AdicionadoAppend(lines, p, quantidade);
      SumConcat(lines, [NovaLinha(p, quantidade)], Subtotal);
    }
  }

  /** The index of the first line holding product `id`. */
  function FirstLine(lines: seq<CartLine>, id: int): (i: int)
    requires HasLine(lines, id)
    ensures 0 <= i < |lines| && lines[i].id == id
    ensures forall j :: 0 <= j < i ==> lines[j].id != id
  {
    if lines[0].id == id then 0
    else
      assert HasLine(lines[1..], id) by {
        var k :| 0 <= k < |lines| && lines[k].id == id;
        assert lines[1..][k - 1].id == id;
      }
      1 + FirstLine(lines[1..], id)
  }

  /** `st.session_state.cart`: a list of lines mutated in place. */
  class Carrinho {
    var lines: seq<CartLine>

    ghost predicate Valid()
      reads this
    {
      IdsUnicos(lines) && forall i :: 0 <= i < |lines| ==> lines[i].quantidade >= 1
    }

    constructor ()
      ensures Valid() && lines == []
    {
      lines := [];
    }

    /** The for/else loop of the two add buttons: scan for the product's line,
        bump its quantity and stop; append a new line when the scan finds none.
        The quantity widget never yields less than 1. */
    method Add(p: Produto, quantidade: int)
      requires Valid() && quantidade >= 1
      modifies this
      ensures Valid()
      ensures lines == Adicionado(old(lines), p, quantidade)
    {
      AdicionadoMantemUnicos(lines, p, quantidade);
      var i := 0;
      while i < |lines|
        invariant 0 <= i <= |lines|
        invariant forall j :: 0 <= j < i ==> lines[j].id != p.id
        invariant lines == old(lines)
      {
        if lines[i].id == p.id {
          AdicionadoMerge(lines, p, quantidade, i);
          lines := lines[i := lines[i].(quantidade := lines[i].quantidade + quantidade)];
          return;
        }
        i := i + 1;
      }
      AdicionadoAppend(lines, p, quantidade);
      lines := lines + [NovaLinha(p, quantidade)];
    }

    /** The quantity widget of line `i`: the new value (at least 1) replaces
        the old one and nothing else changes. */
    method SetQuantity(i: int, quantidade: int)
      requires Valid() && 0 <= i < |lines| && quantidade >= 1
      modifies this
      ensures Valid()
      ensures lines == old(lines)[i := old(lines)[i].(quantidade := quantidade)]
      ensures CartTotal(lines) == CartTotal(old(lines)) - Subtotal(old(lines)[i]) + old(lines)[i].precoVenda * quantidade
    {
      SumUpdate(lines, i, lines[i].(quantidade := quantidade), Subtotal);
      lines := lines[i := lines[i].(quantidade := quantidade)];
    }

    /** `cart.pop(i)`: line `i` goes, the others keep their order. */
    method Remove(i: int)
      requires Valid() && 0 <= i < |lines|
      modifies this
      ensures Valid()
      ensures lines == old(lines)[..i] + old(lines)[i + 1..]
      ensures |lines| == |old(lines)| - 1
      ensures CartTotal(lines) == CartTotal(old(lines)) - Subtotal(old(lines)[i])
    {
      SumRemove(lines, i, Subtotal);
      var r := lines[..i] + lines[i + 1..];
      assert forall k :: 0 <= k < |r| ==> r[k] == if k < i then lines[k] else lines[k + 1];
      lines := r;
    }

    /** The "Limpar Carrinho" button. */
    method Clear()
      modifies this
      ensures Valid() && lines == []
    {
      lines := [];
    }
  }

  // -------------------------------------------------------- catalog lookups

  predicate CasaComToken(p: Produto, token: string)
  {
    p.ativo && (p.codigoBarras == token || p.codigo == token)
  }

  /** get_product_by_barcode: nothing for an empty token; otherwise the first
      active product whose barcode or internal code equals the token. */
  function GetProductByBarcode(ps: seq<Produto>, token: string): (r: Option<Produto>)
    ensures token == "" ==> r.None?
    ensures token != "" ==> (r.None? <==> forall i :: 0 <= i < |ps| ==> !CasaComToken(ps[i], token))
    ensures r.Some? ==> exists i :: 0 <= i < |ps| && ps[i] == r.value && CasaComToken(r.value, token)
                                    && forall j :: 0 <= j < i ==> !CasaComToken(ps[j], token)
  {
    if token == "" then None else Find(ps, (p: Produto) => CasaComToken(p, token))
  }

  function Ativos(ps: seq<Produto>): (r: seq<Produto>)
    ensures forall p :: p in r <==> p in ps && p.ativo
    ensures multiset(r) <= multiset(ps)
  {
    Filter(ps, (p: Produto) => p.ativo)
  }

  predicate NomeLe(a: Produto, b: Produto)
  {
    LexLe(a.nome, b.nome)
  }

  lemma NomeLeTotalPreorder()
    ensures TotalPreorder(NomeLe)
  {
    forall a: Produto, b: Produto ensures NomeLe(a, b) || NomeLe(b, a) {
      LexLeTotal(a.nome, b.nome);
    }
    forall a: Produto, b: Produto, c: Produto | NomeLe(a, b) && NomeLe(b, c) ensures NomeLe(a, c) {
      LexLeTransitive(a.nome, b.nome, c.nome);
    }
  }

  /** get_all_products: the active products, ordered by name. */
  function GetAllProducts(ps: seq<Produto>): (r: seq<Produto>)
    ensures multiset(r) == multiset(Ativos(ps))
    ensures forall p :: p in r <==> p in ps && p.ativo
    ensures forall i, j :: 0 <= i < j < |r| ==> LexLe(r[i].nome, r[j].nome)
  {
    NomeLeTotalPreorder();
    var r := SortBy(Ativos(ps), NomeLe);
    assert forall p :: p in r <==> p in multiset(r);
    r
  }

  /** The dashboard's low-stock list: the listed products whose stock is at or
      below their own minimum, in list order. */
  function EstoqueBaixo(ps: seq<Produto>): (r: seq<Produto>)
    ensures forall p :: p in r <==> p in ps && p.estoque <= p.estoqueMinimo
    ensures multiset(r) <= multiset(ps)
  {
    Filter(ps, (p: Produto) => p.estoque <= p.estoqueMinimo)
  }

  function ValorDeEstoque(p: Produto): int
  {
    p.precoVenda * p.estoque
  }

  /** The dashboard's stock value: the sum of price times stock. */
  function ValorEmEstoque(ps: seq<Produto>): int
  {
    SumOf(ps, ValorDeEstoque)
  }

  /** The stock value does not depend on the listing order: over the name-ordered
      list it equals the value over the active products in table order. */
  lemma ValorEmEstoqueDaListagem(ps: seq<Produto>)
    ensures ValorEmEstoque(GetAllProducts(ps)) == ValorEmEstoque(Ativos(ps))
  {
    SumPermutation(GetAllProducts(ps), Ativos(ps), ValorDeEstoque);
  }

  /** The catalog search test against an already lower-cased query: a
      substring of the lower-cased name, or of the code or the barcode when
      those are non-empty. */
  predicate CasaComBusca(p: Produto, q: string)
  {
    || IsSubstring(q, Lower(p.nome))
    || (p.codigo != "" && IsSubstring(q, Lower(p.codigo)))
    || (p.codigoBarras != "" && IsSubstring(q, Lower(p.codigoBarras)))
  }

  function FiltrarBusca(ps: seq<Produto>, q: string): (r: seq<Produto>)
    ensures forall p :: p in r <==> p in ps && CasaComBusca(p, q)
    ensures multiset(r) <= multiset(ps)
  {
    if ps == [] then []
    else
      assert ps == [ps[0]] + ps[1..];
      (if CasaComBusca(ps[0], q) then [ps[0]] else []) + FiltrarBusca(ps[1..], q)
  }

  /** The catalog search: an empty query keeps the list; otherwise the query is
      lower-cased and the products it matches are kept, in list order. */
  function Buscar(ps: seq<Produto>, query: string): (r: seq<Produto>)
    ensures query == "" ==> r == ps
    ensures query != "" ==> forall p :: p in r <==> p in ps && CasaComBusca(p, Lower(query))
    ensures multiset(r) <= multiset(ps)
  {
    if query == "" then ps else FiltrarBusca(ps, Lower(query))
  }

  /** The search ignores the case of the query. */
  lemma BuscarIgnoraCaixa(ps: seq<Produto>, query: string)
    ensures Buscar(ps, Lower(query)) == Buscar(ps, query)
  {
    LowerIdempotent(query);
  }

  // ------------------------------------------------------------ create_sale

  function ItemRow(saleId: int, l: CartLine): VendaItem
  {
    VendaItem(saleId, l.id, l.quantidade, l.precoVenda)
  }

  /** One item row per cart line, in cart order, each with the line's price. */
  function ItensDe(saleId: int, lines: seq<CartLine>): (r: seq<VendaItem>)
    ensures |r| == |lines|
    ensures forall k :: 0 <= k < |lines| ==>
              r[k].vendaId == saleId && r[k].produtoId == lines[k].id
              && r[k].quantidade == lines[k].quantidade && r[k].precoUnitario == lines[k].precoVenda
  {
    seq(|lines|, k requires 0 <= k < |lines| => ItemRow(saleId, lines[k]))
  }

  /** `UPDATE produtos SET estoque = estoque - quantidade WHERE id = ...`, with
      no lower bound. */
  function EstoqueBaixado(ps: seq<Produto>, id: int, quantidade: int): (r: seq<Produto>)
    ensures |r| == |ps|
    ensures forall j :: 0 <= j < |ps| ==>
              r[j] == if ps[j].id == id then ps[j].(estoque := ps[j].estoque - quantidade) else ps[j]
  {
    seq(|ps|, j requires 0 <= j < |ps| =>
      if ps[j].id == id then ps[j].(estoque := ps[j].estoque - quantidade) else ps[j])
  }

  /** The total quantity of product `id` over the lines. */
  function Qtd(lines: seq<CartLine>, id: int): int
  {
    if lines == [] then 0
    else Qtd(lines[..|lines| - 1], id) + (if lines[|lines| - 1].id == id then lines[|lines| - 1].quantidade else 0)
  }

  /** What the item and stock statements of create_sale have written after the
      first `n` cart lines. */
  datatype Execucao = Execucao(novos: seq<VendaItem>, produtos: seq<Produto>, abortada: bool)

  /** The item and stock statements of create_sale for the first `n` lines, each
      committed on its own: a statement at which the server raises is skipped
      and the loop goes on. When `persistente` holds (the cloud connection,
      which is never rolled back) a failure leaves the connection aborted and
      every later statement fails as well. */
  function Executar(saleId: int, ps: seq<Produto>, lines: seq<CartLine>, faults: set<Stmt>,
                    persistente: bool, abortada: bool, n: nat): Execucao
    requires n <= |lines|
  {
    if n == 0 then Execucao([], ps, abortada)
    else
      var e := Executar(saleId, ps, lines, faults, persistente, abortada, n - 1);
      var l := lines[n - 1];
      var itemOk := !e.abortada && Item(n - 1) !in faults;
      var novos := if itemOk then e.novos + [ItemRow(saleId, l)] else e.novos;
      var abortada1 := e.abortada || (persistente && !itemOk);
      var stockOk := !abortada1 && Stock(n - 1) !in faults;
      var produtos := if stockOk then EstoqueBaixado(e.produtos, l.id, l.quantidade) else e.produtos;
      Execucao(novos, produtos, abortada1 || (persistente && !stockOk))
  }

  /** Without persistent failures the connection never aborts. */
  lemma {:induction false} NaoPersistenteNuncaAborta(saleId: int, ps: seq<Produto>, lines: seq<CartLine>,
                                                      faults: set<Stmt>, n: nat)
    requires n <= |lines|
    ensures !Executar(saleId, ps, lines, faults, false, false, n).abortada
  {
    if n > 0 {
      NaoPersistenteNuncaAborta(saleId, ps, lines, faults, n - 1);
    }
  }

  /** When no stock statement fails, each product's stock drops by exactly the
      quantity the lines hold of it and nothing else about any product changes. */
  lemma {:induction false} EstoqueSemFalhas(saleId: int, ps: seq<Produto>, lines: seq<CartLine>,
                                             faults: set<Stmt>, n: nat)
    requires n <= |lines|
    requires forall k :: 0 <= k < n ==> Stock(k) !in faults
    ensures |Executar(saleId, ps, lines, faults, false, false, n).produtos| == |ps|
    ensures forall j :: 0 <= j < |ps| ==>
              Executar(saleId, ps, lines, faults, false, false, n).produtos[j]
              == ps[j].(estoque := ps[j].estoque - Qtd(lines[..n], ps[j].id))
  {
    if n > 0 {
      EstoqueSemFalhas(saleId, ps, lines, faults, n - 1);
      NaoPersistenteNuncaAborta(saleId, ps, lines, faults, n - 1);
      var e := Executar(saleId, ps, lines, faults, false, false, n - 1);
      var r := Executar(saleId, ps, lines, faults, false, false, n);
      var l := lines[n - 1];
      assert r.produtos == EstoqueBaixado(e.produtos, l.id, l.quantidade);
      forall j | 0 <= j < |ps|
        ensures r.produtos[j] == ps[j].(estoque := ps[j].estoque - Qtd(lines[..n], ps[j].id))
      {
        QtdUltima(lines, n, ps[j].id);
        assert e.produtos[j] == ps[j].(estoque := ps[j].estoque - Qtd(lines[..n - 1], ps[j].id));
      }
    }
  }

  /** The quantity over one more line. */
  lemma QtdUltima(lines: seq<CartLine>, n: nat, id: int)
    requires 0 < n <= |lines|
    ensures Qtd(lines[..n], id)
            == Qtd(lines[..n - 1], id) + (if lines[n - 1].id == id then lines[n - 1].quantidade else 0)
  {
    assert lines[..n][..n - 1] == lines[..n - 1];
  }

  /** When no item statement fails, there is one item row per line. */
  lemma {:induction false} ItensSemFalhas(saleId: int, ps: seq<Produto>, lines: seq<CartLine>,
                                           faults: set<Stmt>, n: nat)
    requires n <= |lines|
    requires forall k :: 0 <= k < n ==> Item(k) !in faults
    ensures Executar(saleId, ps, lines, faults, false, false, n).novos == ItensDe(saleId, lines[..n])
  {
    if n > 0 {
      ItensSemFalhas(saleId, ps, lines, faults, n - 1);
      NaoPersistenteNuncaAborta(saleId, ps, lines, faults, n - 1);
      assert ItensDe(saleId, lines[..n]) == ItensDe(saleId, lines[..n - 1]) + [ItemRow(saleId, lines[n - 1])];
    }
  }

  /** Not atomic: when the item statement of line `j` alone fails, every other
      line still gets its item row (those before it stay written, those after it
      are still written) and every line's stock is still decremented. */
  lemma {:induction false} ItemFalhoPreservaDemais(saleId: int, ps: seq<Produto>, lines: seq<CartLine>,
                                                    faults: set<Stmt>, j: nat, n: nat)
    requires j < n <= |lines|
    requires forall k :: 0 <= k < n ==> Stock(k) !in faults && (Item(k) in faults <==> k == j)
    ensures Executar(saleId, ps, lines, faults, false, false, n).novos
            == ItensDe(saleId, lines[..j]) + ItensDe(saleId, lines[j + 1..n])
    ensures |Executar(saleId, ps, lines, faults, false, false, n).produtos| == |ps|
    ensures forall i :: 0 <= i < |ps| ==>
              Executar(saleId, ps, lines, faults, false, false, n).produtos[i]
              == ps[i].(estoque := ps[i].estoque - Qtd(lines[..n], ps[i].id))
  {
    EstoqueSemFalhas(saleId, ps, lines, faults, n);
    NaoPersistenteNuncaAborta(saleId, ps, lines, faults, n - 1);
    if n == j + 1 {
      ItensSemFalhas(saleId, ps, lines, faults, j);
      assert lines[j + 1..n] == [];
    } else {
      ItemFalhoPreservaDemais(saleId, ps, lines, faults, j, n - 1);
      assert ItensDe(saleId, lines[j + 1..n]) == ItensDe(saleId, lines[j + 1..n - 1]) + [ItemRow(saleId, lines[n - 1])];
    }
  }

  /** The sales tables of one app and the next key SQLite's rowid or the
      PostgreSQL sequence hands out for `vendas` (above every existing one). */
  class Loja {
    var produtos: seq<Produto>
    var vendas: seq<Venda>
    var itens: seq<VendaItem>
    var nextVendaId: int

    ghost predicate Valid()
      reads this
    {
      nextVendaId >= 1 && forall i :: 0 <= i < |vendas| ==> 1 <= vendas[i].id < nextVendaId
    }

    constructor (produtos0: seq<Produto>)
      ensures Valid() && produtos == produtos0 && vendas == [] && itens == [] && nextVendaId == 1
    {
      produtos, vendas, itens, nextVendaId := produtos0, [], [], 1;
    }

    /** create_sale: an empty cart fails with "Carrinho vazio" and writes
        nothing; a failed header insert fails with "Falha ao criar venda" and
        writes nothing; otherwise the header (status "concluida", total the sum
        of the lines' price times quantity) is committed under a new key, then
        every line's item insert and stock update run as separate commits whose
        failures are swallowed, and the outcome is success with the new key. */
    method CreateSale(lines: seq<CartLine>, clienteNome: string, formaPagamento: string, faults: set<Stmt>)
      returns (r: SaleOutcome)
      requires Valid()
      modifies this
      ensures Valid()
      ensures lines == [] ==> r == Fail(CarrinhoVazio)
      ensures lines != [] && Header in faults ==> r == Fail(FalhaAoCriarVenda)
      ensures r.Fail? ==> vendas == old(vendas) && itens == old(itens) && produtos == old(produtos)
                          && nextVendaId == old(nextVendaId)
      ensures lines != [] && Header !in faults ==>
                r == Ok(old(nextVendaId))
                && (forall i :: 0 <= i < |old(vendas)| ==> old(vendas)[i].id != r.saleId)
                && vendas == old(vendas) + [Venda(r.saleId, clienteNome, CartTotal(lines), formaPagamento, StatusConcluida)]
                && itens == old(itens) + Executar(r.saleId, old(produtos), lines, faults, false, false, |lines|).novos
                && produtos == Executar(r.saleId, old(produtos), lines, faults, false, false, |lines|).produtos
    {
      if lines == [] {
        return Fail(CarrinhoVazio);
      }
      var total := CartTotal(lines);
      if Header in faults {
        return Fail(FalhaAoCriarVenda);
      }
      var saleId := nextVendaId;
      vendas := vendas + [Venda(saleId, clienteNome, total, formaPagamento, StatusConcluida)];
      nextVendaId := nextVendaId + 1;
      ghost var itens0, produtos0 := itens, produtos;
      var i := 0;
      while i < |lines|
        invariant 0 <= i <= |lines|
        invariant itens == itens0 + Executar(saleId, produtos0, lines, faults, false, false, i).novos
        invariant produtos == Executar(saleId, produtos0, lines, faults, false, false, i).produtos
        invariant vendas == old(vendas) + [Venda(saleId, clienteNome, total, formaPagamento, StatusConcluida)]
        invariant nextVendaId == saleId + 1
      {
        NaoPersistenteNuncaAborta(saleId, produtos0, lines, faults, i);
        if Item(i) !in faults {
          itens := itens + [ItemRow(saleId, lines[i])];
        }
        if Stock(i) !in faults {
          produtos := EstoqueBaixado(produtos, lines[i].id, lines[i].quantidade);
        }
        i := i + 1;
      }
      r := Ok(saleId);
    }
  }

  /** With no failure a sale writes one item row per line, carrying the line's
      price, and lowers each product's stock by the quantity sold. */
  lemma VendaSemFalhas(saleId: int, ps: seq<Produto>, lines: seq<CartLine>, faults: set<Stmt>)
    requires forall k :: 0 <= k < |lines| ==> Item(k) !in faults && Stock(k) !in faults
    ensures Executar(saleId, ps, lines, faults, false, false, |lines|).novos == ItensDe(saleId, lines)
    ensures |Executar(saleId, ps, lines, faults, false, false, |lines|).produtos| == |ps|
    ensures forall j :: 0 <= j < |ps| ==>
              Executar(saleId, ps, lines, faults, false, false, |lines|).produtos[j]
              == ps[j].(estoque := ps[j].estoque - Qtd(lines, ps[j].id))
  {
    ItensSemFalhas(saleId, ps, lines, faults, |lines|);
    EstoqueSemFalhas(saleId, ps, lines, faults, |lines|);
    assert lines[..|lines|] == lines;
  }

  /** The "Concluir Venda" button: on success the cart is emptied, on failure it
      is kept as it was. */
  method ConcluirVenda(loja: Loja, carrinho: Carrinho, clienteNome: string, formaPagamento: string,
                       faults: set<Stmt>) returns (r: SaleOutcome)
    requires loja.Valid() && carrinho.Valid()
    modifies loja, carrinho
    ensures loja.Valid() && carrinho.Valid()
    ensures carrinho.lines == if r.Ok? then [] else old(carrinho.lines)
    ensures r.Ok? <==> old(carrinho.lines) != [] && Header !in faults
    ensures old(carrinho.lines) == [] ==> r == Fail(CarrinhoVazio)
    ensures r.Fail? ==> loja.vendas == old(loja.vendas) && loja.itens == old(loja.itens)
                        && loja.produtos == old(loja.produtos) && loja.nextVendaId == old(loja.nextVendaId)
    ensures r.Ok? ==>
              r.saleId == old(loja.nextVendaId)
              && loja.vendas == old(loja.vendas) + [Venda(r.saleId, clienteNome, CartTotal(old(carrinho.lines)),
                                                          formaPagamento, StatusConcluida)]
              && loja.itens == old(loja.itens) + Executar(r.saleId, old(loja.produtos), old(carrinho.lines), faults,
                                                          false, false, |old(carrinho.lines)|).novos
              && loja.produtos == Executar(r.saleId, old(loja.produtos), old(carrinho.lines), faults,
                                           false, false, |old(carrinho.lines)|).produtos
  {
    r := loja.CreateSale(carrinho.lines, clienteNome, formaPagamento, faults);
    if r.Ok? {
      carrinho.Clear();
    }
  }
}
