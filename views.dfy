/** views.py: the sales screen, the product and category screens and the
    reports of the multi-page app, over the store of models.py. The Streamlit
    session state the screens keep between reruns is the class `Sessao`; what a
    widget returns is a parameter. */
module Views {
  import opened Common
  import opened Ordering
  import opened Models

  /** config.py: stock below this is low in the stock report. */
  const LowStockThreshold := 10

  /** config.py: the payment methods the checkout offers. */
  const PaymentMethods := ["Dinheiro", "Cartão de Crédito", "Cartão de Débito", "PIX"]

  /** A cart line for a product picked by barcode or from the list: quantity 1
      and a subtotal equal to the product's price. */
  function NovoItem(p: Produto): (it: ItemCarrinho)
    ensures it.produtoId == p.id && it.quantidade == 1 && it.subtotal == p.preco == it.precoUnitario
  {
    ItemCarrinho(p.id, p.nome, p.preco, 1, p.preco)
  }

  function SubtotalDe(it: ItemCarrinho): int
  {
    it.subtotal
  }

  /** The cart total: the sum of the lines' subtotals. */
  function TotalCarrinho(cart: seq<ItemCarrinho>): int
  {
    SumOf(cart, SubtotalDe)
  }

  /** A line whose subtotal agrees with its quantity and unit price. */
  predicate Coerente(it: ItemCarrinho)
  {
    it.subtotal == it.quantidade * it.precoUnitario
  }

  function QuantidadeVezesPreco(it: ItemCarrinho): int
  {
    it.quantidade * it.precoUnitario
  }

  /** When every line is coherent the total is the sum of quantity times price. */
  lemma {:induction false} TotalDeLinhasCoerentes(cart: seq<ItemCarrinho>)
    requires forall k :: 0 <= k < |cart| ==> Coerente(cart[k])
    ensures TotalCarrinho(cart) == SumOf(cart, QuantidadeVezesPreco)
  {
    if cart != [] {
      TotalDeLinhasCoerentes(cart[1..]);
    }
  }

  /** The outcome of "Finalizar Venda". */
  datatype Finalizacao = CarrinhoVazio | Registrada(vendaId: string) | ErroAoRegistrar

  /** The outcome of submitting a product or category form. */
  datatype Formulario = Rejeitado | Salvo | Falhou

  /** The two-click confirmation: the click that calls `delete` is one whose id
      equals the pending one. */
  predicate ChamaDelete(pendente: Option<int>, id: int)
  {
    id != 0 && pendente == Some(id)
  }

  /** The pending id after a click on `id`: a click that does not call delete
      makes `id` pending; a delete that succeeds clears it; one that fails keeps it. */
  function PendenteApos(pendente: Option<int>, id: int, excluiu: bool): (r: Option<int>)
    ensures id != 0 && !ChamaDelete(pendente, id) ==> r == Some(id)
    ensures ChamaDelete(pendente, id) ==> r == if excluiu then None else pendente
  {
    if id == 0 then pendente
    else if pendente == Some(id) then (if excluiu then None else pendente)
    else Some(id)
  }

  /** Whatever was pending, a first click on an id never deletes and a second
      click on the same id does. */
  lemma SegundoCliqueExclui(pendente: Option<int>, id: int)
    requires id != 0 && pendente != Some(id)
    ensures !ChamaDelete(pendente, id)
    ensures ChamaDelete(PendenteApos(pendente, id, false), id)
  {
  }

  /** The Streamlit session state of the multi-page app. */
  class Sessao {
    var cart: seq<ItemCarrinho>
    var confirmarExclusao: Option<int>
    var confirmarExclusaoCategoria: Option<int>
    var produtoEmEdicao: Option<Produto>
    var modoEdicao: bool
    var categoriaEmEdicao: Option<Categoria>
    var modoEdicaoCategoria: bool

    constructor ()
      ensures cart == [] && confirmarExclusao.None? && confirmarExclusaoCategoria.None?
      ensures produtoEmEdicao.None? && !modoEdicao && categoriaEmEdicao.None? && !modoEdicaoCategoria
    {
      cart := [];
      confirmarExclusao, confirmarExclusaoCategoria := None, None;
      produtoEmEdicao, modoEdicao := None, false;
      categoriaEmEdicao, modoEdicaoCategoria := None, false;
    }

    /** The two pending delete confirmations (product, category). */
    function Confirmacoes(): (Option<int>, Option<int>)
      reads this
    {
      (confirmarExclusao, confirmarExclusaoCategoria)
    }

    /** The product form: the product being edited and the edit-mode flag. */
    function FormProduto(): (Option<Produto>, bool)
      reads this
    {
      (produtoEmEdicao, modoEdicao)
    }

    /** The category form: the category being edited and the edit-mode flag. */
    function FormCategoria(): (Option<Categoria>, bool)
      reads this
    {
      (categoriaEmEdicao, modoEdicaoCategoria)
    }

    /** "Adicionar ao Carrinho" on the barcode result or on a listed product:
        one more line, always appended, even when the product is already in the cart. */
    method AdicionarAoCarrinho(p: Produto)
      modifies this
      ensures cart == old(cart) + [NovoItem(p)]
      ensures TotalCarrinho(cart) == TotalCarrinho(old(cart)) + p.preco
      ensures Confirmacoes() == old(Confirmacoes()) && FormProduto() == old(FormProduto()) && FormCategoria() == old(FormCategoria())
    {
      SumConcat(cart, [NovoItem(p)], SubtotalDe);
      cart := cart + [NovoItem(p)];
    }

    /** The rebuild after the cart editor: every line the editor returns is kept,
        in order, with its subtotal recomputed as quantity times unit price. */
    method AtualizarCarrinho(editado: seq<ItemCarrinho>)
      modifies this
      ensures |cart| == |editado|
      ensures forall k :: 0 <= k < |editado| ==> cart[k] == editado[k].(subtotal := editado[k].quantidade * editado[k].precoUnitario)
      ensures forall k :: 0 <= k < |cart| ==> Coerente(cart[k])
      ensures TotalCarrinho(cart) == SumOf(editado, QuantidadeVezesPreco)
      ensures Confirmacoes() == old(Confirmacoes()) && FormProduto() == old(FormProduto()) && FormCategoria() == old(FormCategoria())
    {
      var atualizado: seq<ItemCarrinho> := [];
      var i := 0;
      while i < |editado|
        invariant 0 <= i <= |editado|
        invariant |atualizado| == i
        invariant forall k :: 0 <= k < i ==>
                    atualizado[k] == editado[k].(subtotal := editado[k].quantidade * editado[k].precoUnitario)
      {
        var item := editado[i];
        atualizado := atualizado + [item.(subtotal := item.quantidade * item.precoUnitario)];
        i := i + 1;
      }
      cart := atualizado;
      TotalDeLinhasCoerentes(cart);
      MesmaQuantidadeVezesPreco(cart, editado);
    }

    /** "Limpar Carrinho". */
    method LimparCarrinho()
      modifies this
      ensures cart == []
      ensures Confirmacoes() == old(Confirmacoes()) && FormProduto() == old(FormProduto()) && FormCategoria() == old(FormCategoria())
    {
      cart := [];
    }

    /** "Finalizar Venda": an empty cart never reaches `registrar`; otherwise the
        cart and its total are recorded, and the cart is emptied exactly when
        `registrar` returns a key. The key is `str(uuid4())`, never empty, so the
        handler's truthiness test on it fails only when `registrar` returns None. */
    method FinalizarVenda(db: Database, formaPagamento: string, observacoes: string,
                          vendaId: string, agora: int, faults: set<Stmt>) returns (r: Finalizacao)
      requires db.Valid()
      requires vendaId != ""
      modifies this, db
      ensures db.Valid()
      ensures old(cart) == [] ==> r == CarrinhoVazio
      ensures old(cart) != [] ==>
                (r.Registrada? <==> RegistrarSucceeds(old(db.produtos), old(db.vendas), old(cart), vendaId, faults))
      ensures r.Registrada? ==> r.vendaId == vendaId && cart == []
                                && db.vendas == old(db.vendas) + [Venda(vendaId, agora, TotalCarrinho(old(cart)), formaPagamento,
                                                                        StatusConcluida, observacoes)]
                                && db.itens == old(db.itens) + ItensDaVenda(vendaId, old(cart))
                                && db.produtos == BaixarEstoque(old(db.produtos), old(cart))
      ensures !r.Registrada? ==> cart == old(cart) && db.vendas == old(db.vendas) && db.itens == old(db.itens)
                                 && db.produtos == old(db.produtos)
      ensures db.categorias == old(db.categorias)
      ensures db.nextCategoriaId == old(db.nextCategoriaId) && db.nextProdutoId == old(db.nextProdutoId)
      ensures Confirmacoes() == old(Confirmacoes()) && FormProduto() == old(FormProduto()) && FormCategoria() == old(FormCategoria())
    {
      if cart == [] {
        return CarrinhoVazio;
      }
      var total := TotalCarrinho(cart);
      var id := db.Registrar(cart, total, formaPagamento, observacoes, vendaId, agora, faults);
      if id.Some? {
        cart := [];
        r := Registrada(id.value);
      } else {
        r := ErroAoRegistrar;
      }
    }

    /** "Excluir Produto": the two-click confirmation around Produto.delete. */
    method ExcluirProduto(db: Database, id: int, faults: set<Stmt>) returns (excluiu: bool)
      requires db.Valid()
      modifies this, db
      ensures db.Valid()
      ensures excluiu ==> ChamaDelete(old(confirmarExclusao), id)
      ensures ChamaDelete(old(confirmarExclusao), id) ==>
                (excluiu <==> Query !in faults && !ProdutoReferenciado(old(db.itens), id))
      ensures db.produtos == if excluiu then SemProduto(old(db.produtos), id) else old(db.produtos)
      ensures confirmarExclusao == PendenteApos(old(confirmarExclusao), id, excluiu)
      ensures db.categorias == old(db.categorias) && db.vendas == old(db.vendas) && db.itens == old(db.itens)
      ensures cart == old(cart) && confirmarExclusaoCategoria == old(confirmarExclusaoCategoria)
      ensures FormProduto() == old(FormProduto()) && FormCategoria() == old(FormCategoria())
      ensures db.nextCategoriaId == old(db.nextCategoriaId) && db.nextProdutoId == old(db.nextProdutoId)
    {
      excluiu := false;
      if id != 0 {
        if confirmarExclusao == Some(id) {
          excluiu := db.ProdutoDelete(id, faults);
          if excluiu {
            confirmarExclusao := None;
          }
        } else {
          confirmarExclusao := Some(id);
        }
      }
    }

    /** "Excluir Categoria": the same two clicks around Categoria.delete. */
    method ExcluirCategoria(db: Database, id: int, faults: set<Stmt>) returns (excluiu: bool)
      requires db.Valid()
      modifies this, db
      ensures db.Valid()
      ensures excluiu ==> ChamaDelete(old(confirmarExclusaoCategoria), id)
      ensures ChamaDelete(old(confirmarExclusaoCategoria), id) ==>
                (excluiu <==> Query !in faults && !CategoriaReferenciada(old(db.produtos), id))
      ensures db.categorias == if excluiu then SemCategoria(old(db.categorias), id) else old(db.categorias)
      ensures confirmarExclusaoCategoria == PendenteApos(old(confirmarExclusaoCategoria), id, excluiu)
      ensures db.produtos == old(db.produtos) && db.vendas == old(db.vendas) && db.itens == old(db.itens)
      ensures cart == old(cart) && confirmarExclusao == old(confirmarExclusao)
      ensures FormProduto() == old(FormProduto()) && FormCategoria() == old(FormCategoria())
      ensures db.nextCategoriaId == old(db.nextCategoriaId) && db.nextProdutoId == old(db.nextProdutoId)
    {
      excluiu := false;
      if id != 0 {
        if confirmarExclusaoCategoria == Some(id) {
          excluiu := db.CategoriaDelete(id, faults);
          if excluiu {
            confirmarExclusaoCategoria := None;
          }
        } else {
          confirmarExclusaoCategoria := Some(id);
        }
      }
    }

    /** "Editar Produto": the product with that id enters the form; an unknown
        id changes nothing. */
    method EditarProduto(db: Database, id: int) returns (encontrado: bool)
      modifies this
      ensures encontrado <==> id != 0 && HasProduto(db.produtos, id)
      ensures encontrado ==> produtoEmEdicao == GetById(db.produtos, id) && modoEdicao
      ensures !encontrado ==> produtoEmEdicao == old(produtoEmEdicao) && modoEdicao == old(modoEdicao)
      ensures cart == old(cart) && Confirmacoes() == old(Confirmacoes()) && FormCategoria() == old(FormCategoria())
    {
      encontrado := false;
      if id != 0 {
        var p := GetById(db.produtos, id);
        if p.Some? {
          produtoEmEdicao, modoEdicao := p, true;
          encontrado := true;
        }
      }
    }

    /** "Editar Categoria": the first row of the listed categories with that id
        enters the form; an unknown id changes nothing. */
    method EditarCategoria(db: Database, id: int) returns (encontrado: bool)
      modifies this
      ensures encontrado <==> id != 0 && HasCategoria(db.categorias, id)
      ensures encontrado ==> categoriaEmEdicao.Some? && categoriaEmEdicao.value in db.categorias
                             && categoriaEmEdicao.value.id == id && modoEdicaoCategoria
      ensures !encontrado ==> categoriaEmEdicao == old(categoriaEmEdicao) && modoEdicaoCategoria == old(modoEdicaoCategoria)
      ensures cart == old(cart) && Confirmacoes() == old(Confirmacoes()) && FormProduto() == old(FormProduto())
    {
      encontrado := false;
      if id != 0 {
        var listadas := CategoriaGetAll(db.categorias);
        var c := Find(listadas, (c: Categoria) => c.id == id);
        assert c.Some? <==> HasCategoria(listadas, id);
        assert HasCategoria(listadas, id) <==> HasCategoria(db.categorias, id) by {
          MesmasCategorias(listadas, db.categorias, id);
        }
        if c.Some? {
          assert c.value in multiset(listadas);
          categoriaEmEdicao, modoEdicaoCategoria := c, true;
          encontrado := true;
        }
      }
    }

    /** "Salvar Produto": an empty code, an empty name or a zero price rejects
        the form with no write; otherwise the product in the form is updated
        when there is one, and a new product is added when there is not. A
        write that raises leaves the session as it was. */
    method SalvarProduto(db: Database, codigo: string, nome: string, descricao: string, preco: int, estoque: int,
                         categoriaId: Option<int>, barcode: string, imagemUrl: string, faults: set<Stmt>)
      returns (r: Formulario)
      requires db.Valid()
      modifies this, db
      ensures db.Valid()
      ensures (codigo == "" || nome == "" || preco == 0) <==> r == Rejeitado
      ensures r == Rejeitado ==> db.produtos == old(db.produtos) && db.nextProdutoId == old(db.nextProdutoId)
      ensures r != Rejeitado && old(produtoEmEdicao).Some? && old(produtoEmEdicao).value.id != 0 ==>
                (r == Salvo <==> Query !in faults
                                 && (HasProduto(old(db.produtos), old(produtoEmEdicao).value.id) ==>
                                       !CodigoEmUso(old(db.produtos), codigo, old(produtoEmEdicao).value.id)
                                       && CategoriaValida(old(db.categorias), categoriaId)))
                && db.produtos == (if r == Salvo
                                   then ComProdutoAtualizado(old(db.produtos),
                                          Produto(old(produtoEmEdicao).value.id, codigo, Some(barcode), nome, descricao,
                                                  preco, estoque, categoriaId, imagemUrl))
                                   else old(db.produtos))
      ensures r != Rejeitado && (old(produtoEmEdicao).None? || old(produtoEmEdicao).value.id == 0) ==>
                (r == Salvo <==> Query !in faults && !CodigoEmUso(old(db.produtos), codigo, 0)
                                 && CategoriaValida(old(db.categorias), categoriaId))
                && db.produtos == (if r == Salvo
                                   then old(db.produtos) + [Produto(old(db.nextProdutoId), codigo, Some(barcode), nome,
                                                                    descricao, preco, estoque, categoriaId, imagemUrl)]
                                   else old(db.produtos))
      ensures r == Salvo && old(produtoEmEdicao).Some? && old(produtoEmEdicao).value.id != 0 ==>
                produtoEmEdicao.None? && !modoEdicao
      ensures !(r == Salvo && old(produtoEmEdicao).Some? && old(produtoEmEdicao).value.id != 0) ==>
                produtoEmEdicao == old(produtoEmEdicao) && modoEdicao == old(modoEdicao)
      ensures db.categorias == old(db.categorias) && db.vendas == old(db.vendas) && db.itens == old(db.itens)
      ensures db.nextCategoriaId == old(db.nextCategoriaId)
      ensures db.nextProdutoId == if r == Salvo && (old(produtoEmEdicao).None? || old(produtoEmEdicao).value.id == 0)
                                  then old(db.nextProdutoId) + 1 else old(db.nextProdutoId)
      ensures cart == old(cart) && Confirmacoes() == old(Confirmacoes()) && FormCategoria() == old(FormCategoria())
    {
      if codigo == "" || nome == "" || preco == 0 {
        return Rejeitado;
      }
      if produtoEmEdicao.Some? && produtoEmEdicao.value.id != 0 {
        var ok := db.ProdutoUpdate(produtoEmEdicao.value.id, codigo, nome, descricao, preco, estoque,
                                   categoriaId, Some(barcode), imagemUrl, faults);
        if !ok {
          return Falhou;
        }
        produtoEmEdicao, modoEdicao := None, false;
        r := Salvo;
      } else {
        var novo := db.ProdutoAdd(codigo, nome, descricao, preco, estoque, categoriaId, Some(barcode), imagemUrl, faults);
        r := if novo.Some? then Salvo else Falhou;
      }
    }

    /** "Salvar Categoria": an empty name rejects the form; otherwise the
        category in the form is updated when there is one, and a new one is
        added when there is not. */
    method SalvarCategoria(db: Database, nome: string, descricao: string, faults: set<Stmt>) returns (r: Formulario)
      requires db.Valid()
      modifies this, db
      ensures db.Valid()
      ensures nome == "" <==> r == Rejeitado
      ensures r == Rejeitado ==> db.categorias == old(db.categorias)
      ensures r != Rejeitado ==> (r == Salvo <==> Query !in faults)
      ensures r == Salvo && old(categoriaEmEdicao).Some? && old(categoriaEmEdicao).value.id != 0 ==>
                db.categorias == ComCategoriaAtualizada(old(db.categorias),
                                   Categoria(old(categoriaEmEdicao).value.id, nome, descricao))
                && categoriaEmEdicao.None? && !modoEdicaoCategoria
      ensures r == Salvo && (old(categoriaEmEdicao).None? || old(categoriaEmEdicao).value.id == 0) ==>
                db.categorias == old(db.categorias) + [Categoria(old(db.nextCategoriaId), nome, descricao)]
      ensures r == Falhou ==> db.categorias == old(db.categorias)
      ensures !(r == Salvo && old(categoriaEmEdicao).Some? && old(categoriaEmEdicao).value.id != 0) ==>
                categoriaEmEdicao == old(categoriaEmEdicao) && modoEdicaoCategoria == old(modoEdicaoCategoria)
      ensures db.produtos == old(db.produtos) && db.vendas == old(db.vendas) && db.itens == old(db.itens)
      ensures db.nextProdutoId == old(db.nextProdutoId)
      ensures db.nextCategoriaId == if r == Salvo && (old(categoriaEmEdicao).None? || old(categoriaEmEdicao).value.id == 0)
                                    then old(db.nextCategoriaId) + 1 else old(db.nextCategoriaId)
      ensures cart == old(cart) && Confirmacoes() == old(Confirmacoes()) && FormProduto() == old(FormProduto())
    {
      if nome == "" {
        return Rejeitado;
      }
      if categoriaEmEdicao.Some? && categoriaEmEdicao.value.id != 0 {
        var ok := db.CategoriaUpdate(categoriaEmEdicao.value.id, nome, descricao, faults);
        if !ok {
          return Falhou;
        }
        categoriaEmEdicao, modoEdicaoCategoria := None, false;
        r := Salvo;
      } else {
        var novo := db.CategoriaAdd(nome, descricao, faults);
        r := if novo.Some? then Salvo else Falhou;
      }
    }

    /** "Cancelar Edição" on the product form. */
    method CancelarEdicaoProduto()
      modifies this
      ensures produtoEmEdicao.None? && !modoEdicao
      ensures cart == old(cart) && Confirmacoes() == old(Confirmacoes()) && FormCategoria() == old(FormCategoria())
    {
      produtoEmEdicao, modoEdicao := None, false;
    }

    /** "Cancelar Edição" on the category form. */
    method CancelarEdicaoCategoria()
      modifies this
      ensures categoriaEmEdicao.None? && !modoEdicaoCategoria
      ensures cart == old(cart) && Confirmacoes() == old(Confirmacoes()) && FormProduto() == old(FormProduto())
    {
      categoriaEmEdicao, modoEdicaoCategoria := None, false;
    }
  }

  lemma {:induction false} MesmaQuantidadeVezesPreco(a: seq<ItemCarrinho>, b: seq<ItemCarrinho>)
    requires |a| == |b|
    requires forall k :: 0 <= k < |a| ==> a[k].quantidade == b[k].quantidade && a[k].precoUnitario == b[k].precoUnitario
    ensures SumOf(a, QuantidadeVezesPreco) == SumOf(b, QuantidadeVezesPreco)
  {
    if a != [] {
      MesmaQuantidadeVezesPreco(a[1..], b[1..]);
    }
  }

  lemma MesmasCategorias(a: seq<Categoria>, b: seq<Categoria>, id: int)
    requires multiset(a) == multiset(b)
    ensures HasCategoria(a, id) <==> HasCategoria(b, id)
  {
    if HasCategoria(a, id) {
      var i :| 0 <= i < |a| && a[i].id == id;
      assert a[i] in multiset(b);
      var j :| 0 <= j < |b| && b[j] == a[i];
    }
    if HasCategoria(b, id) {
      var j :| 0 <= j < |b| && b[j].id == id;
      assert b[j] in multiset(a);
      var i :| 0 <= i < |a| && a[i] == b[j];
    }
  }

  // ---------------------------------------------------------------- reports

  function TotalDe(v: Venda): int
  {
    v.total
  }

  /** The sales summary: how many sales the range holds and the sum of their totals. */
  function ResumoVendas(vs: seq<Venda>): (r: (nat, int))
    ensures r.0 == |vs|
  {
    (|vs|, SumOf(vs, TotalDe))
  }

  /** The summary over the newest-first listing of a range is the summary of the
      range's sales taken in any order. */
  lemma ResumoDoPeriodo(vs: seq<Venda>, inicio: Option<int>, fim: Option<int>)
    ensures ResumoVendas(VendaGetAll(vs, inicio, fim)) == ResumoVendas(VendasNoPeriodo(vs, inicio, fim))
  {
    var a, b := VendaGetAll(vs, inicio, fim), VendasNoPeriodo(vs, inicio, fim);
    SumPermutation(a, b, TotalDe);
    assert |a| == |multiset(a)| == |multiset(b)| == |b|;
  }

  /** The calendar day of a timestamp in seconds. */
  function Dia(t: int): int
  {
    t / 86400
  }

  function DiaDaVenda(v: Venda): int
  {
    Dia(v.dataVenda)
  }

  function PagamentoDaVenda(v: Venda): string
  {
    v.formaPagamento
  }

  datatype Grupo<K> = Grupo(chave: K, total: int)

  function TotalDoGrupo<K>(g: Grupo<K>): int
  {
    g.total
  }

  predicate TemChave<K(==)>(gs: seq<Grupo<K>>, k: K)
  {
    exists i :: 0 <= i < |gs| && gs[i].chave == k
  }

  /** Add `t` to the group of `k`, opening it when there is none. */
  function Acumular<K(==)>(gs: seq<Grupo<K>>, k: K, t: int): seq<Grupo<K>>
  {
    if gs == [] then [Grupo(k, t)]
    else if gs[0].chave == k then [Grupo(k, gs[0].total + t)] + gs[1..]
    else [gs[0]] + Acumular(gs[1..], k, t)
  }

  /** `groupby(key)['total'].sum()`: one group per key, with the sum of the
      totals of the sales having that key. */
  function Agrupar<K(==)>(vs: seq<Venda>, key: Venda -> K): seq<Grupo<K>>
  {
    if vs == [] then []
    else Acumular(Agrupar(vs[..|vs| - 1], key), key(vs[|vs| - 1]), vs[|vs| - 1].total)
  }

  /** The sum of the totals of the sales with key `k`. */
  function TotalDaChave<K(==)>(vs: seq<Venda>, key: Venda -> K, k: K): int
  {
    if vs == [] then 0
    else TotalDaChave(vs[..|vs| - 1], key, k) + (if key(vs[|vs| - 1]) == k then vs[|vs| - 1].total else 0)
  }

  lemma {:induction false} AcumularChaves<K>(gs: seq<Grupo<K>>, k: K, t: int, c: K)
    ensures TemChave(Acumular(gs, k, t), c) <==> TemChave(gs, c) || c == k
  {
    var r := Acumular(gs, k, t);
    if gs == [] {
      assert r[0].chave == k;
    } else if gs[0].chave == k {
      if TemChave(gs, c) {
        var i :| 0 <= i < |gs| && gs[i].chave == c;
        assert r[i].chave == c;
      }
      if TemChave(r, c) {
        var i :| 0 <= i < |r| && r[i].chave == c;
        assert gs[i].chave == c;
      }
    } else {
      var tail := Acumular(gs[1..], k, t);
      AcumularChaves(gs[1..], k, t, c);
      assert r == [gs[0]] + tail;
      if TemChave(gs, c) && c != gs[0].chave {
        var i :| 0 <= i < |gs| && gs[i].chave == c;
        assert gs[1..][i - 1].chave == c;
        var m :| 0 <= m < |tail| && tail[m].chave == c;
        assert r[m + 1].chave == c;
      }
      if c == gs[0].chave {
        assert r[0].chave == c;
      }
      if c == k {
        var m :| 0 <= m < |tail| && tail[m].chave == k;
        assert r[m + 1].chave == k;
      }
      if TemChave(r, c) && c != gs[0].chave {
        var i :| 0 <= i < |r| && r[i].chave == c;
        assert tail[i - 1].chave == c;
        if TemChave(gs[1..], c) {
          var m :| 0 <= m < |gs[1..]| && gs[1..][m].chave == c;
          assert gs[m + 1].chave == c;
        }
      }
    }
  }

  lemma {:induction false} AcumularPreserva<K>(gs: seq<Grupo<K>>, k: K, t: int)
    ensures forall g :: g in Acumular(gs, k, t) && g.chave != k ==> g in gs
  {
    if gs != [] && gs[0].chave != k {
      AcumularPreserva(gs[1..], k, t);
      assert Acumular(gs, k, t) == [gs[0]] + Acumular(gs[1..], k, t);
    }
  }

  lemma {:induction false} AcumularUnicas<K>(gs: seq<Grupo<K>>, k: K, t: int)
    requires forall i, j :: 0 <= i < j < |gs| ==> gs[i].chave != gs[j].chave
    ensures forall i, j :: 0 <= i < j < |Acumular(gs, k, t)| ==> Acumular(gs, k, t)[i].chave != Acumular(gs, k, t)[j].chave
  {
    if gs != [] {
      var r := Acumular(gs, k, t);
      if gs[0].chave == k {
        forall i, j | 0 <= i < j < |r| ensures r[i].chave != r[j].chave {
          assert r[j] == gs[j];
          if i > 0 {
            assert r[i] == gs[i];
          }
        }
      } else {
        var tail := Acumular(gs[1..], k, t);
        AcumularUnicas(gs[1..], k, t);
        assert r == [gs[0]] + tail;
        AcumularChaves(gs[1..], k, t, gs[0].chave);
        assert !TemChave(gs[1..], gs[0].chave) by {
          forall m | 0 <= m < |gs[1..]| ensures gs[1..][m].chave != gs[0].chave {
            assert gs[1..][m] == gs[m + 1];
          }
        }
        forall j | 1 <= j < |r| ensures r[0].chave != r[j].chave {
          assert r[j] == tail[j - 1];
        }
      }
    }
  }

  lemma {:induction false} AcumularTotal<K>(gs: seq<Grupo<K>>, k: K, t: int)
    requires forall i, j :: 0 <= i < j < |gs| ==> gs[i].chave != gs[j].chave
    ensures forall i :: 0 <= i < |Acumular(gs, k, t)| && Acumular(gs, k, t)[i].chave == k ==>
              Acumular(gs, k, t)[i].total == t + (if TemChave(gs, k) then GrupoDe(gs, k).total else 0)
  {
    if gs != [] {
      var r := Acumular(gs, k, t);
      if gs[0].chave == k {
        assert GrupoDe(gs, k) == gs[0];
        forall i | 1 <= i < |r| ensures r[i].chave != k {
          assert r[i] == gs[i];
        }
      } else {
        var tail := Acumular(gs[1..], k, t);
        AcumularTotal(gs[1..], k, t);
        assert r == [gs[0]] + tail;
        assert TemChave(gs, k) <==> TemChave(gs[1..], k) by {
          if TemChave(gs, k) {
            var i :| 0 <= i < |gs| && gs[i].chave == k;
            assert gs[1..][i - 1].chave == k;
          }
          if TemChave(gs[1..], k) {
            var i :| 0 <= i < |gs[1..]| && gs[1..][i].chave == k;
            assert gs[i + 1].chave == k;
          }
        }
        if TemChave(gs, k) {
          assert GrupoDe(gs, k) == GrupoDe(gs[1..], k);
        }
        forall i | 1 <= i < |r| && r[i].chave == k
          ensures r[i].total == t + (if TemChave(gs, k) then GrupoDe(gs, k).total else 0)
        {
          assert r[i] == tail[i - 1];
          assert 0 <= i - 1 < |tail| && tail[i - 1].chave == k;
          assert tail[i - 1].total == t + (if TemChave(gs[1..], k) then GrupoDe(gs[1..], k).total else 0);
        }
      }
    }
  }

  lemma {:induction false} AcumularSoma<K>(gs: seq<Grupo<K>>, k: K, t: int)
    ensures SumOf(Acumular(gs, k, t), TotalDoGrupo) == SumOf(gs, TotalDoGrupo) + t
  {
    if gs != [] {
      var r := Acumular(gs, k, t);
      if gs[0].chave == k {
        assert r[1..] == gs[1..];
      } else {
        AcumularSoma(gs[1..], k, t);
        assert r[1..] == Acumular(gs[1..], k, t);
      }
    }
  }

  /** The group with key `k`. */
  function GrupoDe<K(==)>(gs: seq<Grupo<K>>, k: K): (g: Grupo<K>)
    requires TemChave(gs, k)
    ensures g in gs && g.chave == k
  {
    if gs[0].chave == k then gs[0]
    else
      assert TemChave(gs[1..], k) by {
        var i :| 0 <= i < |gs| && gs[i].chave == k;
        assert gs[1..][i - 1].chave == k;
      }
      GrupoDe(gs[1..], k)
  }

  /** The grouping partitions the sales: the keys are distinct, there is a group
      exactly for each key some sale has, each group's total is the sum of the
      totals of its sales, and the group totals add up to the range total. */
  lemma {:induction false} AgruparParticiona<K>(vs: seq<Venda>, key: Venda -> K)
    ensures var gs := Agrupar(vs, key);
            && (forall i, j :: 0 <= i < j < |gs| ==> gs[i].chave != gs[j].chave)
            && (forall c :: TemChave(gs, c) <==> exists v :: v in vs && key(v) == c)
            && (forall i :: 0 <= i < |gs| ==> gs[i].total == TotalDaChave(vs, key, gs[i].chave))
            && SumOf(gs, TotalDoGrupo) == SumOf(vs, TotalDe)
  {
    if vs != [] {
      var init, last := vs[..|vs| - 1], vs[|vs| - 1];
      var gs0 := Agrupar(init, key);
      AgruparParticiona(init, key);
      AcumularUnicas(gs0, key(last), last.total);
      AcumularTotal(gs0, key(last), last.total);
      AcumularPreserva(gs0, key(last), last.total);
      AcumularSoma(gs0, key(last), last.total);
      var gs := Agrupar(vs, key);
      assert vs == init + [last];
      forall c ensures TemChave(gs, c) <==> exists v :: v in vs && key(v) == c {
        AcumularChaves(gs0, key(last), last.total, c);
        if c == key(last) {
          assert last in vs;
        }
        if exists v :: v in vs && key(v) == c {
          var v :| v in vs && key(v) == c;
          if v != last {
            assert v in init;
          }
        }
        if exists v :: v in init && key(v) == c {
          var v :| v in init && key(v) == c;
          assert v in vs;
        }
      }
      forall i | 0 <= i < |gs| ensures gs[i].total == TotalDaChave(vs, key, gs[i].chave) {
        if gs[i].chave == key(last) {
          if !TemChave(gs0, key(last)) {
            TotalDaChaveAusente(init, key, key(last));
          }
        } else {
          assert gs[i] in gs0;
          var j :| 0 <= j < |gs0| && gs0[j] == gs[i];
        }
      }
      SumLast(vs, TotalDe);
    }
  }

  lemma {:induction false} TotalDaChaveAusente<K>(vs: seq<Venda>, key: Venda -> K, k: K)
    requires forall v :: v in vs ==> key(v) != k
    ensures TotalDaChave(vs, key, k) == 0
  {
    if vs != [] {
      assert vs[|vs| - 1] in vs;
      TotalDaChaveAusente(vs[..|vs| - 1], key, k);
    }
  }

  /** Sales per day and per payment method. */
  function VendasPorDia(vs: seq<Venda>): seq<Grupo<int>>
  {
    Agrupar(vs, DiaDaVenda)
  }

  function VendasPorPagamento(vs: seq<Venda>): seq<Grupo<string>>
  {
    Agrupar(vs, PagamentoDaVenda)
  }

  function PrecoVezesEstoque(p: Produto): int
  {
    p.preco * p.estoque
  }


  /** The product report's stock value and the stock report's item count, over
      the name-ordered listing, are those of the table in any order. */
  lemma ValorETotalDaListagem(ps: seq<Produto>)
    ensures SumOf(ProdutoGetAll(ps), PrecoVezesEstoque) == SumOf(ps, PrecoVezesEstoque)
    ensures SumOf(ProdutoGetAll(ps), EstoqueDe) == SumOf(ps, EstoqueDe)
  {
    SumPermutation(ProdutoGetAll(ps), ps, PrecoVezesEstoque);
    SumPermutation(ProdutoGetAll(ps), ps, EstoqueDe);
  }

  predicate EstoqueLe(a: Produto, b: Produto)
  {
    a.estoque <= b.estoque
  }

  function AbaixoDoLimite(ps: seq<Produto>): (r: seq<Produto>)
    ensures forall p :: p in r <==> p in ps && p.estoque < LowStockThreshold
    ensures multiset(r) <= multiset(ps)
  {
    Filter(ps, (p: Produto) => p.estoque < LowStockThreshold)
  }

  /** The stock report's low-stock table: the products with stock under the
      threshold, ascending by stock. */
  function EstoqueBaixo(ps: seq<Produto>): (r: seq<Produto>)
    ensures multiset(r) == multiset(AbaixoDoLimite(ps))
    ensures forall p :: p in r <==> p in ps && p.estoque < LowStockThreshold
    ensures forall i, j :: 0 <= i < j < |r| ==> r[i].estoque <= r[j].estoque
  {
    assert TotalPreorder(EstoqueLe);
    var r := SortBy(AbaixoDoLimite(ps), EstoqueLe);
    assert forall p :: p in r <==> p in multiset(r);
    r
  }
}
