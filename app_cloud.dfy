/** app_cloud.py: the point of sale over PostgreSQL. Its cart, catalog filters,
    dashboard and checkout button are those of app_nativo.py (module AppNativo).
    What differs is the data layer: one psycopg2 connection cached for the life
    of the app, a `run_query` that commits after a successful write and never
    rolls back after an error, a barcode lookup that stamps `ultima_leitura`, and
    a sale insert whose key is read back from `run_query`'s return value. */
module AppCloud {
  import opened Common
  import opened AppNativo

  /** The cached connection. After a statement raises, psycopg2 leaves the
      transaction aborted; since nothing rolls it back, every later statement on
      the connection raises as well. */
  class Conexao {
    var abortada: bool

    constructor ()
      ensures !abortada
    {
      abortada := false;
    }
  }

  /** `UPDATE produtos SET ultima_leitura = CURRENT_TIMESTAMP WHERE id = ...`. */
  function Carimbado(ps: seq<Produto>, id: int, agora: int): (r: seq<Produto>)
    ensures |r| == |ps|
    ensures forall j :: 0 <= j < |ps| ==>
              r[j] == if ps[j].id == id then ps[j].(ultimaLeitura := Some(agora)) else ps[j]
  {
    seq(|ps|, j requires 0 <= j < |ps| => if ps[j].id == id then ps[j].(ultimaLeitura := Some(agora)) else ps[j])
  }

  /** get_product_by_barcode: nothing for an empty token. Otherwise the SELECT
      picks the first active product whose barcode or code equals the token
      (nothing when the SELECT raises); on a match the product's `ultima_leitura`
      is stamped with `agora` and the product is returned whether or not the
      stamp succeeded. No other row and no other column is written. */
  method GetProductByBarcode(loja: Loja, conn: Conexao, token: string, agora: int, faults: set<Stmt>)
    returns (r: Option<Produto>)
    requires loja.Valid()
    modifies loja, conn
    ensures loja.Valid()
    ensures token == "" ==> r.None?
    ensures token != "" && !old(conn.abortada) && Select !in faults ==>
              r == AppNativo.GetProductByBarcode(old(loja.produtos), token)
    ensures old(conn.abortada) || Select in faults ==> r.None?
    ensures loja.produtos == if r.Some? && !old(conn.abortada) && Stamp !in faults
                             then Carimbado(old(loja.produtos), r.value.id, agora)
                             else old(loja.produtos)
    ensures conn.abortada == (old(conn.abortada) || (token != "" && (Select in faults || (r.Some? && Stamp in faults))))
    ensures loja.vendas == old(loja.vendas) && loja.itens == old(loja.itens) && loja.nextVendaId == old(loja.nextVendaId)
  {
    if token == "" {
      return None;
    }
    if conn.abortada || Select in faults {
      conn.abortada := true;
      return None;
    }
    r := AppNativo.GetProductByBarcode(loja.produtos, token);
    if r.Some? {
      if Stamp in faults {
        conn.abortada := true;
      } else {
        loja.produtos := Carimbado(loja.produtos, r.value.id, agora);
      }
    }
  }

  /** The key `run_query` hands back for `INSERT ... RETURNING id`: the statement
      does not start with SELECT, so `run_query` commits and returns
      `cur.rowcount`, which is 1 for the one inserted row. */
  const ChaveDevolvida := 1

  /** create_sale as written: the header is inserted under the next key, but
      the key the function goes on with is `ChaveDevolvida`; the item and stock
      statements then run on the shared connection, so the first one that raises
      aborts it and every later one fails too. On an already aborted connection
      the header insert fails and nothing is written. */
  method CreateSaleAsWritten(loja: Loja, conn: Conexao, lines: seq<CartLine>, clienteNome: string,
                             formaPagamento: string, faults: set<Stmt>) returns (r: SaleOutcome)
    requires loja.Valid()
    modifies loja, conn
    ensures loja.Valid()
    ensures lines == [] ==> r == Fail(CarrinhoVazio) && conn.abortada == old(conn.abortada)
    ensures lines != [] && (old(conn.abortada) || Header in faults) ==>
              r == Fail(FalhaAoCriarVenda) && conn.abortada
    ensures r.Fail? ==> loja.vendas == old(loja.vendas) && loja.itens == old(loja.itens)
                        && loja.produtos == old(loja.produtos) && loja.nextVendaId == old(loja.nextVendaId)
    ensures lines != [] && !old(conn.abortada) && Header !in faults ==>
              r == Ok(ChaveDevolvida)
              && loja.nextVendaId == old(loja.nextVendaId) + 1
              && loja.vendas == old(loja.vendas) + [Venda(old(loja.nextVendaId), clienteNome, CartTotal(lines),
                                                          formaPagamento, StatusConcluida)]
              && loja.itens == old(loja.itens)
                               + Executar(ChaveDevolvida, old(loja.produtos), lines, faults, true, false, |lines|).novos
              && loja.produtos == Executar(ChaveDevolvida, old(loja.produtos), lines, faults, true, false, |lines|).produtos
              && conn.abortada == Executar(ChaveDevolvida, old(loja.produtos), lines, faults, true, false, |lines|).abortada
  {
    if lines == [] {
      return Fail(CarrinhoVazio);
    }
    var total := CartTotal(lines);
    if conn.abortada || Header in faults {
      conn.abortada := true;
      return Fail(FalhaAoCriarVenda);
    }
    loja.vendas := loja.vendas + [Venda(loja.nextVendaId, clienteNome, total, formaPagamento, StatusConcluida)];
    loja.nextVendaId := loja.nextVendaId + 1;
    var vendaId := ChaveDevolvida;
    ghost var itens0, produtos0 := loja.itens, loja.produtos;
    var i := 0;
    while i < |lines|
      invariant 0 <= i <= |lines|
      invariant loja.itens == itens0 + Executar(vendaId, produtos0, lines, faults, true, false, i).novos
      invariant loja.produtos == Executar(vendaId, produtos0, lines, faults, true, false, i).produtos
      invariant conn.abortada == Executar(vendaId, produtos0, lines, faults, true, false, i).abortada
      invariant loja.vendas == old(loja.vendas) + [Venda(old(loja.nextVendaId), clienteNome, total,
                                                         formaPagamento, StatusConcluida)]
      invariant loja.nextVendaId == old(loja.nextVendaId) + 1
    {
      if !conn.abortada && Item(i) !in faults {
        loja.itens := loja.itens + [ItemRow(vendaId, lines[i])];
      } else {
        conn.abortada := true;
      }
      if !conn.abortada && Stock(i) !in faults {
        loja.produtos := EstoqueBaixado(loja.produtos, lines[i].id, lines[i].quantidade);
      } else {
        conn.abortada := true;
      }
      i := i + 1;
    }
    r := Ok(vendaId);
  }

  /** Once the connection is aborted nothing more is written. */
  lemma {:induction false} AbortadaCongela(saleId: int, ps: seq<Produto>, lines: seq<CartLine>, faults: set<Stmt>,
                                            abortada: bool, m: nat, n: nat)
    requires m <= n <= |lines|
    requires Executar(saleId, ps, lines, faults, true, abortada, m).abortada
    ensures Executar(saleId, ps, lines, faults, true, abortada, n) == Executar(saleId, ps, lines, faults, true, abortada, m)
  {
    if n > m {
      AbortadaCongela(saleId, ps, lines, faults, abortada, m, n - 1);
    }
  }

  /** With no failing statement the shared connection behaves like independent
      commits. */
  lemma {:induction false} PersistenteSemFalhas(saleId: int, ps: seq<Produto>, lines: seq<CartLine>,
                                                 faults: set<Stmt>, n: nat)
    requires n <= |lines|
    requires forall k :: 0 <= k < n ==> Item(k) !in faults && Stock(k) !in faults
    ensures Executar(saleId, ps, lines, faults, true, false, n) == Executar(saleId, ps, lines, faults, false, false, n)
  {
    if n > 0 {
      PersistenteSemFalhas(saleId, ps, lines, faults, n - 1);
      NaoPersistenteNuncaAborta(saleId, ps, lines, faults, n - 1);
    }
  }

  /** Even when nothing fails, every item row of a sale recorded as written
      points at sale `ChaveDevolvida`, so none points at the header just
      inserted unless that header's key happens to be 1. */
  lemma ItensApontamParaChaveDevolvida(ps: seq<Produto>, lines: seq<CartLine>, faults: set<Stmt>, novoId: int)
    requires novoId != ChaveDevolvida
    requires forall k :: 0 <= k < |lines| ==> Item(k) !in faults && Stock(k) !in faults
    ensures |Executar(ChaveDevolvida, ps, lines, faults, true, false, |lines|).novos| == |lines|
    ensures forall k :: 0 <= k < |lines| ==>
              Executar(ChaveDevolvida, ps, lines, faults, true, false, |lines|).novos[k].vendaId != novoId
  {
    PersistenteSemFalhas(ChaveDevolvida, ps, lines, faults, |lines|);
    ItensSemFalhas(ChaveDevolvida, ps, lines, faults, |lines|);
    assert lines[..|lines|] == lines;
  }

  /** Two one-line sales recorded as written on a fresh store and connection,
      with no failing statement: the second header gets key 2, yet both item
      rows point at sale 1, so sale 2 has no items and sale 1 has two. */
  method DuasVendasComoEscritas() returns (vendas: seq<Venda>, itens: seq<VendaItem>)
    ensures |vendas| == 2 && vendas[0].id == 1 && vendas[1].id == 2
    ensures |itens| == 2 && itens[0].vendaId == 1 && itens[1].vendaId == 1
  {
    var arroz := Produto(7, "Arroz 5kg", "P001", "7896254301245", 2190, 50, 10, true, None);
    var linha := CartLine(7, "Arroz 5kg", "7896254301245", 2190, 1);
    var loja := new Loja([arroz]);
    var conn := new Conexao();
    var r1 := CreateSaleAsWritten(loja, conn, [linha], "", "PIX", {});
    assert Executar(ChaveDevolvida, [arroz], [linha], {}, true, false, 1).novos == [ItemRow(1, linha)];
    ghost var ps := loja.produtos;
    var r2 := CreateSaleAsWritten(loja, conn, [linha], "", "PIX", {});
    assert Executar(ChaveDevolvida, ps, [linha], {}, true, false, 1).novos == [ItemRow(1, linha)];
    vendas, itens := loja.vendas, loja.itens;
  }

  /** On the shared connection, a failing item insert for line `j` aborts it:
      the connection stays aborted, and neither line `j`'s stock decrement nor
      any item row or decrement of a later line is written (contrast
      ItemFalhoPreservaDemais, where each statement commits on its own). */
  lemma FalhaAbortaConexao(saleId: int, ps: seq<Produto>, lines: seq<CartLine>, faults: set<Stmt>, j: nat, n: nat)
    requires j < n <= |lines|
    requires Item(j) in faults
    ensures Executar(saleId, ps, lines, faults, true, false, n).abortada
    ensures Executar(saleId, ps, lines, faults, true, false, n).novos == Executar(saleId, ps, lines, faults, true, false, j).novos
    ensures Executar(saleId, ps, lines, faults, true, false, n).produtos
            == Executar(saleId, ps, lines, faults, true, false, j).produtos
  {
    AbortadaCongela(saleId, ps, lines, faults, false, j + 1, n);
  }
}
