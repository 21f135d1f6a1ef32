/** Shared vocabulary: optional values, the statements of a unit of work at
    which the database server may raise, and the sequence helpers (filter,
    first match, sum) that the SQL queries and Python comprehensions reduce to. */
module Common {

  datatype Option<+T> = None | Some(value: T)

  /** A statement sent to the database. Failures the model cannot derive from
      the schema (a lost connection, a locked file, a full disk) are given to
      the operations as the set of statements at which the server raises. */
  datatype Stmt =
    | Query            // the single statement of a one-statement operation
    | Header           // INSERT INTO vendas
    | Item(k: nat)     // INSERT INTO venda_itens for line k
    | Stock(k: nat)    // UPDATE produtos SET estoque = estoque - ... for line k
    | Commit           // COMMIT of a multi-statement transaction
    | Select           // a lookup SELECT
    | Stamp            // UPDATE produtos SET ultima_leitura = ...

  /** The elements of `s` that satisfy `p`, in their original order
      (a WHERE clause, or a list comprehension with an `if`). */
  function Filter<T(!new)>(s: seq<T>, p: T -> bool): (r: seq<T>)
    ensures |r| <= |s|
    ensures forall x :: x in r <==> x in s && p(x)
    ensures multiset(r) <= multiset(s)
  {
    if s == [] then []
    else
      assert s == [s[0]] + s[1..];
      (if p(s[0]) then [s[0]] else []) + Filter(s[1..], p)
  }

  /** The filter keeps every element that satisfies `p` exactly as often as
      `s` holds it, and drops every other element. */
  lemma {:induction false} FilterMultiplicidade<T(!new)>(s: seq<T>, p: T -> bool, x: T)
    ensures multiset(Filter(s, p))[x] == if p(x) then multiset(s)[x] else 0
  {
    if s != [] {
      FilterMultiplicidade(s[1..], p, x);
      assert s == [s[0]] + s[1..];
      assert multiset(s) == multiset([s[0]]) + multiset(s[1..]);
    }
  }

  /** The first element of `s` that satisfies `p` (LIMIT 1, `df.iloc[0]`). */
  function Find<T>(s: seq<T>, p: T -> bool): (r: Option<T>)
    ensures r.None? <==> forall i :: 0 <= i < |s| ==> !p(s[i])
    ensures r.Some? ==> exists i :: 0 <= i < |s| && s[i] == r.value && p(r.value)
                                    && forall j :: 0 <= j < i ==> !p(s[j])
  {
    if s == [] then None
    else if p(s[0]) then Some(s[0])
    else
      var r := Find(s[1..], p);
      assert r.Some? ==> exists i :: 0 <= i < |s[1..]| && s[1..][i] == r.value && p(r.value)
                                     && forall j :: 0 <= j < i ==> !p(s[1..][j]);
      assert r.Some? ==> exists i :: 1 <= i < |s| && s[i] == r.value && p(r.value)
                                     && forall j :: 0 <= j < i ==> !p(s[j]);
      r
  }

  /** The sum of `f` over the elements of `s` (Python `sum(...)`, SQL/pandas `.sum()`). */
  function SumOf<T>(s: seq<T>, f: T -> int): int
  {
    if s == [] then 0 else f(s[0]) + SumOf(s[1..], f)
  }

  lemma {:induction false} SumConcat<T>(a: seq<T>, b: seq<T>, f: T -> int)
    ensures SumOf(a + b, f) == SumOf(a, f) + SumOf(b, f)
  {
    if a == [] {
      assert a + b == b;
    } else {
      assert (a + b)[1..] == a[1..] + b;
      SumConcat(a[1..], b, f);
    }
  }

  lemma SumLast<T>(s: seq<T>, f: T -> int)
    requires s != []
    ensures SumOf(s, f) == SumOf(s[..|s| - 1], f) + f(s[|s| - 1])
  {
    assert s == s[..|s| - 1] + [s[|s| - 1]];
    SumConcat(s[..|s| - 1], [s[|s| - 1]], f);
  }

  /** A sum does not depend on the order of the rows: reordering a result set
      (ORDER BY) never changes a total computed over it. */
  lemma {:induction false} SumPermutation<T>(a: seq<T>, b: seq<T>, f: T -> int)
    requires multiset(a) == multiset(b)
    ensures SumOf(a, f) == SumOf(b, f)
  {
    if a == [] {
      assert |b| == |multiset(b)| == 0;
    } else {
      var x := a[0];
      assert x in multiset(b);
      var k :| 0 <= k < |b| && b[k] == x;
      var rest := b[..k] + b[k + 1..];
      assert b == b[..k] + ([x] + b[k + 1..]);
      assert a == [x] + a[1..];
      assert multiset(rest) == multiset(b) - multiset{x};
      assert multiset(a[1..]) == multiset(a) - multiset{x};
      SumPermutation(a[1..], rest, f);
      SumConcat(b[..k], [x] + b[k + 1..], f);
      assert ([x] + b[k + 1..])[1..] == b[k + 1..];
      SumConcat(b[..k], b[k + 1..], f);
    }
  }

  /** Splitting rows by a condition splits their sum. */
  lemma {:induction false} SumFilterSplit<T(!new)>(s: seq<T>, p: T -> bool, f: T -> int)
    ensures SumOf(s, f) == SumOf(Filter(s, p), f) + SumOf(Filter(s, x => !p(x)), f)
  {
    if s != [] {
      SumFilterSplit(s[1..], p, f);
      var h := if p(s[0]) then [s[0]] else [];
      var g := if !p(s[0]) then [s[0]] else [];
      SumConcat(h, Filter(s[1..], p), f);
      SumConcat(g, Filter(s[1..], x => !p(x)), f);
    }
  }

  /** Replacing one element changes the sum by the difference of the two values. */
  lemma SumUpdate<T>(s: seq<T>, i: int, x: T, f: T -> int)
    requires 0 <= i < |s|
    ensures SumOf(s[i := x], f) == SumOf(s, f) - f(s[i]) + f(x)
  {
    var a, b := s[..i], s[i + 1..];
    assert s == a + ([s[i]] + b);
    assert s[i := x] == a + ([x] + b);
    SumConcat(a, [s[i]] + b, f);
    SumConcat(a, [x] + b, f);
    assert ([s[i]] + b)[1..] == b;
    assert ([x] + b)[1..] == b;
  }

  /** Removing one element lowers the sum by its value. */
  lemma SumRemove<T>(s: seq<T>, i: int, f: T -> int)
    requires 0 <= i < |s|
    ensures SumOf(s[..i] + s[i + 1..], f) == SumOf(s, f) - f(s[i])
  {
    var a, b := s[..i], s[i + 1..];
    assert s == a + ([s[i]] + b);
    SumConcat(a, [s[i]] + b, f);
    assert ([s[i]] + b)[1..] == b;
    SumConcat(a, b, f);
  }
}
