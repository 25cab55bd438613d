/** Sums and filters over tables (maps) and logs (sequences). */
module Sums {

  /** The sum of f over the rows of a table. */
  ghost function SumRows<K(!new), V>(m: map<K, V>, f: V -> int): int {
    if m == map[] then 0
    else
      var k :| k in m;
      f(m[k]) + SumRows(m - {k}, f)
  }

  lemma {:induction false} SumRemove<K(!new), V>(m: map<K, V>, f: V -> int, k: K)
    requires k in m
    ensures SumRows(m, f) == f(m[k]) + SumRows(m - {k}, f)
    decreases |m|
  {
    var j :| j in m && SumRows(m, f) == f(m[j]) + SumRows(m - {j}, f);
    if j != k {
      SumRemove(m - {j}, f, k);
      SumRemove(m - {k}, f, j);
      assert m - {j} - {k} == m - {k} - {j};
    }
  }

  /** Writing one row changes the sum by the difference of that row's terms. */
  lemma SumPut<K(!new), V>(m: map<K, V>, f: V -> int, k: K, v: V)
    ensures SumRows(m[k := v], f) == SumRows(m, f) + f(v) - (if k in m then f(m[k]) else 0)
  {
    SumRemove(m[k := v], f, k);
    assert m[k := v] - {k} == m - {k};
    if k in m {
      SumRemove(m, f, k);
    } else {
      assert m - {k} == m;
    }
  }

  lemma {:induction false} SumAgree<K(!new), V>(m: map<K, V>, f: V -> int, g: V -> int)
    requires forall k | k in m :: f(m[k]) == g(m[k])
    ensures SumRows(m, f) == SumRows(m, g)
    decreases |m|
  {
    if m != map[] {
      var k :| k in m;
      SumRemove(m, f, k);
      SumRemove(m, g, k);
      SumAgree(m - {k}, f, g);
    }
  }

  /** Sums are linear in the weight. */
  lemma {:induction false} SumSplit<K(!new), V>(m: map<K, V>, f: V -> int, g: V -> int, h: V -> int)
    requires forall k | k in m :: f(m[k]) == g(m[k]) + h(m[k])
    ensures SumRows(m, f) == SumRows(m, g) + SumRows(m, h)
    decreases |m|
  {
    if m != map[] {
      var k :| k in m;
      SumRemove(m, f, k);
      SumRemove(m, g, k);
      SumRemove(m, h, k);
      SumSplit(m - {k}, f, g, h);
    }
  }

  lemma {:induction false} SumNonNegative<K(!new), V>(m: map<K, V>, f: V -> int)
    requires forall k | k in m :: f(m[k]) >= 0
    ensures SumRows(m, f) >= 0
    decreases |m|
  {
    if m != map[] {
      var k :| k in m;
      SumRemove(m, f, k);
      SumNonNegative(m - {k}, f);
    }
  }

  /** The sum of f over a log. */
  function SumLog<T>(s: seq<T>, f: T -> int): int {
    if s == [] then 0 else SumLog(s[..|s| - 1], f) + f(s[|s| - 1])
  }

  lemma SumAppend<T>(s: seq<T>, f: T -> int, x: T)
    ensures SumLog(s + [x], f) == SumLog(s, f) + f(x)
  {
    assert (s + [x])[..|s|] == s;
  }

  lemma {:induction false} ZeroLog<T>(s: seq<T>, f: T -> int)
    requires forall x | x in s :: f(x) == 0
    ensures SumLog(s, f) == 0
    decreases |s|
  {
    if s != [] {
      ZeroLog(s[..|s| - 1], f);
      assert s[|s| - 1] in s;
    }
  }

  /** The entries of a log that satisfy p, in order. */
  function Select<T>(s: seq<T>, p: T -> bool): seq<T> {
    if s == [] then []
    else Select(s[..|s| - 1], p) + (if p(s[|s| - 1]) then [s[|s| - 1]] else [])
  }

  lemma SelectAppend<T>(s: seq<T>, p: T -> bool, x: T)
    ensures Select(s + [x], p) == Select(s, p) + (if p(x) then [x] else [])
  {
    assert (s + [x])[..|s|] == s;
  }
}
