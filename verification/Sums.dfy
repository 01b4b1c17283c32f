/** Finite sums: over the values of a map, and over a sequence of integers. */
module Sums {

  // ---- maps ----

  ghost function SumValues<K>(m: map<K, int>): int
    decreases |m|
  {
    if m == map[] then 0
    else
      var k :| k in m;
      assert |m - {k}| < |m| by { assert m == (m - {k})[k := m[k]]; }
      m[k] + SumValues(m - {k})
  }

  lemma Smaller<K>(m: map<K, int>, x: K)
    requires x in m
    ensures |m - {x}| == |m| - 1
  {
    assert m == (m - {x})[x := m[x]];
  }

  /** The key the definition picks. */
  lemma SumValuesPick<K>(m: map<K, int>) returns (k: K)
    requires m != map[]
    ensures k in m && SumValues(m) == m[k] + SumValues(m - {k})
  {
    k :| k in m && SumValues(m) == m[k] + SumValues(m - {k});
  }

  lemma {:induction false} SumValuesRemove<K>(m: map<K, int>, x: K)
    requires x in m
    ensures |m - {x}| < |m|
    ensures SumValues(m) == m[x] + SumValues(m - {x})
    decreases |m|
  {
    Smaller(m, x);
    var k := SumValuesPick(m);
    if k != x {
      Smaller(m, k);
      SumValuesRemove(m - {k}, x);
      SumValuesRemove(m - {x}, k);
      assert (m - {k}) - {x} == (m - {x}) - {k};
    }
  }

  /** Writing one key changes the sum by the change of that key's value; an absent key counts as 0. */
  lemma SumValuesUpdate<K>(m: map<K, int>, x: K, v: int)
    ensures SumValues(m[x := v]) == SumValues(m) + v - (if x in m then m[x] else 0)
  {
    SumValuesRemove(m[x := v], x);
    assert m[x := v] - {x} == m - {x};
    if x in m {
      SumValuesRemove(m, x);
    } else {
      assert m - {x} == m;
    }
  }

  lemma {:induction false} SumValuesZero<K>(m: map<K, int>)
    requires forall k <- m :: m[k] == 0
    ensures SumValues(m) == 0
    decreases |m|
  {
    if m != map[] {
      var k := SumValuesPick(m);
      SumValuesRemove(m, k);
      SumValuesZero(m - {k});
    }
  }

  /** Keys whose value is 0 may be left out of a sum. */
  lemma {:induction false} SumValuesDropZeros<K>(m: map<K, int>, n: map<K, int>)
    requires n.Keys <= m.Keys
    requires forall k <- m :: m[k] == if k in n then n[k] else 0
    ensures SumValues(m) == SumValues(n)
    decreases |m|
  {
    if n == map[] {
      SumValuesZero(m);
    } else {
      var k :| k in n;
      SumValuesRemove(m, k);
      SumValuesRemove(n, k);
      SumValuesDropZeros(m - {k}, n - {k});
    }
  }

  lemma SomeKey<K>(m: map<K, int>) returns (k: K)
    requires m != map[]
    ensures k in m
  {
    k :| k in m;
  }

  lemma MinimumExists(m: map<int, int>) returns (p: int)
    requires m != map[]
    ensures p in m && forall q <- m :: m[p] <= m[q]
    decreases |m|
  {
    p := SomeKey(m);
    var rest := m - {p};
    SumValuesRemove(m, p);
    if rest != map[] {
      var r := MinimumExists(rest);
      assert forall q <- m :: q == p || q in rest;
      if m[r] < m[p] {
        p := r;
      }
    }
  }

  // ---- sequences ----

  function Total(xs: seq<int>): int
  {
    if xs == [] then 0 else xs[0] + Total(xs[1..])
  }

  lemma {:induction false} TotalUpdate(xs: seq<int>, i: nat, v: int)
    requires i < |xs|
    ensures Total(xs[i := v]) == Total(xs) + v - xs[i]
  {
    if i == 0 {
      assert xs[i := v][1..] == xs[1..];
    } else {
      assert xs[i := v][1..] == xs[1..][i - 1 := v];
      TotalUpdate(xs[1..], i - 1, v);
    }
  }

  lemma {:induction false} TotalAtMost(xs: seq<int>, bound: int)
    requires forall i :: 0 <= i < |xs| ==> xs[i] <= bound
    ensures Total(xs) <= |xs| * bound
  {
    if xs != [] {
      TotalAtMost(xs[1..], bound);
      assert |xs| * bound == bound + |xs[1..]| * bound;
    }
  }

  /** Terms dominated one by one have a dominated sum. */
  lemma {:induction false} TotalMonotone(xs: seq<int>, ys: seq<int>)
    requires |xs| == |ys|
    requires forall i :: 0 <= i < |xs| ==> xs[i] <= ys[i]
    ensures Total(xs) <= Total(ys)
  {
    if xs != [] {
      TotalMonotone(xs[1..], ys[1..]);
    }
  }
}
