/** Sums over finite maps: how a total changes when one entry is put or removed. */
module Totals {

  /** The sum of f over the values of m. */
  ghost function Total<K(!new), V(!new)>(m: map<K, V>, f: V -> int): int
    decreases |m|
  {
    if m == map[] then 0
    else
      var k :| k in m;
      f(m[k]) + Total(m - {k}, f)
  }

  lemma {:induction false} TotalRemove<K(!new), V(!new)>(m: map<K, V>, f: V -> int, k: K)
    requires k in m
    ensures Total(m, f) == f(m[k]) + Total(m - {k}, f)
    decreases |m|
  {
    var k0 :| k0 in m && Total(m, f) == f(m[k0]) + Total(m - {k0}, f);
    if k0 != k {
      TotalRemove(m - {k0}, f, k);
      TotalRemove(m - {k}, f, k0);
      assert m - {k0} - {k} == m - {k} - {k0};
    }
  }

  lemma {:induction false} TotalPut<K(!new), V(!new)>(m: map<K, V>, f: V -> int, k: K, v: V)
    ensures Total(m[k := v], f) == Total(m, f) - (if k in m then f(m[k]) else 0) + f(v)
  {
    TotalRemove(m[k := v], f, k);
    if k in m {
      TotalRemove(m, f, k);
      assert m[k := v] - {k} == m - {k};
    } else {
      assert m[k := v] - {k} == m;
    }
  }

  lemma {:induction false} TotalAtLeast<K(!new), V(!new)>(m: map<K, V>, f: V -> int)
    requires forall k :: k in m ==> f(m[k]) >= 0
    ensures Total(m, f) >= 0
    ensures forall k :: k in m ==> f(m[k]) <= Total(m, f)
    decreases |m|
  {
    if m != map[] {
      var k0 :| k0 in m && Total(m, f) == f(m[k0]) + Total(m - {k0}, f);
      TotalAtLeast(m - {k0}, f);
      forall k | k in m ensures f(m[k]) <= Total(m, f) {
        if k != k0 { assert k in m - {k0}; }
      }
    }
  }
}
