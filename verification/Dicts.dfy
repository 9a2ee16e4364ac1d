/** Dictionaries of amounts in insertion order, as the scripts accumulate them, and dictionaries of those. */
module Dicts {

  type Dict<K> = seq<(K, nat)>

  /** m[k] = m.get(k, 0) + x */
  function AddTo<K(==)>(m: Dict<K>, k: K, x: nat): Dict<K> {
    if m == [] then [(k, x)]
    else if m[0].0 == k then [(k, m[0].1 + x)] + m[1..]
    else [m[0]] + AddTo(m[1..], k, x)
  }

  /** The amount under k, zero when there is none. */
  function SumOf<K(==)>(m: Dict<K>, k: K): nat {
    if m == [] then 0 else (if m[0].0 == k then m[0].1 else 0) + SumOf(m[1..], k)
  }

  ghost predicate HasKey<K>(m: Dict<K>, k: K) {
    exists i :: 0 <= i < |m| && m[i].0 == k
  }

  ghost predicate Distinct<K>(m: Dict<K>) {
    forall i, j :: 0 <= i < j < |m| ==> m[i].0 != m[j].0
  }

  lemma {:induction false} AddToSum<K>(m: Dict<K>, k: K, x: nat, j: K)
    ensures SumOf(AddTo(m, k, x), j) == SumOf(m, j) + if j == k then x else 0
  {
    if m != [] && m[0].0 != k {
      AddToSum(m[1..], k, x, j);
      assert AddTo(m, k, x)[1..] == AddTo(m[1..], k, x);
    } else if m != [] {
      assert AddTo(m, k, x)[1..] == m[1..];
    } else {
      assert [(k, x)][1..] == [];
    }
  }

  lemma {:induction false} AddToKeys<K>(m: Dict<K>, k: K, x: nat, j: K)
    ensures HasKey(AddTo(m, k, x), j) <==> HasKey(m, j) || j == k
  {
    var r := AddTo(m, k, x);
    assert r[0].0 == (if m == [] then k else m[0].0);
    if m != [] && m[0].0 != k {
      AddToKeys(m[1..], k, x, j);
      HasKeyCons(m, j);
      HasKeyCons(r, j);
      assert r[1..] == AddTo(m[1..], k, x);
    } else {
      HasKeyCons(r, j);
      if m != [] {
        HasKeyCons(m, j);
        assert r[1..] == m[1..];
      }
    }
  }

  lemma HasKeyCons<K>(m: Dict<K>, j: K)
    requires m != []
    ensures HasKey(m, j) <==> m[0].0 == j || HasKey(m[1..], j)
  {
    if HasKey(m, j) && m[0].0 != j {
      var i :| 0 <= i < |m| && m[i].0 == j;
      assert m[1..][i - 1].0 == j;
    }
    if HasKey(m[1..], j) {
      var i :| 0 <= i < |m[1..]| && m[1..][i].0 == j;
      assert m[i + 1].0 == j;
    }
  }

  lemma {:induction false} AddToDistinct<K>(m: Dict<K>, k: K, x: nat)
    requires Distinct(m)
    ensures Distinct(AddTo(m, k, x))
  {
    var r := AddTo(m, k, x);
    if m != [] && m[0].0 != k {
      AddToDistinct(m[1..], k, x);
      AddToKeys(m[1..], k, x, m[0].0);
      DistinctHead(m);
      DistinctCons(m[0], AddTo(m[1..], k, x));
    } else if m != [] {
      DistinctHead(m);
      DistinctCons(r[0], m[1..]);
      assert r == [r[0]] + m[1..];
    }
  }

  lemma DistinctHead<K>(m: Dict<K>)
    requires m != [] && Distinct(m)
    ensures Distinct(m[1..]) && !HasKey(m[1..], m[0].0)
  {
  }

  lemma DistinctCons<K>(e: (K, nat), m: Dict<K>)
    requires Distinct(m) && !HasKey(m, e.0)
    ensures Distinct([e] + m)
  {
  }

  lemma {:induction false} SumOfAbsent<K>(m: Dict<K>, k: K)
    requires !HasKey(m, k)
    ensures SumOf(m, k) == 0
  {
    if m != [] {
      HasKeyCons(m, k);
      SumOfAbsent(m[1..], k);
    }
  }

  // ---- a dictionary of dictionaries ----

  type Nested<A, K> = seq<(A, Dict<K>)>

  function AddNested<A(==), K(==)>(mm: Nested<A, K>, a: A, k: K, x: nat): Nested<A, K> {
    if mm == [] then [(a, [(k, x)])]
    else if mm[0].0 == a then [(a, AddTo(mm[0].1, k, x))] + mm[1..]
    else [mm[0]] + AddNested(mm[1..], a, k, x)
  }

  /** The amount under k over all the dictionaries. */
  function SumNested<A, K(==)>(mm: Nested<A, K>, k: K): nat {
    if mm == [] then 0 else SumOf(mm[0].1, k) + SumNested(mm[1..], k)
  }

  lemma {:induction false} AddNestedSum<A, K>(mm: Nested<A, K>, a: A, k: K, x: nat, j: K)
    ensures SumNested(AddNested(mm, a, k, x), j) == SumNested(mm, j) + if j == k then x else 0
  {
    var r := AddNested(mm, a, k, x);
    if mm == [] {
      AddToSum([], k, x, j);
      assert r[1..] == [];
    } else if mm[0].0 == a {
      AddToSum(mm[0].1, k, x, j);
      assert r[1..] == mm[1..];
    } else {
      AddNestedSum(mm[1..], a, k, x, j);
      assert r[1..] == AddNested(mm[1..], a, k, x);
    }
  }

  /** All outer keys satisfy p. */
  ghost predicate OuterKeys<A, K>(mm: Nested<A, K>, p: A -> bool) {
    forall i :: 0 <= i < |mm| ==> p(mm[i].0)
  }

  lemma {:induction false} AddNestedKeys<A, K>(mm: Nested<A, K>, a: A, k: K, x: nat, p: A -> bool)
    requires OuterKeys(mm, p) && p(a)
    ensures OuterKeys(AddNested(mm, a, k, x), p)
  {
    if mm != [] && mm[0].0 != a {
      assert OuterKeys(mm[1..], p);
      AddNestedKeys(mm[1..], a, k, x, p);
      var r := AddNested(mm[1..], a, k, x);
      forall i | 0 <= i < |[mm[0]] + r| ensures p(([mm[0]] + r)[i].0) {
        if i > 0 { assert p(r[i - 1].0); }
      }
    }
  }
}
