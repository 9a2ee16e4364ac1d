/** Listing a set in key order, as a storage query does. */
module KeyOrder {

  ghost predicate StrictOrder<T(!new)>(less: (T, T) -> bool) {
    && (forall x: T :: !less(x, x))
    && (forall x: T, y: T, z: T :: less(x, y) && less(y, z) ==> less(x, z))
    && (forall x: T, y: T :: x == y || less(x, y) || less(y, x))
  }

  predicate IsLeast<T(==)>(m: T, s: set<T>, less: (T, T) -> bool) {
    m in s && forall y :: y in s ==> y == m || less(m, y)
  }

  lemma {:induction false} LeastExists<T(!new)>(s: set<T>, less: (T, T) -> bool)
    requires s != {} && StrictOrder(less)
    ensures exists m :: IsLeast(m, s, less)
    decreases |s|
  {
    var x :| x in s;
    if s == {x} {
      assert IsLeast(x, s, less);
    } else {
      assert s == (s - {x}) + {x};
      LeastExists(s - {x}, less);
      var n :| IsLeast(n, s - {x}, less);
      assert IsLeast(if less(n, x) then n else x, s, less);
    }
  }

  function Least<T(!new, ==)>(s: set<T>, less: (T, T) -> bool): (m: T)
    requires s != {} && StrictOrder(less)
    ensures IsLeast(m, s, less)
  {
    LeastExists(s, less);
    var m :| m in s && IsLeast(m, s, less);
    m
  }

  /** The elements of s, least first. */
  function Listing<T(!new, ==)>(s: set<T>, less: (T, T) -> bool): seq<T>
    requires StrictOrder(less)
    decreases |s|
  {
    if s == {} then [] else [Least(s, less)] + Listing(s - {Least(s, less)}, less)
  }

  lemma {:induction false} ListingMembers<T(!new)>(s: set<T>, less: (T, T) -> bool)
    requires StrictOrder(less)
    ensures forall x :: x in Listing(s, less) <==> x in s
    decreases |s|
  {
    if s != {} {
      ListingMembers(s - {Least(s, less)}, less);
    }
  }

  lemma {:induction false} ListingSorted<T(!new)>(s: set<T>, less: (T, T) -> bool)
    requires StrictOrder(less)
    ensures forall i, j :: 0 <= i < j < |Listing(s, less)| ==> less(Listing(s, less)[i], Listing(s, less)[j])
    decreases |s|
  {
    if s != {} {
      var m := Least(s, less);
      ListingMembers(s - {m}, less);
      ListingSorted(s - {m}, less);
      var rest := Listing(s - {m}, less);
      forall i, j | 0 <= i < j < |[m] + rest| ensures less(([m] + rest)[i], ([m] + rest)[j]) {
        assert rest[j - 1] in rest;
      }
    }
  }

  /** A listing never repeats an element. */
  lemma ListingDistinct<T(!new)>(s: set<T>, less: (T, T) -> bool)
    requires StrictOrder(less)
    ensures forall i, j :: 0 <= i < j < |Listing(s, less)| ==> Listing(s, less)[i] != Listing(s, less)[j]
  {
    ListingSorted(s, less);
  }
}
