/** The meaning of a stable sort in descending order, shared by ranking and retrieval. */
module StableSort {

  /** `above` is a strict order in which incomparability is transitive, as comparing keys is. */
  ghost predicate StrictWeakOrder<T(!new)>(above: (T, T) -> bool) {
    && (forall x :: !above(x, x))
    && (forall x, y, z :: above(x, y) && above(y, z) ==> above(x, z))
    && (forall x, y, z :: above(x, z) ==> above(x, y) || above(y, z))
  }

  predicate Tied<T>(above: (T, T) -> bool, x: T, y: T) {
    !above(x, y) && !above(y, x)
  }

  /** Puts an element that came before all of `s` in front of everything it is not below. */
  function Insert<T>(above: (T, T) -> bool, x: T, s: seq<T>): seq<T> {
    if s == [] || !above(s[0], x) then [x] + s else [s[0]] + Insert(above, x, s[1..])
  }

  function Descending<T>(above: (T, T) -> bool, s: seq<T>): seq<T> {
    if s == [] then [] else Insert(above, s[0], Descending(above, s[1..]))
  }

  predicate Sorted<T>(above: (T, T) -> bool, s: seq<T>) {
    forall i, j :: 0 <= i < j < |s| ==> !above(s[j], s[i])
  }

  /** The elements tied with `x`, in order. */
  function TiedWith<T>(above: (T, T) -> bool, x: T, s: seq<T>): seq<T> {
    if s == [] then [] else (if Tied(above, x, s[0]) then [s[0]] else []) + TiedWith(above, x, s[1..])
  }

  lemma {:induction false} InsertMultiset<T>(above: (T, T) -> bool, x: T, s: seq<T>)
    ensures multiset(Insert(above, x, s)) == multiset{x} + multiset(s)
  {
    if s != [] && above(s[0], x) {
      InsertMultiset(above, x, s[1..]);
      assert s == [s[0]] + s[1..];
    }
  }

  lemma NotAbove<T(!new)>(above: (T, T) -> bool, z: T, y: T, x: T)
    requires StrictWeakOrder(above) && !above(z, y) && !above(y, x)
    ensures !above(z, x)
  {
  }

  lemma {:induction false} InsertSorted<T(!new)>(above: (T, T) -> bool, x: T, s: seq<T>)
    requires StrictWeakOrder(above) && Sorted(above, s)
    ensures Sorted(above, Insert(above, x, s))
  {
    if s != [] {
      if above(s[0], x) {
        var r := Insert(above, x, s[1..]);
        InsertSorted(above, x, s[1..]);
        InsertMultiset(above, x, s[1..]);
        forall y | y in r
          ensures !above(y, s[0])
        {
          assert y in multiset(r);
          if y != x {
            assert y in s[1..];
            var i :| 0 <= i < |s[1..]| && s[1..][i] == y;
            assert s[i + 1] == y;
          }
        }
      } else {
        forall j | 0 <= j < |s|
          ensures !above(s[j], x)
        {
          NotAbove(above, s[j], s[0], x);
        }
      }
    }
  }

  lemma TiedCons<T>(above: (T, T) -> bool, k: T, x: T, s: seq<T>)
    ensures TiedWith(above, k, [x] + s) == (if Tied(above, k, x) then [x] else []) + TiedWith(above, k, s)
  {
    assert ([x] + s)[1..] == s;
  }

  lemma NotBothTied<T(!new)>(above: (T, T) -> bool, k: T, x: T, y: T)
    requires StrictWeakOrder(above) && above(y, x)
    ensures !(Tied(above, k, x) && Tied(above, k, y))
  {
    assert above(y, k) || above(k, x);
  }

  lemma {:induction false} InsertTied<T(!new)>(above: (T, T) -> bool, k: T, x: T, s: seq<T>)
    requires StrictWeakOrder(above)
    ensures TiedWith(above, k, Insert(above, x, s)) == (if Tied(above, k, x) then [x] else []) + TiedWith(above, k, s)
  {
    hide Tied, TiedWith;
    if s == [] || !above(s[0], x) {
      TiedCons(above, k, x, s);
    } else {
      var r := Insert(above, x, s[1..]);
      assert s == [s[0]] + s[1..];
      InsertTied(above, k, x, s[1..]);
      TiedCons(above, k, s[0], r);
      TiedCons(above, k, s[0], s[1..]);
      NotBothTied(above, k, x, s[0]);
    }
  }

  /** A stable descending sort: a permutation, in descending order, with ties in their first order. */
  lemma {:induction false} DescendingIsStableSort<T(!new)>(above: (T, T) -> bool, s: seq<T>)
    requires StrictWeakOrder(above)
    ensures multiset(Descending(above, s)) == multiset(s)
    ensures |Descending(above, s)| == |s|
    ensures Sorted(above, Descending(above, s))
    ensures forall k :: TiedWith(above, k, Descending(above, s)) == TiedWith(above, k, s)
  {
    hide Insert, Tied, StrictWeakOrder;
    if s != [] {
      DescendingIsStableSort(above, s[1..]);
      InsertMultiset(above, s[0], Descending(above, s[1..]));
      InsertSorted(above, s[0], Descending(above, s[1..]));
      forall k
        ensures TiedWith(above, k, Descending(above, s)) == TiedWith(above, k, s)
      {
        InsertTied(above, k, s[0], Descending(above, s[1..]));
      }
      assert s == [s[0]] + s[1..];
    }
    assert |multiset(Descending(above, s))| == |multiset(s)|;
  }

  /** Two such sequences start with the same element. */
  lemma SameFirst<T(!new)>(above: (T, T) -> bool, a: seq<T>, b: seq<T>)
    requires StrictWeakOrder(above)
    requires Sorted(above, a) && Sorted(above, b) && multiset(a) == multiset(b)
    requires forall k :: TiedWith(above, k, a) == TiedWith(above, k, b)
    requires a != [] && b != []
    ensures a[0] == b[0]
  {
    var x, y := a[0], b[0];
    assert x in multiset(b) && y in multiset(a);
    var i :| 0 <= i < |b| && b[i] == x;
    var j :| 0 <= j < |a| && a[j] == y;
    assert Tied(above, x, x) && Tied(above, x, y);
    assert TiedWith(above, x, a)[0] == x && TiedWith(above, x, b)[0] == y;
  }

  /** Those properties leave no choice: any other such sequence is the same one. */
  lemma {:induction false} StableSortIsUnique<T(!new)>(above: (T, T) -> bool, a: seq<T>, b: seq<T>)
    requires StrictWeakOrder(above)
    requires Sorted(above, a) && Sorted(above, b) && multiset(a) == multiset(b)
    requires forall k :: TiedWith(above, k, a) == TiedWith(above, k, b)
    ensures a == b
  {
    hide Tied, TiedWith;
    assert |multiset(a)| == |a| && |multiset(b)| == |b|;
    if a != [] {
      SameFirst(above, a, b);
      var x := a[0];
      assert a == [x] + a[1..] && b == [x] + b[1..];
      assert multiset(a) == multiset{x} + multiset(a[1..]);
      assert multiset(b) == multiset{x} + multiset(b[1..]);
      forall k
        ensures TiedWith(above, k, a[1..]) == TiedWith(above, k, b[1..])
      {
        TiedCons(above, k, x, a[1..]);
        TiedCons(above, k, x, b[1..]);
        SamePrefix(if Tied(above, k, x) then [x] else [], TiedWith(above, k, a[1..]), TiedWith(above, k, b[1..]));
      }
      assert multiset(a[1..]) == multiset(b[1..]) by {
        assert multiset(a[1..]) == multiset(a) - multiset{x};
        assert multiset(b[1..]) == multiset(b) - multiset{x};
      }
      StableSortIsUnique(above, a[1..], b[1..]);
    }
  }

  lemma SamePrefix<T>(p: seq<T>, a: seq<T>, b: seq<T>)
    requires p + a == p + b
    ensures a == b
  {
    assert (p + a)[|p|..] == a && (p + b)[|p|..] == b;
  }
}
