/** Grouping claims by what they are about and picking the strongest, shared by both reconcilers. */
module Claims {
  import opened Prelude

  datatype Origin = Declared | Observed | Discovered | Inferred
  datatype Confidence = VERY_LOW | LOW | MEDIUM | HIGH | VERY_HIGH

  function Rank(o: Origin): nat {
    match o
    case Declared => 0
    case Observed => 1
    case Discovered => 2
    case Inferred => 3
  }

  /** In percent. */
  function Score(c: Confidence): nat {
    match c
    case VERY_LOW => 10
    case LOW => 30
    case MEDIUM => 50
    case HIGH => 80
    case VERY_HIGH => 95
  }

  /** What a claim is judged by: a lower rank wins, and at equal rank a higher score. */
  datatype Standing = Standing(rank: nat, score: nat)

  predicate Better(a: Standing, b: Standing) {
    a.rank < b.rank || (a.rank == b.rank && a.score > b.score)
  }

  /** Declared before observed before discovered before inferred; an origin that is none of these comes last. */
  predicate Outranks(a: Option<Origin>, b: Option<Origin>) {
    match a
    case Some(Declared) => b != Some(Declared)
    case Some(Observed) => b != Some(Declared) && b != Some(Observed)
    case Some(Discovered) => b == Some(Inferred) || b == None
    case Some(Inferred) => b == None
    case None => false
  }

  predicate Surer(a: Confidence, b: Confidence) {
    match a
    case VERY_HIGH => b != VERY_HIGH
    case HIGH => b != VERY_HIGH && b != HIGH
    case MEDIUM => b == LOW || b == VERY_LOW
    case LOW => b == VERY_LOW
    case VERY_LOW => false
  }

  lemma RanksAndScores(o: Origin, p: Origin, c: Confidence, d: Confidence)
    ensures Rank(o) < Rank(p) <==> Outranks(Some(o), Some(p))
    ensures Rank(o) < 4 && Outranks(Some(o), None)
    ensures Score(c) > Score(d) <==> Surer(c, d)
    ensures Score(c) > 0
  {
  }

  // ----- grouping ------------------------------------------------------------

  function Keys<T, K(==)>(key: T -> K, items: seq<T>): set<K> {
    set i | 0 <= i < |items| :: key(items[i])
  }

  lemma KeysConcat<T, K>(key: T -> K, a: seq<T>, b: seq<T>)
    ensures Keys(key, a + b) == Keys(key, a) + Keys(key, b)
  {
    forall k | k in Keys(key, a) + Keys(key, b)
      ensures k in Keys(key, a + b)
    {
      if k in Keys(key, a) {
        var i :| 0 <= i < |a| && key(a[i]) == k;
        assert (a + b)[i] == a[i];
      } else {
        var i :| 0 <= i < |b| && key(b[i]) == k;
        assert (a + b)[|a| + i] == b[i];
      }
    }
  }

  lemma KeysAppend<T, K>(key: T -> K, a: seq<T>, x: T)
    ensures Keys(key, a + [x]) == Keys(key, a) + {key(x)}
  {
    KeysConcat(key, a, [x]);
    assert key([x][0]) in Keys(key, [x]);
  }

  /** The items with a key, in order. */
  function Group<T, K(==)>(key: T -> K, items: seq<T>, k: K): seq<T> {
    if items == [] then []
    else Group(key, Front(items), k) + if key(Last(items)) == k then [Last(items)] else []
  }

  lemma {:induction false} GroupConcat<T, K>(key: T -> K, a: seq<T>, b: seq<T>, k: K)
    ensures Group(key, a + b, k) == Group(key, a, k) + Group(key, b, k)
  {
    if b == [] {
      assert a + b == a;
    } else {
      GroupConcat(key, a, Front(b), k);
      assert Front(a + b) == a + Front(b);
    }
  }

  lemma GroupAppend<T, K>(key: T -> K, items: seq<T>, x: T, k: K)
    ensures Group(key, items + [x], k) == if key(x) == k then Group(key, items, k) + [x] else Group(key, items, k)
  {
    assert Front(items + [x]) == items;
    assert Group(key, items, k) + [] == Group(key, items, k);
  }

  lemma {:induction false} GroupIsEmpty<T, K>(key: T -> K, items: seq<T>, k: K)
    requires forall i :: 0 <= i < |items| ==> key(items[i]) != k
    ensures Group(key, items, k) == []
  {
    if items != [] {
      GroupIsEmpty(key, Front(items), k);
    }
  }

  lemma {:induction false} GroupExists<T, K>(key: T -> K, items: seq<T>, k: K)
    ensures Group(key, items, k) != [] <==> k in Keys(key, items)
    ensures forall x :: x in Group(key, items, k) <==> x in items && key(x) == k
  {
    if items != [] {
      GroupExists(key, Front(items), k);
      KeysConcat(key, Front(items), [Last(items)]);
      assert items == Front(items) + [Last(items)];
    }
  }

  lemma {:induction false} GroupCounts<T, K>(key: T -> K, items: seq<T>, k: K, x: T)
    ensures multiset(Group(key, items, k))[x] == if key(x) == k then multiset(items)[x] else 0
  {
    if items != [] {
      GroupCounts(key, Front(items), k, x);
      assert items == Front(items) + [Last(items)];
    }
  }

  // ----- the dictionary of groups --------------------------------------------

  /** The distinct keys of the items in the order in which they first occur. */
  function FirstSeen<T, K(==)>(key: T -> K, items: seq<T>): seq<K> {
    if items == [] then []
    else
      var keys := FirstSeen(key, Front(items));
      if key(Last(items)) in keys then keys else keys + [key(Last(items))]
  }

  lemma {:induction false} FirstSeenIsDistinct<T, K(!new)>(key: T -> K, items: seq<T>)
    ensures forall k :: k in FirstSeen(key, items) <==> k in Keys(key, items)
    ensures forall i, j :: 0 <= i < j < |FirstSeen(key, items)| ==> FirstSeen(key, items)[i] != FirstSeen(key, items)[j]
  {
    if items != [] {
      FirstSeenIsDistinct(key, Front(items));
      KeysAppend(key, Front(items), Last(items));
      assert items == Front(items) + [Last(items)];
    }
  }

  /** A dictionary in insertion order: its keys as they were first seen, and each key's items in order. */
  ghost predicate Grouped<T, K(!new)>(key: T -> K, items: seq<T>, order: seq<K>, grouped: map<K, seq<T>>) {
    && order == FirstSeen(key, items)
    && (forall k :: k in order <==> k in grouped)
    && (forall k :: k in grouped ==> grouped[k] == Group(key, items, k))
    && (forall k :: k in grouped ==> grouped[k] != [])
    && (forall k :: k !in grouped ==> Group(key, items, k) == [])
  }

  lemma GroupedStep<T, K(!new)>(key: T -> K, items: seq<T>, order: seq<K>, grouped: map<K, seq<T>>, x: T)
    requires Grouped(key, items, order, grouped)
    ensures
      var k := key(x);
      && (k in order <==> k in grouped)
      && Grouped(key, items + [x], if k in order then order else order + [k],
           grouped[k := (if k in grouped then grouped[k] else []) + [x]])
  {
    assert Front(items + [x]) == items;
    forall k
      ensures Group(key, items + [x], k) == if key(x) == k then Group(key, items, k) + [x] else Group(key, items, k)
    {
      GroupAppend(key, items, x, k);
    }
  }

  method GroupBy<T, K(!new, ==)>(key: T -> K, items: seq<T>) returns (order: seq<K>, grouped: map<K, seq<T>>)
    ensures Grouped(key, items, order, grouped)
  {
    order, grouped := [], map[];
    for i := 0 to |items|
      invariant Grouped(key, items[..i], order, grouped)
    {
      var k := key(items[i]);
      assert items[..i + 1] == items[..i] + [items[i]];
      GroupedStep(key, items[..i], order, grouped, items[i]);
      if k !in grouped {
        order := order + [k];
        grouped := grouped[k := []];
      }
      grouped := grouped[k := grouped[k] + [items[i]]];
    }
    assert items[..|items|] == items;
  }

  // ----- the strongest of a group --------------------------------------------

  /** Reading from the left, a claim takes over only from one it beats. */
  function Strongest<T>(standing: T -> Standing, group: seq<T>): Option<T> {
    if group == [] then None
    else
      match Strongest(standing, Front(group))
      case None => Some(Last(group))
      case Some(best) => if Better(standing(Last(group)), standing(best)) then Some(Last(group)) else Some(best)
  }

  lemma StrongestStep<T>(standing: T -> Standing, group: seq<T>, x: T)
    ensures
      Strongest(standing, group + [x]) ==
        match Strongest(standing, group)
        case None => Some(x)
        case Some(best) => if Better(standing(x), standing(best)) then Some(x) else Some(best)
    ensures group != [] <==> Strongest(standing, group).Some?
  {
    assert Front(group + [x]) == group;
  }

  predicate Beaten<T>(standing: T -> Standing, group: seq<T>, i: int)
    requires 0 <= i < |group|
  {
    exists j :: 0 <= j < |group| && Better(standing(group[j]), standing(group[i]))
  }

  predicate LeftmostUnbeaten<T>(standing: T -> Standing, group: seq<T>, i: int) {
    && 0 <= i < |group|
    && !Beaten(standing, group, i)
    && forall j :: 0 <= j < i ==> Beaten(standing, group, j)
  }

  /** The strongest claim sits at the one position that is leftmost unbeaten. */
  lemma {:induction false} StrongestIsLeftmostUnbeaten<T>(standing: T -> Standing, group: seq<T>)
    ensures group != [] ==> exists i :: LeftmostUnbeaten(standing, group, i)
    ensures forall i :: LeftmostUnbeaten(standing, group, i) ==> Strongest(standing, group) == Some(group[i])
  {
    if group != [] {
      var front, last := Front(group), |group| - 1;
      StrongestIsLeftmostUnbeaten(standing, front);
      var p := last;
      if front != [] {
        var i :| LeftmostUnbeaten(standing, front, i);
        if Better(standing(group[last]), standing(front[i])) {
          LastTakesOver(standing, group, i);
        } else {
          FrontStays(standing, group, i);
          p := i;
        }
      }
      assert LeftmostUnbeaten(standing, group, p) && Strongest(standing, group) == Some(group[p]);
      forall i | LeftmostUnbeaten(standing, group, i)
        ensures i == p
      {
      }
    }
  }

  lemma LastTakesOver<T>(standing: T -> Standing, group: seq<T>, i: int)
    requires group != [] && LeftmostUnbeaten(standing, Front(group), i)
    requires Better(standing(Last(group)), standing(group[i]))
    ensures LeftmostUnbeaten(standing, group, |group| - 1)
  {
    forall j | 0 <= j < |group| - 1
      ensures Beaten(standing, group, j) && !Better(standing(group[j]), standing(Last(group)))
    {
      assert !Better(standing(Front(group)[j]), standing(Front(group)[i]));
    }
  }

  lemma FrontStays<T>(standing: T -> Standing, group: seq<T>, i: int)
    requires group != [] && LeftmostUnbeaten(standing, Front(group), i)
    requires !Better(standing(Last(group)), standing(group[i]))
    ensures LeftmostUnbeaten(standing, group, i)
  {
    forall j | 0 <= j < |group|
      ensures !Better(standing(group[j]), standing(group[i]))
    {
      assert j < |group| - 1 ==> !Better(standing(Front(group)[j]), standing(Front(group)[i]));
    }
    forall j | 0 <= j < i
      ensures Beaten(standing, group, j)
    {
      assert Beaten(standing, Front(group), j) && Front(group)[j] == group[j];
      var k :| 0 <= k < |Front(group)| && Better(standing(Front(group)[k]), standing(group[j]));
      assert Better(standing(group[k]), standing(group[j]));
    }
  }

  lemma StrongestIsMember<T>(standing: T -> Standing, group: seq<T>)
    ensures Strongest(standing, group).Some? <==> group != []
    ensures group != [] ==> Strongest(standing, group).value in group
    ensures group != [] ==> forall x :: x in group ==> !Better(standing(x), standing(Strongest(standing, group).value))
  {
    StrongestIsLeftmostUnbeaten(standing, group);
    if group != [] {
      var i :| LeftmostUnbeaten(standing, group, i);
      forall x | x in group
        ensures !Better(standing(x), standing(group[i]))
      {
        var j :| 0 <= j < |group| && group[j] == x;
      }
    }
  }

  /** The winner's rank and confidence do not depend on the order of the claims. */
  lemma StandingIsOrderFree<T>(standing: T -> Standing, a: seq<T>, b: seq<T>)
    requires a != [] && multiset(a) == multiset(b)
    ensures b != [] && Strongest(standing, a).Some? && Strongest(standing, b).Some?
    ensures standing(Strongest(standing, a).value) == standing(Strongest(standing, b).value)
  {
    assert a[0] in multiset(b);
    StrongestIsMember(standing, a);
    StrongestIsMember(standing, b);
    var x, y := Strongest(standing, a).value, Strongest(standing, b).value;
    assert x in multiset(b) && y in multiset(a);
  }

  ghost predicate WinsInSomeOrder<T(!new)>(standing: T -> Standing, group: seq<T>, c: T) {
    exists other :: multiset(other) == multiset(group) && Strongest(standing, other) == Some(c)
  }

  /** Claim order chooses the winner among exactly the claims that are tied with it. */
  lemma OrderChoosesAmongTied<T(!new)>(standing: T -> Standing, group: seq<T>, c: T)
    requires group != []
    ensures Strongest(standing, group).Some?
    ensures WinsInSomeOrder(standing, group, c)
      <==> c in group && standing(c) == standing(Strongest(standing, group).value)
  {
    StrongestIsMember(standing, group);
    if WinsInSomeOrder(standing, group, c) {
      var other :| multiset(other) == multiset(group) && Strongest(standing, other) == Some(c);
      StandingIsOrderFree(standing, group, other);
      StrongestIsMember(standing, other);
      assert c in multiset(other);
    }
    if c in group && standing(c) == standing(Strongest(standing, group).value) {
      var other := Promoted(standing, group, c);
    }
  }

  lemma Promoted<T>(standing: T -> Standing, group: seq<T>, c: T) returns (other: seq<T>)
    requires c in group && forall x :: x in group ==> !Better(standing(x), standing(c))
    ensures multiset(other) == multiset(group) && Strongest(standing, other) == Some(c)
  {
    var i :| 0 <= i < |group| && group[i] == c;
    other := [c] + group[..i] + group[i + 1..];
    assert group == group[..i] + [c] + group[i + 1..];
    forall j | 0 <= j < |other|
      ensures !Better(standing(other[j]), standing(c))
    {
      assert other[j] in multiset(group);
    }
    assert LeftmostUnbeaten(standing, other, 0);
    StrongestIsLeftmostUnbeaten(standing, other);
  }
}
