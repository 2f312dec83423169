/** Fusion of lexical, semantic and graph signals (hybrid_retrieval.py). */
module Retrieval {
  import opened Prelude
  import StableSort

  type EntityId = int

  datatype Source = Lexical | Semantic

  datatype Hit = Hit(entity: EntityId, source: Source, score: real)

  /** The score of a rank, highest for rank 0; any rounding that keeps the order will do. */
  type Norm = nat -> real

  ghost predicate Antitone(norm: Norm) {
    forall i: nat, j: nat :: i <= j ==> norm(i) >= norm(j)
  }

  /** The unrounded score. */
  function Reciprocal(rank: nat): real {
    1.0 / (1.0 + rank as real)
  }

  const GRAPH_BOOST := 0.1

  // ----- the scored dictionary, in insertion order ---------------------------

  function IndexOf(scored: seq<Hit>, e: EntityId): Option<nat> {
    if scored == [] then None
    else if scored[0].entity == e then Some(0)
    else
      match IndexOf(scored[1..], e)
      case None => None
      case Some(i) => Some(i + 1)
  }

  function Merge(scored: seq<Hit>, candidate: Hit): seq<Hit> {
    var i := IndexOf(scored, candidate.entity);
    if i.None? then scored + [candidate]
    else if i.value < |scored| && candidate.score > scored[i.value].score then scored[i.value := candidate]
    else scored
  }

  function MergeAll(norm: Norm, scored: seq<Hit>, records: seq<EntityId>, source: Source): seq<Hit> {
    if records == [] then scored
    else Merge(MergeAll(norm, scored, Front(records), source), Hit(Last(records), source, norm(|records| - 1)))
  }

  function Boosted(scored: seq<Hit>, graph: set<EntityId>): seq<Hit> {
    seq(|scored|, i requires 0 <= i < |scored| =>
      if scored[i].entity in graph then scored[i].(score := scored[i].score + GRAPH_BOOST) else scored[i])
  }

  predicate Above(a: Hit, b: Hit) {
    a.score > b.score
  }

  function Fused(norm: Norm, lexical: seq<EntityId>, semantic: seq<EntityId>, graph: Option<set<EntityId>>): seq<Hit> {
    var scored := MergeAll(norm, MergeAll(norm, [], lexical, Lexical), semantic, Semantic);
    if graph.Some? then Boosted(scored, graph.value) else scored
  }

  function Top(hits: seq<Hit>, limit: nat): seq<Hit> {
    if limit <= |hits| then hits[..limit] else hits
  }

  function Retrieved(
      norm: Norm, lexical: seq<EntityId>, semantic: seq<EntityId>, graph: Option<set<EntityId>>, limit: nat)
    : seq<Hit> {
    Top(StableSort.Descending(Above, Fused(norm, lexical, semantic, graph)), limit)
  }

  method MergeList(norm: Norm, given: seq<Hit>, records: seq<EntityId>, source: Source) returns (scored: seq<Hit>)
    ensures scored == MergeAll(norm, given, records, source)
  {
    scored := given;
    var rank := 0;
    while rank < |records|
      invariant rank <= |records|
      invariant scored == MergeAll(norm, given, records[..rank], source)
    {
      assert Front(records[..rank + 1]) == records[..rank];
      var candidate := Hit(records[rank], source, norm(rank));
      var existing := IndexOf(scored, candidate.entity);
      IndexOfFirst(scored, candidate.entity);
      if existing.None? {
        scored := scored + [candidate];
      } else if candidate.score > scored[existing.value].score {
        scored := scored[existing.value := candidate];
      }
      rank := rank + 1;
    }
    assert records[..rank] == records;
  }

  method Boost(given: seq<Hit>, graph: set<EntityId>) returns (scored: seq<Hit>)
    ensures scored == Boosted(given, graph)
  {
    scored := given;
    var i := 0;
    while i < |scored|
      invariant i <= |scored| == |given|
      invariant scored[..i] == Boosted(given, graph)[..i]
      invariant scored[i..] == given[i..]
    {
      assert scored[i] == given[i];
      if scored[i].entity in graph {
        scored := scored[i := scored[i].(score := scored[i].score + GRAPH_BOOST)];
      }
      i := i + 1;
    }
  }

  /** Fuses the two ranked lists; `graph` is present when the query names a project. */
  method Retrieve(norm: Norm, lexical: seq<EntityId>, semantic: seq<EntityId>, graph: Option<set<EntityId>>, limit: nat)
    returns (results: seq<Hit>)
    ensures results == Retrieved(norm, lexical, semantic, graph, limit)
  {
    var scored := MergeList(norm, [], lexical, Lexical);
    scored := MergeList(norm, scored, semantic, Semantic);
    if graph.Some? {
      scored := Boost(scored, graph.value);
    }
    results := Top(StableSort.Descending(Above, scored), limit);
  }

  // ----- the simple definition -----------------------------------------------

  function BestRank(records: seq<EntityId>, e: EntityId): nat
    requires e in records
  {
    if e in Front(records) then BestRank(Front(records), e) else |records| - 1
  }

  /** The hit an entity ends up with: its best rank over both lists, scored once; the semantic list
      is credited only when its rank scores strictly better. */
  function Expected(norm: Norm, lexical: seq<EntityId>, semantic: seq<EntityId>, e: EntityId): Hit
    requires e in lexical || e in semantic
  {
    if e !in lexical then Hit(e, Semantic, norm(BestRank(semantic, e)))
    else if e !in semantic then Hit(e, Lexical, norm(BestRank(lexical, e)))
    else if norm(BestRank(semantic, e)) > norm(BestRank(lexical, e)) then Hit(e, Semantic, norm(BestRank(semantic, e)))
    else Hit(e, Lexical, norm(BestRank(lexical, e)))
  }

  predicate OneEach(scored: seq<Hit>) {
    forall i, j :: 0 <= i < j < |scored| ==> scored[i].entity != scored[j].entity
  }

  function Lookup(scored: seq<Hit>, e: EntityId): Option<Hit> {
    var i := IndexOf(scored, e);
    if i.Some? && i.value < |scored| then Some(scored[i.value]) else None
  }

  lemma {:induction false} IndexOfFirst(scored: seq<Hit>, e: EntityId)
    ensures
      var i := IndexOf(scored, e);
      if i.Some? then i.value < |scored| && scored[i.value].entity == e
      else forall j :: 0 <= j < |scored| ==> scored[j].entity != e
  {
    if scored != [] && scored[0].entity != e {
      IndexOfFirst(scored[1..], e);
    }
  }

  lemma LookupIs(scored: seq<Hit>, e: EntityId, i: nat)
    requires OneEach(scored) && i < |scored| && scored[i].entity == e
    ensures Lookup(scored, e) == Some(scored[i])
  {
    IndexOfFirst(scored, e);
  }

  lemma MergeLookup(scored: seq<Hit>, c: Hit, e: EntityId)
    requires OneEach(scored)
    ensures OneEach(Merge(scored, c))
    ensures Lookup(Merge(scored, c), e) ==
      if e != c.entity then Lookup(scored, e)
      else if Lookup(scored, e).Some? && c.score <= Lookup(scored, e).value.score then Lookup(scored, e)
      else Some(c)
  {
    var merged := Merge(scored, c);
    IndexOfFirst(scored, c.entity);
    IndexOfFirst(scored, e);
    IndexOfFirst(merged, e);
    assert OneEach(merged);
    var i := IndexOf(scored, e);
    if i.Some? {
      LookupIs(merged, e, i.value);
    } else if e == c.entity {
      LookupIs(merged, e, |scored|);
    }
  }

  lemma {:induction false} BestRankBound(records: seq<EntityId>, e: EntityId)
    requires e in records
    ensures BestRank(records, e) < |records| && records[BestRank(records, e)] == e
    ensures forall i :: 0 <= i < BestRank(records, e) ==> records[i] != e
  {
    if e in Front(records) {
      BestRankBound(Front(records), e);
    }
  }

  lemma {:induction false} MergeAllLookup(
      norm: Norm, scored: seq<Hit>, records: seq<EntityId>, source: Source, e: EntityId)
    requires Antitone(norm) && OneEach(scored)
    ensures OneEach(MergeAll(norm, scored, records, source))
    ensures Lookup(MergeAll(norm, scored, records, source), e) ==
      if e !in records then Lookup(scored, e)
      else if Lookup(scored, e).Some? && norm(BestRank(records, e)) <= Lookup(scored, e).value.score
      then Lookup(scored, e)
      else Some(Hit(e, source, norm(BestRank(records, e))))
  {
    hide Lookup, OneEach, Merge;
    if records != [] {
      MergeAllLookup(norm, scored, Front(records), source, e);
      var c := Hit(Last(records), source, norm(|records| - 1));
      MergeLookup(MergeAll(norm, scored, Front(records), source), c, e);
      if e in Front(records) {
        BestRankBound(Front(records), e);
      }
    }
  }

  /** The fused score of an entity, a tenth higher, once, when the graph knows it. */
  function Scored(
      norm: Norm, lexical: seq<EntityId>, semantic: seq<EntityId>, graph: Option<set<EntityId>>, e: EntityId): Hit
    requires e in lexical || e in semantic
  {
    var h := Expected(norm, lexical, semantic, e);
    if graph.Some? && e in graph.value then h.(score := h.score + 0.1) else h
  }

  /** Each retrieved entity is there once, with exactly its simple score. */
  lemma FusedIsSimple(norm: Norm, lexical: seq<EntityId>, semantic: seq<EntityId>, graph: Option<set<EntityId>>)
    requires Antitone(norm)
    ensures
      var fused := Fused(norm, lexical, semantic, graph);
      && OneEach(fused)
      && (forall e :: e in lexical || e in semantic ==> Scored(norm, lexical, semantic, graph, e) in fused)
      && (forall h :: h in fused ==> (h.entity in lexical || h.entity in semantic)
                                     && h == Scored(norm, lexical, semantic, graph, h.entity))
  {
    hide MergeAll, BestRank;
    var first := MergeAll(norm, [], lexical, Lexical);
    var scored := MergeAll(norm, first, semantic, Semantic);
    var fused := Fused(norm, lexical, semantic, graph);
    forall e
      ensures OneEach(first) && OneEach(scored)
      ensures Lookup(scored, e)
        == if e in lexical || e in semantic then Some(Expected(norm, lexical, semantic, e)) else None
    {
      MergeAllLookup(norm, [], lexical, Lexical, e);
      MergeAllLookup(norm, first, semantic, Semantic, e);
    }
    MergeAllLookup(norm, [], lexical, Lexical, 0);
    MergeAllLookup(norm, first, semantic, Semantic, 0);
    forall e | e in lexical || e in semantic
      ensures Scored(norm, lexical, semantic, graph, e) in fused
    {
      assert Lookup(scored, e) == Some(Expected(norm, lexical, semantic, e));
      IndexOfFirst(scored, e);
      var i := IndexOf(scored, e).value;
      assert fused[i] == Scored(norm, lexical, semantic, graph, e);
    }
    forall h | h in fused
      ensures (h.entity in lexical || h.entity in semantic) && h == Scored(norm, lexical, semantic, graph, h.entity)
    {
      var i :| 0 <= i < |fused| && fused[i] == h;
      LookupIs(scored, scored[i].entity, i);
    }
  }

  /** The results: in descending order, at most `limit`, one per entity with its simple score, and every
      entity left out scores no higher than any returned one; none is left out while there is room. */
  lemma RetrievalIsTopScores(
      norm: Norm, lexical: seq<EntityId>, semantic: seq<EntityId>, graph: Option<set<EntityId>>, limit: nat)
    requires Antitone(norm)
    ensures
      var results := Retrieved(norm, lexical, semantic, graph, limit);
      && |results| <= limit
      && OneEach(results)
      && (forall i, j :: 0 <= i < j < |results| ==> results[i].score >= results[j].score)
      && (forall h :: h in results ==> (h.entity in lexical || h.entity in semantic)
                                       && h == Scored(norm, lexical, semantic, graph, h.entity))
      && (forall e :: (e in lexical || e in semantic) && Scored(norm, lexical, semantic, graph, e) !in results ==>
            && |results| == limit
            && forall h :: h in results ==> h.score >= Scored(norm, lexical, semantic, graph, e).score)
  {
    AboveIsOrder();
    hide Above, Fused, Scored, StableSort.Descending, StableSort.TiedWith,
      StableSort.Tied, StableSort.Sorted, StableSort.StrictWeakOrder;
    FusedIsSimple(norm, lexical, semantic, graph);
    var fused := Fused(norm, lexical, semantic, graph);
    StableSort.DescendingIsStableSort(Above, fused);
    var sorted := StableSort.Descending(Above, fused);
    SameElements(fused, sorted);
    var results := Retrieved(norm, lexical, semantic, graph, limit);
    assert forall h :: h in results ==> h in sorted;
    forall e | (e in lexical || e in semantic) && Scored(norm, lexical, semantic, graph, e) !in results
      ensures |results| == limit
      ensures forall h :: h in results ==> h.score >= Scored(norm, lexical, semantic, graph, e).score
    {
      var s := Scored(norm, lexical, semantic, graph, e);
      assert s in sorted;
      var j :| 0 <= j < |sorted| && sorted[j] == s;
      assert j >= |results| by {
        assert forall k :: 0 <= k < |results| ==> sorted[k] == results[k];
      }
    }
  }

  lemma AboveIsOrder()
    ensures StableSort.StrictWeakOrder(Above)
    ensures forall hits: seq<Hit> :: StableSort.Sorted(Above, hits) ==>
      forall i, j :: 0 <= i < j < |hits| ==> hits[i].score >= hits[j].score
  {
  }

  lemma SameElements(a: seq<Hit>, b: seq<Hit>)
    requires multiset(a) == multiset(b) && OneEach(a)
    ensures forall h :: h in a <==> h in b
    ensures OneEach(b)
  {
    assert forall h :: h in multiset(a) <==> h in a;
    assert forall h :: h in multiset(b) <==> h in b;
    forall i, j | 0 <= i < j < |b|
      ensures b[i].entity != b[j].entity
    {
      assert b[i] in a && b[j] in a;
      if b[i] == b[j] {
        Twice(b, i, j);
        Once(a, b[i]);
      }
    }
  }

  lemma Twice(b: seq<Hit>, i: nat, j: nat)
    requires i < j < |b| && b[i] == b[j]
    ensures multiset(b)[b[i]] >= 2
  {
    assert b == b[..j] + [b[j]] + b[j + 1..];
    assert b[..j][i] in multiset(b[..j]);
  }

  lemma {:induction false} Once(a: seq<Hit>, h: Hit)
    requires OneEach(a)
    ensures multiset(a)[h] <= 1
  {
    if a != [] {
      Once(a[1..], h);
      assert a == [a[0]] + a[1..];
      if a[0] == h {
        assert h !in a[1..];
      }
    }
  }

  /** Rounding to the nearest integer, ties to the even one. */
  function RoundHalfEven(x: real): int {
    var below := x.Floor;
    var rest := x - below as real;
    if rest < 0.5 || (rest == 0.5 && below % 2 == 0) then below else below + 1
  }

  /** The score of a rank as the code computes it: one over rank plus one, rounded to three decimals. */
  function Normalized(rank: nat): real {
    RoundHalfEven(1000.0 * Reciprocal(rank)) as real / 1000.0
  }

  lemma RoundingIsNearest(x: real)
    ensures
      var n := RoundHalfEven(x);
      -0.5 <= n as real - x <= 0.5 && (n as real - x == 0.5 || n as real - x == -0.5 ==> n % 2 == 0)
  {
    var below := x.Floor;
    assert below as real <= x < below as real + 1.0;
  }

  /** A rank scores one over the rank counted from one, to three decimals. */
  lemma NormalizedIsNear(rank: nat)
    ensures -0.0005 <= Normalized(rank) - 1.0 / (rank + 1) as real <= 0.0005
    ensures Normalized(0) == 1.0
  {
    RoundingIsNearest(1000.0 * Reciprocal(rank));
    RoundingIsNearest(1000.0 * Reciprocal(0));
    assert (rank + 1) as real == 1.0 + rank as real;
  }

  lemma RoundingKeepsOrder(x: real, y: real)
    requires x <= y
    ensures RoundHalfEven(x) <= RoundHalfEven(y)
  {
    assert x.Floor <= y.Floor;
  }

  lemma ReciprocalIsAntitone()
    ensures Antitone(Reciprocal)
  {
    forall i: nat, j: nat | i <= j
      ensures Reciprocal(i) >= Reciprocal(j)
    {
      var a, b := 1.0 + i as real, 1.0 + j as real;
      assert 1.0 / a - 1.0 / b == (b - a) / (a * b);
    }
  }

  /** The code's rank score satisfies the one demand made of the normalisation: a later rank never scores more. */
  lemma NormalizedIsAntitone()
    ensures Antitone(Normalized)
  {
    ReciprocalIsAntitone();
    forall i: nat, j: nat | i <= j
      ensures Normalized(i) >= Normalized(j)
    {
      RoundingKeepsOrder(1000.0 * Reciprocal(j), 1000.0 * Reciprocal(i));
    }
  }
}
