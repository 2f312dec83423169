/** Reconciliation of relation claims that keeps every claim (domain/graph_reconciliation.py). */
module GraphReconciliation {
  import opened Prelude
  import opened Claims

  datatype Evidence = Evidence(origin: Origin, confidence: Confidence)

  datatype RelationClaim =
    RelationClaim(subjectKey: string, relation: string, objectKey: string, value: string, evidence: seq<Evidence>)

  type RelationKey = (string, string, string)

  function KeyOf(c: RelationClaim): RelationKey { (c.subjectKey, c.relation, c.objectKey) }

  datatype Reconciled = Reconciled(key: RelationKey, value: string, confidence: nat, claims: seq<RelationClaim>)

  // ----- a claim's standing --------------------------------------------------

  function MaxScore(evidence: seq<Evidence>): nat {
    if evidence == [] then 0
    else
      var rest, score := MaxScore(Front(evidence)), Score(Last(evidence).confidence);
      if score > rest then score else rest
  }

  function MinRank(evidence: seq<Evidence>): nat {
    if evidence == [] then 4
    else
      var rest, rank := MinRank(Front(evidence)), Rank(Last(evidence).origin);
      if rank < rest then rank else rest
  }

  function StandingOf(c: RelationClaim): Standing {
    Standing(MinRank(c.evidence), MaxScore(c.evidence))
  }

  method Judge(evidence: seq<Evidence>) returns (standing: Standing)
    ensures standing == Standing(MinRank(evidence), MaxScore(evidence))
  {
    var confidence, rank := 0, 4;
    for i := 0 to |evidence|
      invariant confidence == MaxScore(evidence[..i]) && rank == MinRank(evidence[..i])
    {
      assert Front(evidence[..i + 1]) == evidence[..i];
      if Score(evidence[i].confidence) > confidence {
        confidence := Score(evidence[i].confidence);
      }
      if Rank(evidence[i].origin) < rank {
        rank := Rank(evidence[i].origin);
      }
    }
    assert evidence[..|evidence|] == evidence;
    return Standing(rank, confidence);
  }

  /** Confidence is the largest score and rank the smallest among the evidence; without evidence the claim
      stands below every other, at zero confidence. */
  lemma {:induction false} StandingIsBestEvidence(evidence: seq<Evidence>)
    ensures forall e :: e in evidence ==>
      Score(e.confidence) <= MaxScore(evidence) && MinRank(evidence) <= Rank(e.origin)
    ensures evidence != [] ==>
      && (exists e :: e in evidence && Score(e.confidence) == MaxScore(evidence))
      && (exists e :: e in evidence && Rank(e.origin) == MinRank(evidence))
    ensures MinRank(evidence) == 4 <==> evidence == []
    ensures MaxScore(evidence) == 0 <==> evidence == []
  {
    if evidence != [] {
      StandingIsBestEvidence(Front(evidence));
      assert evidence == Front(evidence) + [Last(evidence)];
      if Front(evidence) != [] {
        var e :| e in Front(evidence) && Score(e.confidence) == MaxScore(Front(evidence));
        var f :| f in Front(evidence) && Rank(f.origin) == MinRank(Front(evidence));
        assert e in evidence && f in evidence;
      }
      assert Last(evidence) in evidence;
    }
  }

  predicate BestOrigin(a: seq<Evidence>, b: seq<Evidence>) {
    exists e :: e in a && forall f :: f in b ==> Outranks(Some(e.origin), Some(f.origin))
  }

  predicate BestConfidence(a: seq<Evidence>, b: seq<Evidence>) {
    exists e :: e in a && forall f :: f in b ==> Surer(e.confidence, f.confidence)
  }

  /** Evidence wins by an origin that outranks every origin of the other side; when neither side has one, by a
      confidence above every one of the other side. */
  predicate Wins(a: seq<Evidence>, b: seq<Evidence>) {
    BestOrigin(a, b) || (!BestOrigin(b, a) && BestConfidence(a, b))
  }

  lemma BetterIsWins(a: RelationClaim, b: RelationClaim)
    ensures Better(StandingOf(a), StandingOf(b)) <==> Wins(a.evidence, b.evidence)
  {
    RankIsBestOrigin(a.evidence, b.evidence);
    RankIsBestOrigin(b.evidence, a.evidence);
    ScoreIsBestConfidence(a.evidence, b.evidence);
    hide BestOrigin, BestConfidence, MinRank, MaxScore;
  }

  lemma RankIsBestOrigin(a: seq<Evidence>, b: seq<Evidence>)
    ensures MinRank(a) < MinRank(b) <==> BestOrigin(a, b)
  {
    hide MinRank, MaxScore, Rank, Score;
    StandingIsBestEvidence(a);
    StandingIsBestEvidence(b);
    forall e: Evidence, f: Evidence
      ensures (Rank(e.origin) < Rank(f.origin) <==> Outranks(Some(e.origin), Some(f.origin))) && Rank(e.origin) < 4
    {
      RanksAndScores(e.origin, f.origin, e.confidence, f.confidence);
    }
    hide Outranks;
    if MinRank(a) < MinRank(b) {
      var e :| e in a && Rank(e.origin) == MinRank(a);
    }
    if BestOrigin(a, b) && b != [] {
      var f :| f in b && Rank(f.origin) == MinRank(b);
    }
  }

  lemma ScoreIsBestConfidence(a: seq<Evidence>, b: seq<Evidence>)
    ensures MaxScore(a) > MaxScore(b) <==> BestConfidence(a, b)
  {
    hide MinRank, MaxScore, Rank, Score;
    StandingIsBestEvidence(a);
    StandingIsBestEvidence(b);
    forall e: Evidence, f: Evidence
      ensures (Score(e.confidence) > Score(f.confidence) <==> Surer(e.confidence, f.confidence))
        && Score(e.confidence) > 0
    {
      RanksAndScores(e.origin, f.origin, e.confidence, f.confidence);
    }
    hide Surer;
    if MaxScore(a) > MaxScore(b) {
      var e :| e in a && Score(e.confidence) == MaxScore(a);
    }
    if BestConfidence(a, b) && b != [] {
      var f :| f in b && Score(f.confidence) == MaxScore(b);
    }
  }

  predicate HasConfidence(evidence: seq<Evidence>, c: Confidence) {
    exists e :: e in evidence && e.confidence == c
  }

  /** The confidence that is shown, in percent: that of the surest evidence. */
  lemma {:induction false} ConfidenceShown(evidence: seq<Evidence>)
    ensures MaxScore(evidence) ==
      if HasConfidence(evidence, VERY_HIGH) then 95
      else if HasConfidence(evidence, HIGH) then 80
      else if HasConfidence(evidence, MEDIUM) then 50
      else if HasConfidence(evidence, LOW) then 30
      else if evidence != [] then 10 else 0
  {
    if evidence != [] {
      ConfidenceShown(Front(evidence));
      assert evidence == Front(evidence) + [Last(evidence)];
      forall c
        ensures HasConfidence(evidence, c) <==> HasConfidence(Front(evidence), c) || Last(evidence).confidence == c
      {
      }
      hide HasConfidence;
      if Front(evidence) == [] {
        assert MaxScore(Front(evidence)) == 0;
      }
    }
  }

  // ----- reconciliation ------------------------------------------------------

  ghost predicate IsView(claims: seq<RelationClaim>, k: RelationKey, view: Reconciled) {
    var winner := Strongest(StandingOf, Group(KeyOf, claims, k));
    && winner.Some?
    && view == Reconciled(k, winner.value.value, StandingOf(winner.value).score, Group(KeyOf, claims, k))
  }

  method Reconcile(claims: seq<RelationClaim>) returns (reconciled: seq<Reconciled>)
    ensures |reconciled| == |FirstSeen(KeyOf, claims)|
    ensures forall i :: 0 <= i < |reconciled| ==> IsView(claims, FirstSeen(KeyOf, claims)[i], reconciled[i])
  {
    hide Group, Strongest, Keys, FirstSeen;
    var order, grouped := GroupBy(KeyOf, claims);
    reconciled := [];
    for i := 0 to |order|
      invariant |reconciled| == i
      invariant forall j :: 0 <= j < i ==> IsView(claims, order[j], reconciled[j])
    {
      var group := grouped[order[i]];
      GroupExists(KeyOf, claims, order[i]);
      var winner := PickStrongest(group);
      var standing := Judge(winner.evidence);
      reconciled := reconciled + [Reconciled(KeyOf(winner), winner.value, standing.score, group)];
      StrongestIsMember(StandingOf, group);
    }
  }

  /** The first claim of a group with the smallest rank and, at that rank, the largest confidence. */
  method PickStrongest(group: seq<RelationClaim>) returns (winner: RelationClaim)
    requires group != []
    ensures Strongest(StandingOf, group) == Some(winner)
  {
    hide Strongest;
    winner := group[0];
    var best := Judge(winner.evidence);
    StrongestStep(StandingOf, [], winner);
    assert group[..1] == [] + [winner];
    for i := 1 to |group|
      invariant Strongest(StandingOf, group[..i]) == Some(winner) && best == StandingOf(winner)
    {
      var standing := Judge(group[i].evidence);
      StrongestStep(StandingOf, group[..i], group[i]);
      assert group[..i + 1] == group[..i] + [group[i]];
      if standing.rank < best.rank || (standing.rank == best.rank && standing.score > best.score) {
        winner, best := group[i], standing;
      }
    }
    assert group[..|group|] == group;
  }

  // ----- what is kept --------------------------------------------------------

  /** The claims of the views one after the other. */
  function Kept(views: seq<Reconciled>): seq<RelationClaim> {
    if views == [] then [] else Kept(Front(views)) + Last(views).claims
  }

  /** Every claim is kept in exactly one view, that of its own relation: none lost, none doubled. */
  lemma {:induction false} ViewsPartitionClaims(claims: seq<RelationClaim>, views: seq<Reconciled>)
    requires |views| == |FirstSeen(KeyOf, claims)|
    requires forall i :: 0 <= i < |views| ==> IsView(claims, FirstSeen(KeyOf, claims)[i], views[i])
    ensures multiset(Kept(views)) == multiset(claims)
    ensures forall v, c :: v in views && c in v.claims ==> KeyOf(c) == v.key
    ensures forall i, j :: 0 <= i < j < |views| ==> views[i].key != views[j].key
    ensures forall v :: v in views ==> v.claims != []
  {
    hide Group, Strongest, FirstSeen, Keys, StandingOf;
    FirstSeenIsDistinct(KeyOf, claims);
    forall c: RelationClaim
      ensures multiset(Kept(views))[c] == multiset(claims)[c]
    {
      KeptCounts(claims, FirstSeen(KeyOf, claims), views, c);
      GroupExists(KeyOf, claims, KeyOf(c));
      assert c in claims ==> c in Group(KeyOf, claims, KeyOf(c));
    }
    forall v | v in views
      ensures v.claims != [] && forall c :: c in v.claims ==> KeyOf(c) == v.key
    {
      GroupExists(KeyOf, claims, v.key);
    }
  }

  lemma {:induction false} KeptCounts(
      claims: seq<RelationClaim>, keys: seq<RelationKey>, views: seq<Reconciled>, c: RelationClaim)
    requires |views| == |keys| && forall i :: 0 <= i < |views| ==> IsView(claims, keys[i], views[i])
    requires forall i, j :: 0 <= i < j < |keys| ==> keys[i] != keys[j]
    ensures multiset(Kept(views))[c] == if KeyOf(c) in keys then multiset(claims)[c] else 0
  {
    hide Group, Strongest, KeyOf, StandingOf;
    if views != [] {
      KeptCounts(claims, Front(keys), Front(views), c);
      GroupCounts(KeyOf, claims, Last(keys), c);
      assert keys == Front(keys) + [Last(keys)];
    }
  }

  /** The claim whose value a view shows: no claim about the relation wins against it, and each earlier one loses to
      some claim. So a relation with declared evidence is never shown by an inferred claim. */
  lemma ViewByEvidence(claims: seq<RelationClaim>, k: RelationKey, view: Reconciled) returns (i: nat)
    requires IsView(claims, k, view)
    ensures i < |view.claims| && view.value == view.claims[i].value
    ensures view.confidence == MaxScore(view.claims[i].evidence)
    ensures forall c :: c in claims && (c.subjectKey, c.relation, c.objectKey) == view.key ==>
      c in view.claims && !Wins(c.evidence, view.claims[i].evidence)
    ensures forall j :: 0 <= j < i ==>
      exists c :: c in view.claims && Wins(c.evidence, view.claims[j].evidence)
  {
    hide Wins, Better, MinRank, MaxScore;
    var group := view.claims;
    StrongestIsLeftmostUnbeaten(StandingOf, group);
    GroupExists(KeyOf, claims, k);
    i :| LeftmostUnbeaten(StandingOf, group, i);
    forall a, b
      ensures Better(StandingOf(a), StandingOf(b)) <==> Wins(a.evidence, b.evidence)
    {
      BetterIsWins(a, b);
    }
    forall c | c in claims && (c.subjectKey, c.relation, c.objectKey) == view.key
      ensures c in group && !Wins(c.evidence, group[i].evidence)
    {
      assert c in group;
      var j :| 0 <= j < |group| && group[j] == c;
    }
    forall j | 0 <= j < i
      ensures exists c :: c in group && Wins(c.evidence, group[j].evidence)
    {
      assert Beaten(StandingOf, group, j);
      var m :| 0 <= m < |group| && Better(StandingOf(group[m]), StandingOf(group[j]));
      assert group[m] in group;
    }
  }

  /** A view shows the value of the leftmost claim about its relation that no other one beats, and any order of
      the same claims shows the same confidence. */
  lemma ViewShowsStrongest(claims: seq<RelationClaim>, k: RelationKey, view: Reconciled)
    requires IsView(claims, k, view)
    ensures exists i :: LeftmostUnbeaten(StandingOf, view.claims, i) && view.claims[i].value == view.value
    ensures
      forall other, otherView :: multiset(other) == multiset(claims) && IsView(other, k, otherView)
        ==> otherView.confidence == view.confidence && multiset(otherView.claims) == multiset(view.claims)
  {
    StrongestIsLeftmostUnbeaten(StandingOf, view.claims);
    forall other, otherView | multiset(other) == multiset(claims) && IsView(other, k, otherView)
      ensures otherView.confidence == view.confidence && multiset(otherView.claims) == multiset(view.claims)
    {
      forall c: RelationClaim
        ensures multiset(otherView.claims)[c] == multiset(view.claims)[c]
      {
        GroupCounts(KeyOf, claims, k, c);
        GroupCounts(KeyOf, other, k, c);
      }
      StandingIsOrderFree(StandingOf, view.claims, otherView.claims);
    }
  }
}
