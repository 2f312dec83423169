/** What a context capsule guarantees: order, exact totals, budgets and bounded overshoot. */
module ContextProperties {
  import opened Prelude
  import opened ContextBudget
  import StableSort

  function Tokens(cs: seq<Candidate>): int {
    if cs == [] then 0 else Tokens(Front(cs)) + Last(cs).tokenEstimate
  }

  function TokensIn(cs: seq<Candidate>, category: Category): int {
    if cs == [] then 0
    else TokensIn(Front(cs), category) + if Last(cs).category == category then Last(cs).tokenEstimate else 0
  }

  function LastIn(cs: seq<Candidate>, category: Category): Option<Candidate> {
    if cs == [] then None else if Last(cs).category == category then Some(Last(cs)) else LastIn(Front(cs), category)
  }

  function Used(allocations: seq<Allocation>): int {
    if allocations == [] then 0 else allocations[0].used + Used(allocations[1..])
  }

  function Granted(allocations: seq<Allocation>): int {
    if allocations == [] then 0 else Granted(Front(allocations)) + Last(allocations).granted
  }

  predicate Subsequence<T(==)>(a: seq<T>, b: seq<T>) {
    if a == [] then true
    else if b == [] then false
    else (a[0] == b[0] && Subsequence(a[1..], b[1..])) || Subsequence(a, b[1..])
  }

  function EstimatedAll(estimate: Estimator, cs: seq<Candidate>): seq<Candidate> {
    seq(|cs|, i requires 0 <= i < |cs| => Estimated(estimate, cs[i]))
  }

  predicate OnePerCategory(allocations: seq<Allocation>) {
    forall i, j :: 0 <= i < j < |allocations| ==> allocations[i].category != allocations[j].category
  }

  /** The category's use is what its included candidates take, and the last of them was admitted with room left. */
  predicate Charged(a: Allocation, included: seq<Candidate>) {
    && a.used == TokensIn(included, a.category)
    && (LastIn(included, a.category).Some? ==> a.used - LastIn(included, a.category).value.tokenEstimate < a.granted)
  }

  predicate Sound(estimate: Estimator, budget: int, p: Packing) {
    && p.total == Tokens(p.included)
    && (p.included != [] ==> p.total <= budget)
    && OnePerCategory(p.allocations)
    && (forall a :: a in p.allocations ==> Charged(a, p.included))
    && (forall c :: c in p.included ==> c.tokenEstimate == estimate(c.content))
  }

  lemma {:induction false} UsedAfterCharge(allocations: seq<Allocation>, category: Category, tokens: int)
    ensures Used(Charge(allocations, category, tokens))
      == Used(allocations) + if Find(allocations, category).Some? then tokens else 0
    ensures |Charge(allocations, category, tokens)| == |allocations|
    ensures forall i :: 0 <= i < |allocations| ==>
      && Charge(allocations, category, tokens)[i].category == allocations[i].category
      && Charge(allocations, category, tokens)[i].granted == allocations[i].granted
  {
    FindFirst(allocations, category);
    if allocations != [] && allocations[0].category != category {
      UsedAfterCharge(allocations[1..], category, tokens);
      assert Charge(allocations, category, tokens) == [allocations[0]] + Charge(allocations[1..], category, tokens);
    }
  }

  lemma AdmitKeepsSound(estimate: Estimator, budget: int, p: Packing, c: Candidate)
    requires Sound(estimate, budget, p)
    requires !Spent(p.allocations, c.category) && p.total + estimate(c.content) <= budget
    ensures Sound(estimate, budget, Packing(p.included + [Estimated(estimate, c)], p.total + estimate(c.content),
                                      Charge(p.allocations, c.category, estimate(c.content))))
  {
    var e := Estimated(estimate, c);
    var included := p.included + [e];
    var charged := Charge(p.allocations, c.category, estimate(c.content));
    assert Front(included) == p.included && Last(included) == e;
    FindFirst(p.allocations, c.category);
    UsedAfterCharge(p.allocations, c.category, estimate(c.content));
    forall i | 0 <= i < |charged|
      ensures Charged(charged[i], included)
    {
      assert Charged(p.allocations[i], p.included);
    }
  }

  lemma {:induction false} PackKeepsSound(estimate: Estimator, budget: int, ranked: seq<Candidate>, p: Packing)
    requires Sound(estimate, budget, p)
    ensures
      var r := Pack(estimate, budget, ranked, p);
      && Sound(estimate, budget, r)
      && |r.allocations| == |p.allocations|
      && (forall i :: 0 <= i < |p.allocations| ==>
            r.allocations[i].category == p.allocations[i].category
            && r.allocations[i].granted == p.allocations[i].granted)
  {
    hide Sound, Spent, Charge;
    if ranked != [] {
      var c := ranked[0];
      if Spent(p.allocations, c.category) {
        PackKeepsSound(estimate, budget, ranked[1..], p);
      } else if p.total + estimate(c.content) <= budget {
        AdmitKeepsSound(estimate, budget, p, c);
        UsedAfterCharge(p.allocations, c.category, estimate(c.content));
        PackKeepsSound(estimate, budget, ranked[1..],
          Packing(p.included + [Estimated(estimate, c)], p.total + estimate(c.content),
            Charge(p.allocations, c.category, estimate(c.content))));
      }
    }
  }

  /** The total is also the sum of what the categories used, when every candidate has a category allocation. */
  lemma {:induction false} PackKeepsTotal(estimate: Estimator, budget: int, ranked: seq<Candidate>, p: Packing)
    requires p.total == Used(p.allocations)
    requires forall c :: c in ranked ==> exists a :: a in p.allocations && a.category == c.category
    ensures
      var r := Pack(estimate, budget, ranked, p);
      r.total == Used(r.allocations)
  {
    hide Spent, Charge, Used, Estimated;
    if ranked != [] {
      var c := ranked[0];
      assert forall x :: x in ranked[1..] ==> x in ranked;
      if Spent(p.allocations, c.category) {
        PackKeepsTotal(estimate, budget, ranked[1..], p);
      } else if p.total + estimate(c.content) <= budget {
        var charged := Charge(p.allocations, c.category, estimate(c.content));
        UsedAfterCharge(p.allocations, c.category, estimate(c.content));
        FindFirst(p.allocations, c.category);
        forall x | x in ranked[1..]
          ensures exists a :: a in charged && a.category == x.category
        {
          var a :| a in p.allocations && a.category == x.category;
          var i :| 0 <= i < |p.allocations| && p.allocations[i] == a;
          assert charged[i] in charged;
        }
        PackKeepsTotal(estimate, budget, ranked[1..],
          Packing(p.included + [Estimated(estimate, c)], p.total + estimate(c.content), charged));
      }
    }
  }

  /** What packing adds is a subsequence of the candidates still to come. */
  lemma {:induction false} PackTakesSubsequence(estimate: Estimator, budget: int, ranked: seq<Candidate>, p: Packing)
    ensures
      var r := Pack(estimate, budget, ranked, p);
      && p.included <= r.included
      && Subsequence(r.included[|p.included|..], EstimatedAll(estimate, ranked))
  {
    hide Spent, Charge;
    var r := Pack(estimate, budget, ranked, p);
    var all := EstimatedAll(estimate, ranked);
    if ranked != [] {
      var c := ranked[0];
      assert all[1..] == EstimatedAll(estimate, ranked[1..]);
      if Spent(p.allocations, c.category) {
        PackTakesSubsequence(estimate, budget, ranked[1..], p);
      } else if p.total + estimate(c.content) <= budget {
        var q := Packing(p.included + [Estimated(estimate, c)], p.total + estimate(c.content),
          Charge(p.allocations, c.category, estimate(c.content)));
        PackTakesSubsequence(estimate, budget, ranked[1..], q);
        var taken := r.included[|p.included|..];
        assert taken[0] == r.included[|p.included|] == q.included[|p.included|] == Estimated(estimate, c);
        assert taken[1..] == r.included[|q.included|..];
      }
    }
  }

  // ----- the greedy rule -----------------------------------------------------

  lemma SpentStays(allocations: seq<Allocation>, category: Category, other: Category, tokens: nat)
    requires Spent(allocations, category) && !Spent(allocations, other)
    ensures Spent(Charge(allocations, other, tokens), category)
  {
    FindFirst(allocations, category);
    FindFirst(allocations, other);
    var charged := Charge(allocations, other, tokens);
    UsedAfterCharge(allocations, other, tokens);
    FindFirst(charged, category);
    var i := Find(allocations, category).value;
    assert charged[i] == allocations[i];
  }

  lemma {:induction false} SpentPersists(
      estimate: Estimator, budget: int, ranked: seq<Candidate>, p: Packing, category: Category)
    requires Spent(p.allocations, category)
    ensures Spent(Pack(estimate, budget, ranked, p).allocations, category)
  {
    hide Spent, Charge;
    if ranked != [] {
      var c := ranked[0];
      if Spent(p.allocations, c.category) {
        SpentPersists(estimate, budget, ranked[1..], p, category);
      } else if p.total + estimate(c.content) <= budget {
        SpentStays(p.allocations, category, c.category, estimate(c.content));
        SpentPersists(estimate, budget, ranked[1..],
          Packing(p.included + [Estimated(estimate, c)], p.total + estimate(c.content),
            Charge(p.allocations, c.category, estimate(c.content))), category);
      }
    }
  }

  /** Of the first `n` candidates, those whose category is not spent when their turn comes. */
  function Offered(estimate: Estimator, budget: int, ranked: seq<Candidate>, p: Packing, n: nat): seq<Candidate>
    requires n <= |ranked|
  {
    if n == 0 then []
    else
      var c, before := ranked[n - 1], Pack(estimate, budget, ranked[..n - 1], p);
      Offered(estimate, budget, ranked, p, n - 1)
      + if Spent(before.allocations, c.category) then [] else [Estimated(estimate, c)]
  }

  /** The packing once the first candidate has been passed over or taken. */
  function AfterFirst(estimate: Estimator, ranked: seq<Candidate>, p: Packing): Packing
    requires ranked != []
  {
    var c := ranked[0];
    if Spent(p.allocations, c.category) then p
    else
      Packing(p.included + [Estimated(estimate, c)], p.total + estimate(c.content),
        Charge(p.allocations, c.category, estimate(c.content)))
  }

  /** Exactly what packing takes: it goes through the candidates up to a point `n`, and before it takes each one, and
      only those, whose category is not spent when its turn comes; a spent category stays spent.
      The candidate at `n`, if there is one, has room in its category and overflows the model budget. */
  lemma {:induction false} PackIsGreedy(estimate: Estimator, budget: int, ranked: seq<Candidate>, p: Packing)
    returns (n: nat)
    ensures n <= |ranked|
    ensures
      var r := Pack(estimate, budget, ranked, p);
      && r.included == p.included + Offered(estimate, budget, ranked, p, n)
      && (n < |ranked| ==> !Spent(r.allocations, ranked[n].category) && r.total + estimate(ranked[n].content) > budget)
  {
    hide Spent, Charge;
    assert p.included + [] == p.included;
    if ranked == [] {
      return 0;
    }
    var c := ranked[0];
    var spent := Spent(p.allocations, c.category);
    if !spent && p.total + estimate(c.content) > budget {
      return 0;
    }
    var q := AfterFirst(estimate, ranked, p);
    var k := PackIsGreedy(estimate, budget, ranked[1..], q);
    n := k + 1;
    OfferedShift(estimate, budget, ranked, p, k);
    var first, later := if spent then [] else [Estimated(estimate, c)], Offered(estimate, budget, ranked[1..], q, k);
    assert (p.included + first) + later == p.included + (first + later);
  }

  /** So what packing leaves out before that point has its category spent in the end. */
  lemma {:induction false} LeftOutIsSpent(
      estimate: Estimator, budget: int, ranked: seq<Candidate>, p: Packing, n: nat, i: nat)
    requires i < n <= |ranked|
    ensures Estimated(estimate, ranked[i]) in Offered(estimate, budget, ranked, p, n)
      || Spent(Pack(estimate, budget, ranked, p).allocations, ranked[i].category)
  {
    hide Spent, Charge, Estimated;
    if i < n - 1 {
      LeftOutIsSpent(estimate, budget, ranked, p, n - 1, i);
    } else if Spent(Pack(estimate, budget, ranked[..i], p).allocations, ranked[i].category) {
      SpentAtTurnStaysSpent(estimate, budget, ranked, p, i, ranked[i].category);
    }
  }

  lemma {:induction false} SpentAtTurnStaysSpent(
      estimate: Estimator, budget: int, ranked: seq<Candidate>, p: Packing, i: nat, category: Category)
    requires i <= |ranked|
    requires Spent(Pack(estimate, budget, ranked[..i], p).allocations, category)
    ensures Spent(Pack(estimate, budget, ranked, p).allocations, category)
  {
    hide Spent, Charge;
    if i == 0 {
      assert ranked[..0] == [];
      SpentPersists(estimate, budget, ranked, p, category);
    } else if Spent(p.allocations, ranked[0].category) || p.total + estimate(ranked[0].content) <= budget {
      assert ranked[..i][1..] == ranked[1..][..i - 1] && ranked[..i][0] == ranked[0];
      SpentAtTurnStaysSpent(estimate, budget, ranked[1..], AfterFirst(estimate, ranked, p), i - 1, category);
    }
  }

  lemma {:induction false} OfferedShift(estimate: Estimator, budget: int, ranked: seq<Candidate>, p: Packing, n: nat)
    requires n < |ranked|
    requires Spent(p.allocations, ranked[0].category) || p.total + estimate(ranked[0].content) <= budget
    ensures Offered(estimate, budget, ranked, p, n + 1)
      == (if Spent(p.allocations, ranked[0].category) then [] else [Estimated(estimate, ranked[0])])
         + Offered(estimate, budget, ranked[1..], AfterFirst(estimate, ranked, p), n)
  {
    hide Spent, Charge;
    assert ranked[..0] == [];
    if n > 0 {
      OfferedShift(estimate, budget, ranked, p, n - 1);
      assert ranked[..n][1..] == ranked[1..][..n - 1] && ranked[..n][0] == ranked[0];
      assert Pack(estimate, budget, ranked[..n], p)
        == Pack(estimate, budget, ranked[1..][..n - 1], AfterFirst(estimate, ranked, p));
    }
  }

  // ----- allocations ---------------------------------------------------------

  function PresentShare(total: int, candidates: seq<Candidate>, w: Weight): int {
    if Present(candidates, w.category) then Share(total, w.percent) else 0
  }

  lemma GrantStep(total: int, candidates: seq<Candidate>, n: nat)
    requires n < |WEIGHTS|
    ensures Granted(AllocateFor(total, candidates, WEIGHTS[..n + 1]))
      == Granted(AllocateFor(total, candidates, WEIGHTS[..n])) + PresentShare(total, candidates, WEIGHTS[n])
  {
    hide Present, Share;
    var before := AllocateFor(total, candidates, WEIGHTS[..n]);
    assert Front(WEIGHTS[..n + 1]) == WEIGHTS[..n];
    assert Front(before + [Allocation(WEIGHTS[n].category, Share(total, WEIGHTS[n].percent), 0)]) == before;
    assert before + [] == before;
  }

  lemma GrantedIsSum(total: int, candidates: seq<Candidate>)
    ensures Granted(Allocate(total, candidates)) ==
      PresentShare(total, candidates, WEIGHTS[0]) + PresentShare(total, candidates, WEIGHTS[1])
      + PresentShare(total, candidates, WEIGHTS[2]) + PresentShare(total, candidates, WEIGHTS[3])
      + PresentShare(total, candidates, WEIGHTS[4]) + PresentShare(total, candidates, WEIGHTS[5])
      + PresentShare(total, candidates, WEIGHTS[6])
  {
    hide PresentShare, AllocateFor, Granted;
    GrantStep(total, candidates, 0);
    GrantStep(total, candidates, 1);
    GrantStep(total, candidates, 2);
    GrantStep(total, candidates, 3);
    GrantStep(total, candidates, 4);
    GrantStep(total, candidates, 5);
    GrantStep(total, candidates, 6);
    assert WEIGHTS[..7] == WEIGHTS;
    NothingGranted(total, candidates);
  }

  lemma NothingGranted(total: int, candidates: seq<Candidate>)
    ensures Granted(AllocateFor(total, candidates, WEIGHTS[..0])) == 0
  {
  }

  predicate AllPresent(candidates: seq<Candidate>) {
    forall i :: 0 <= i < |WEIGHTS| ==> Present(candidates, WEIGHTS[i].category)
  }

  lemma ShareBounds(total: int, candidates: seq<Candidate>, w: Weight)
    requires w in WEIGHTS
    ensures var x := PresentShare(total, candidates, w);
      && (total >= 0 ==> 100 * x <= total * w.percent)
      && (total < 0 ==> total * w.percent <= 100 * x <= 0)
      && (total < 0 && !Present(candidates, w.category) ==> total * w.percent < 100 * x)
  {
    hide Present;
  }

  lemma AllPresentUnfolds(candidates: seq<Candidate>)
    ensures AllPresent(candidates) <==>
      && Present(candidates, Task) && Present(candidates, Requirements) && Present(candidates, Architecture)
      && Present(candidates, SourceCode) && Present(candidates, Tests) && Present(candidates, History)
      && Present(candidates, Instructions)
  {
    hide Present;
    assert WEIGHTS[0].category == Task && WEIGHTS[1].category == Requirements && WEIGHTS[2].category == Architecture;
    assert WEIGHTS[3].category == SourceCode && WEIGHTS[4].category == Tests && WEIGHTS[5].category == History;
    assert WEIGHTS[6].category == Instructions;
  }

  /** The allocations stay within the preferred budget exactly when it is not negative, or else when truncation
      loses nothing: every category present and the budget a multiple of 20. */
  lemma AllocationsWithinBudgetIff(total: int, candidates: seq<Candidate>)
    ensures Granted(Allocate(total, candidates)) <= total
      <==> total >= 0 || (AllPresent(candidates) && total % 20 == 0)
  {
    hide Present, Granted, Allocate, AllPresent, PresentShare, Share;
    if total < 0 && AllPresent(candidates) {
      FullShares(total, candidates);
      SharesOfNegative(-total, -Share(total, 15), -Share(total, 30), -Share(total, 10), -Share(total, 5),
        -total / 20, -total % 20);
    } else {
      PartialShares(total, candidates);
    }
    assert total % 20 == 0 <==> -total % 20 == 0;
  }

  lemma PartialShares(total: int, candidates: seq<Candidate>)
    ensures total >= 0 ==> Granted(Allocate(total, candidates)) <= total
    ensures total < 0 && !AllPresent(candidates) ==> Granted(Allocate(total, candidates)) > total
  {
    hide Present, Granted, Allocate, AllPresent, PresentShare;
    GrantedIsSum(total, candidates);
    AllPresentUnfolds(candidates);
    ShareBounds(total, candidates, WEIGHTS[0]);
    ShareBounds(total, candidates, WEIGHTS[1]);
    ShareBounds(total, candidates, WEIGHTS[2]);
    ShareBounds(total, candidates, WEIGHTS[3]);
    ShareBounds(total, candidates, WEIGHTS[4]);
    ShareBounds(total, candidates, WEIGHTS[5]);
    ShareBounds(total, candidates, WEIGHTS[6]);
  }

  lemma FullShares(total: int, candidates: seq<Candidate>)
    requires total < 0 && AllPresent(candidates)
    ensures Granted(Allocate(total, candidates))
      == Share(total, 15) * 3 + Share(total, 30) + Share(total, 10) * 2 + Share(total, 5)
    ensures -100 * Share(total, 15) <= -15 * total < -100 * Share(total, 15) + 100
    ensures -100 * Share(total, 30) <= -30 * total < -100 * Share(total, 30) + 100
    ensures -100 * Share(total, 10) <= -10 * total < -100 * Share(total, 10) + 100
    ensures -100 * Share(total, 5) <= -5 * total < -100 * Share(total, 5) + 100
  {
    hide Present, Granted, Allocate;
    GrantedIsSum(total, candidates);
  }

  /** Truncated shares of 15, 30, 10 and 5 percent, as integers between bounds. */
  lemma SharesOfNegative(n: int, a: int, b: int, c: int, d: int, q: int, r: int)
    requires n == 20 * q + r && 0 <= r < 20
    requires 100 * a <= 15 * n < 100 * a + 100
    requires 100 * b <= 30 * n < 100 * b + 100
    requires 100 * c <= 10 * n < 100 * c + 100
    requires 100 * d <= 5 * n < 100 * d + 100
    ensures 3 * a + b + 2 * c + d <= n
    ensures 3 * a + b + 2 * c + d == n <==> r == 0
  {
    var x, y, z, w := 15 * n - 100 * a, 30 * n - 100 * b, 10 * n - 100 * c, 5 * n - 100 * d;
    assert 100 * (n - (3 * a + b + 2 * c + d)) == 3 * x + y + 2 * z + w;
    if r == 0 {
      assert a == 3 * q && b == 6 * q && c == 2 * q && d == q;
    } else {
      assert w != 0 by {
        assert w == 0 ==> 20 * (d - q) == r;
      }
    }
  }

  predicate FreshAllocations(allocations: seq<Allocation>, n: nat)
    requires n <= |WEIGHTS|
  {
    && OnePerCategory(allocations)
    && Used(allocations) == 0
    && forall a :: a in allocations ==> a.used == 0 && exists i :: 0 <= i < n && WEIGHTS[i].category == a.category
  }

  lemma AllocateStep(total: int, candidates: seq<Candidate>, n: nat)
    requires n < |WEIGHTS|
    ensures AllocateFor(total, candidates, WEIGHTS[..n + 1]) == AllocateFor(total, candidates, WEIGHTS[..n])
      + if Present(candidates, WEIGHTS[n].category)
        then [Allocation(WEIGHTS[n].category, Share(total, WEIGHTS[n].percent), 0)] else []
  {
    assert Front(WEIGHTS[..n + 1]) == WEIGHTS[..n];
  }

  lemma {:induction false} AllocationsFresh(total: int, candidates: seq<Candidate>, n: nat)
    requires n <= |WEIGHTS|
    ensures FreshAllocations(AllocateFor(total, candidates, WEIGHTS[..n]), n)
  {
    if n > 0 {
      AllocationsFresh(total, candidates, n - 1);
      AllocateStep(total, candidates, n - 1);
      FreshStep(AllocateFor(total, candidates, WEIGHTS[..n - 1]), n - 1, Share(total, WEIGHTS[n - 1].percent));
      hide AllocateFor, Present, Share, FreshAllocations;
      var before := AllocateFor(total, candidates, WEIGHTS[..n - 1]);
      assert before + [] == before;
    }
  }

  lemma FreshStep(before: seq<Allocation>, n: nat, share: int)
    requires n < |WEIGHTS| && FreshAllocations(before, n)
    ensures FreshAllocations(before, n + 1)
    ensures FreshAllocations(before + [Allocation(WEIGHTS[n].category, share, 0)], n + 1)
  {
    var added := Allocation(WEIGHTS[n].category, share, 0);
    UsedAppend(before, added);
    DistinctWeights(n);
    forall a | a in before
      ensures a.category != added.category
    {
    }
  }

  lemma DistinctWeights(n: nat)
    requires n < |WEIGHTS|
    ensures forall i :: 0 <= i < n ==> WEIGHTS[i].category != WEIGHTS[n].category
  {
  }

  lemma {:induction false} AllocationsCover(total: int, candidates: seq<Candidate>, n: nat, i: nat)
    requires i < n <= |WEIGHTS| && Present(candidates, WEIGHTS[i].category)
    ensures exists a :: a in AllocateFor(total, candidates, WEIGHTS[..n]) && a.category == WEIGHTS[i].category
  {
    hide Present, Share;
    assert Front(WEIGHTS[..n]) == WEIGHTS[..n - 1];
    var before := AllocateFor(total, candidates, WEIGHTS[..n - 1]);
    var added := Allocation(WEIGHTS[n - 1].category, Share(total, WEIGHTS[n - 1].percent), 0);
    if i < n - 1 {
      AllocationsCover(total, candidates, n - 1, i);
      var a :| a in before && a.category == WEIGHTS[i].category;
      assert a in AllocateFor(total, candidates, WEIGHTS[..n]);
    } else {
      assert added in before + [added];
    }
  }

  lemma EveryCategoryWeighted(category: Category)
    ensures exists i :: 0 <= i < |WEIGHTS| && WEIGHTS[i].category == category
  {
    assert WEIGHTS[0].category == Task && WEIGHTS[1].category == Requirements && WEIGHTS[2].category == Architecture;
    assert WEIGHTS[3].category == SourceCode && WEIGHTS[4].category == Tests && WEIGHTS[5].category == History;
    assert WEIGHTS[6].category == Instructions;
  }

  lemma {:induction false} UsedAppend(allocations: seq<Allocation>, a: Allocation)
    ensures Used(allocations + [a]) == Used(allocations) + a.used
  {
    if allocations != [] {
      UsedAppend(allocations[1..], a);
      assert (allocations + [a])[1..] == allocations[1..] + [a];
    }
  }

  // ----- the shares ----------------------------------------------------------

  function Percent(category: Category): nat {
    match category
    case Task => 15
    case Requirements => 15
    case Architecture => 15
    case SourceCode => 30
    case Tests => 10
    case History => 5
    case Instructions => 10
  }

  /** The share is the exact one with its fraction of a token dropped, toward zero. */
  predicate Truncates(granted: int, total: int, percent: nat) {
    if total >= 0 then 100 * granted <= total * percent < 100 * granted + 100
    else 100 * granted - 100 < total * percent <= 100 * granted
  }

  lemma ShareTruncates(total: int, percent: nat)
    ensures Truncates(Share(total, percent), total, percent)
  {
    if total < 0 {
      assert -total * percent == -(total * percent);
    }
  }

  lemma {:induction false} EachAllocation(total: int, candidates: seq<Candidate>, n: nat, a: Allocation)
    requires n <= |WEIGHTS| && a in AllocateFor(total, candidates, WEIGHTS[..n])
    ensures a.used == 0 && Present(candidates, a.category) && Truncates(a.granted, total, Percent(a.category))
  {
    hide Present, Share, Truncates;
    if n > 0 {
      AllocateStep(total, candidates, n - 1);
      WeightIsPercent(n - 1);
      ShareTruncates(total, WEIGHTS[n - 1].percent);
      if a in AllocateFor(total, candidates, WEIGHTS[..n - 1]) {
        EachAllocation(total, candidates, n - 1, a);
      }
    }
  }

  lemma WeightIsPercent(i: nat)
    requires i < |WEIGHTS|
    ensures WEIGHTS[i].percent == Percent(WEIGHTS[i].category)
  {
  }

  lemma WeightOf(category: Category) returns (i: nat)
    ensures i < |WEIGHTS| && WEIGHTS[i].category == category
  {
    i := match category
      case Task => 0
      case Requirements => 1
      case Architecture => 2
      case SourceCode => 3
      case Tests => 4
      case History => 5
      case Instructions => 6;
  }

  /** Exactly the categories of the candidates have an allocation, one each, nothing used yet: a fixed percentage of
      the preferred budget, truncated. */
  lemma AllocationsAreShares(total: int, candidates: seq<Candidate>)
    ensures
      var allocations := Allocate(total, candidates);
      && OnePerCategory(allocations)
      && (forall a :: a in allocations ==>
           a.used == 0 && (exists c :: c in candidates && c.category == a.category)
           && Truncates(a.granted, total, Percent(a.category)))
      && (forall c :: c in candidates ==> exists a :: a in allocations && a.category == c.category)
  {
    hide AllocateFor, Truncates;
    assert WEIGHTS[..|WEIGHTS|] == WEIGHTS;
    AllocationsFresh(total, candidates, |WEIGHTS|);
    forall a | a in Allocate(total, candidates)
      ensures a.used == 0 && Present(candidates, a.category) && Truncates(a.granted, total, Percent(a.category))
    {
      EachAllocation(total, candidates, |WEIGHTS|, a);
    }
    forall c | c in candidates
      ensures exists a :: a in Allocate(total, candidates) && a.category == c.category
    {
      var i := WeightOf(c.category);
      AllocationsCover(total, candidates, |WEIGHTS|, i);
    }
  }

  /** A category is spent when its first allocation has been used up. */
  lemma SpentIff(allocations: seq<Allocation>, category: Category)
    ensures Spent(allocations, category) <==> exists i ::
      && 0 <= i < |allocations| && allocations[i].category == category
      && (forall j :: 0 <= j < i ==> allocations[j].category != category)
      && allocations[i].used >= allocations[i].granted
  {
    FindFirst(allocations, category);
  }

  // ----- the order of the ranking ----------------------------------------------

  /** Relevance decides, then trust, then freshness, then the smaller estimate. */
  predicate NotBelow(a: Candidate, b: Candidate) {
    && a.relevance >= b.relevance
    && (a.relevance == b.relevance ==> a.trust >= b.trust)
    && (a.relevance == b.relevance && a.trust == b.trust ==> a.freshness >= b.freshness)
    && (a.relevance == b.relevance && a.trust == b.trust && a.freshness == b.freshness ==>
         a.tokenEstimate <= b.tokenEstimate)
  }

  predicate SameKeys(a: Candidate, b: Candidate) {
    a.relevance == b.relevance && a.trust == b.trust && a.freshness == b.freshness && a.tokenEstimate == b.tokenEstimate
  }

  /** The candidates with the same four keys, in order. */
  function Alike(k: Candidate, s: seq<Candidate>): seq<Candidate> {
    if s == [] then [] else (if SameKeys(k, s[0]) then [s[0]] else []) + Alike(k, s[1..])
  }

  lemma {:induction false} TiedAreAlike(k: Candidate, s: seq<Candidate>)
    ensures StableSort.TiedWith(Above, k, s) == Alike(k, s)
  {
    if s != [] {
      TiedAreAlike(k, s[1..]);
      assert StableSort.Tied(Above, k, s[0]) <==> SameKeys(k, s[0]);
    }
  }

  /** The ranking is a permutation of the candidates, ordered by the four keys, with equal ones as gathered. */
  lemma RankIsOrdered(candidates: seq<Candidate>)
    ensures
      var ranked := Rank(candidates);
      && multiset(ranked) == multiset(candidates)
      && (forall i, j :: 0 <= i < j < |ranked| ==> NotBelow(ranked[i], ranked[j]))
      && forall k :: Alike(k, ranked) == Alike(k, candidates)
  {
    AboveIsOrder();
    StableSort.DescendingIsStableSort(Above, candidates);
    var ranked := Rank(candidates);
    forall i, j | 0 <= i < j < |ranked|
      ensures NotBelow(ranked[i], ranked[j])
    {
      assert !Above(ranked[j], ranked[i]);
    }
    forall k
      ensures Alike(k, ranked) == Alike(k, candidates)
    {
      assert StableSort.TiedWith(Above, k, ranked) == StableSort.TiedWith(Above, k, candidates);
      TiedAreAlike(k, ranked);
      TiedAreAlike(k, candidates);
    }
  }

  // ----- the capsule ---------------------------------------------------------

  /** The capsule built from gathered candidates: rank, allocate over the ranking, pack. */
  function Built(estimate: Estimator, preferred: int, budget: int, candidates: seq<Candidate>): Capsule {
    Capsuled(estimate, budget, Rank(candidates), Allocate(preferred, Rank(candidates)))
  }

  /** The candidates of a capsule, with their estimates, are a subsequence of the ranking of the
      gathered ones: by relevance, trust, freshness and the smaller estimate, with equal ones as gathered. */
  lemma CapsuleOrder(estimate: Estimator, preferred: int, budget: int, candidates: seq<Candidate>)
    ensures
      var ranked := Rank(candidates);
      && Subsequence(Built(estimate, preferred, budget, candidates).candidates, EstimatedAll(estimate, ranked))
      && multiset(ranked) == multiset(candidates)
      && (forall i, j :: 0 <= i < j < |ranked| ==> NotBelow(ranked[i], ranked[j]))
      && forall k :: Alike(k, ranked) == Alike(k, candidates)
  {
    RankIsOrdered(candidates);
    hide Rank, NotBelow, Alike, Pack, EstimatedAll, Allocate;
    var ranked := Rank(candidates);
    var p := Packing([], 0, Allocate(preferred, ranked));
    PackTakesSubsequence(estimate, budget, ranked, p);
    var r := Pack(estimate, budget, ranked, p);
    assert r.included[0..] == r.included;
  }

  /** Totals, category use and overshoot of every capsule; it is within the model budget exactly when that
      budget is not negative. */
  lemma CapsuleTotals(estimate: Estimator, preferred: int, budget: int, candidates: seq<Candidate>)
    ensures
      var capsule := Built(estimate, preferred, budget, candidates);
      && capsule.totalTokens == Tokens(capsule.candidates)
      && capsule.totalTokens == Used(capsule.allocations)
      && (forall c :: c in capsule.candidates ==> c.tokenEstimate == estimate(c.content))
      && (forall a :: a in capsule.allocations ==> Charged(a, capsule.candidates))
      && (capsule.WithinBudget() <==> budget >= 0)
  {
    hide Rank, Pack, Charged, AllocateFor;
    var ranked := Rank(candidates);
    var allocations := Allocate(preferred, ranked);
    var p := Packing([], 0, allocations);
    assert WEIGHTS[..|WEIGHTS|] == WEIGHTS;
    AllocationsFresh(preferred, ranked, |WEIGHTS|);
    forall a | a in allocations
      ensures Charged(a, [])
    {
      NothingCharged(a);
    }
    PackKeepsSound(estimate, budget, ranked, p);
    forall c | c in ranked
      ensures exists a :: a in allocations && a.category == c.category
    {
      EveryCategoryWeighted(c.category);
      var i :| 0 <= i < |WEIGHTS| && WEIGHTS[i].category == c.category;
      AllocationsCover(preferred, ranked, |WEIGHTS|, i);
    }
    PackKeepsTotal(estimate, budget, ranked, p);
    var capsule := Built(estimate, preferred, budget, candidates);
    TokensNonNegative(estimate, capsule.candidates);
  }

  lemma NothingCharged(a: Allocation)
    requires a.used == 0
    ensures Charged(a, [])
  {
  }

  lemma {:induction false} TokensNonNegative(estimate: Estimator, cs: seq<Candidate>)
    requires forall c :: c in cs ==> c.tokenEstimate == estimate(c.content)
    ensures Tokens(cs) >= 0
  {
    if cs != [] {
      TokensNonNegative(estimate, Front(cs));
    }
  }
}
