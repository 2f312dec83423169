/** Ranking, per-category budgets and greedy packing of a context capsule (context_engine.py). */
module ContextBudget {
  import opened Prelude
  import StableSort

  datatype Category = Task | Requirements | Architecture | SourceCode | Tests | History | Instructions

  datatype Candidate = Candidate(
    id: int, content: string, relevance: real, trust: real, freshness: real, tokenEstimate: int, category: Category)

  datatype Allocation = Allocation(category: Category, granted: int, used: int) {
    function Remaining(): int {
      if granted - used > 0 then granted - used else 0
    }
  }

  datatype Capsule = Capsule(
    candidates: seq<Candidate>, allocations: seq<Allocation>, totalTokens: int, modelBudget: int)
  {
    predicate WithinBudget() {
      totalTokens <= modelBudget
    }
  }

  datatype Weight = Weight(category: Category, percent: nat)

  const WEIGHTS: seq<Weight> := [
    Weight(Task, 15), Weight(Requirements, 15), Weight(Architecture, 15), Weight(SourceCode, 30),
    Weight(Tests, 10), Weight(History, 5), Weight(Instructions, 10)
  ]

  type Estimator = string -> nat

  // ----- ranking -------------------------------------------------------------

  /** The descending comparison of the ranking keys; a smaller estimate ranks higher. */
  predicate Above(a: Candidate, b: Candidate) {
    if a.relevance != b.relevance then a.relevance > b.relevance
    else if a.trust != b.trust then a.trust > b.trust
    else if a.freshness != b.freshness then a.freshness > b.freshness
    else -a.tokenEstimate > -b.tokenEstimate
  }

  function Rank(candidates: seq<Candidate>): seq<Candidate> {
    StableSort.Descending(Above, candidates)
  }

  lemma AboveIsOrder()
    ensures StableSort.StrictWeakOrder(Above)
  {
  }

  // ----- allocation ----------------------------------------------------------

  predicate Present(candidates: seq<Candidate>, category: Category) {
    exists c :: c in candidates && c.category == category
  }

  /** The weighted share of a budget, truncated toward zero. */
  function Share(total: int, percent: nat): int {
    if total >= 0 then total * percent / 100 else -(-total * percent / 100)
  }

  function AllocateFor(total: int, candidates: seq<Candidate>, weights: seq<Weight>): seq<Allocation> {
    if weights == [] then []
    else
      AllocateFor(total, candidates, Front(weights))
      + if Present(candidates, Last(weights).category)
        then [Allocation(Last(weights).category, Share(total, Last(weights).percent), 0)] else []
  }

  function Allocate(total: int, candidates: seq<Candidate>): seq<Allocation> {
    AllocateFor(total, candidates, WEIGHTS)
  }

  method AllocateBudget(total: int, candidates: seq<Candidate>) returns (allocations: seq<Allocation>)
    ensures allocations == Allocate(total, candidates)
  {
    var present := set c | c in candidates :: c.category;
    allocations := [];
    var i := 0;
    while i < |WEIGHTS|
      invariant i <= |WEIGHTS|
      invariant allocations == AllocateFor(total, candidates, WEIGHTS[..i])
    {
      assert Front(WEIGHTS[..i + 1]) == WEIGHTS[..i];
      var w := WEIGHTS[i];
      if w.category in present {
        allocations := allocations + [Allocation(w.category, Share(total, w.percent), 0)];
      }
      i := i + 1;
    }
    assert WEIGHTS[..i] == WEIGHTS;
  }

  // ----- packing -------------------------------------------------------------

  function Find(allocations: seq<Allocation>, category: Category): Option<nat> {
    if allocations == [] then None
    else if allocations[0].category == category then Some(0)
    else
      match Find(allocations[1..], category)
      case None => None
      case Some(i) => Some(i + 1)
  }

  function Estimated(estimate: Estimator, c: Candidate): Candidate {
    c.(tokenEstimate := estimate(c.content))
  }

  datatype Packing = Packing(included: seq<Candidate>, total: int, allocations: seq<Allocation>)

  /** No room is left in the candidate's category. */
  predicate Spent(allocations: seq<Allocation>, category: Category) {
    var i := Find(allocations, category);
    i.Some? && i.value < |allocations| && allocations[i.value].Remaining() <= 0
  }

  function Charge(allocations: seq<Allocation>, category: Category, tokens: int): seq<Allocation> {
    var i := Find(allocations, category);
    if i.Some? && i.value < |allocations|
    then allocations[i.value := allocations[i.value].(used := allocations[i.value].used + tokens)]
    else allocations
  }

  /** What packing makes of the candidates still to come. */
  function Pack(estimate: Estimator, budget: int, ranked: seq<Candidate>, p: Packing): Packing {
    if ranked == [] then p
    else
      var c := ranked[0];
      if Spent(p.allocations, c.category) then Pack(estimate, budget, ranked[1..], p)
      else if p.total + estimate(c.content) > budget then p
      else
        Pack(estimate, budget, ranked[1..],
          Packing(p.included + [Estimated(estimate, c)], p.total + estimate(c.content),
            Charge(p.allocations, c.category, estimate(c.content))))
  }

  function Capsuled(estimate: Estimator, budget: int, ranked: seq<Candidate>, allocations: seq<Allocation>): Capsule {
    var p := Pack(estimate, budget, ranked, Packing([], 0, allocations));
    Capsule(p.included, p.allocations, p.total, budget)
  }

  lemma {:induction false} FindFirst(allocations: seq<Allocation>, category: Category)
    ensures
      var i := Find(allocations, category);
      if i.Some? then
        && i.value < |allocations| && allocations[i.value].category == category
        && (forall j :: 0 <= j < i.value ==> allocations[j].category != category)
      else forall j :: 0 <= j < |allocations| ==> allocations[j].category != category
  {
    if allocations != [] && allocations[0].category != category {
      FindFirst(allocations[1..], category);
    }
  }

  method FindAllocation(allocations: seq<Allocation>, category: Category) returns (found: Option<nat>)
    ensures found == Find(allocations, category)
    ensures found.Some? ==> found.value < |allocations|
  {
    var i := 0;
    while i < |allocations|
      invariant i <= |allocations|
      invariant Find(allocations, category)
        == match Find(allocations[i..], category) { case None => None case Some(k) => Some(i + k) }
    {
      assert allocations[i..][1..] == allocations[i + 1..];
      if allocations[i].category == category {
        return Some(i);
      }
      i := i + 1;
    }
    return None;
  }

  method BuildCapsule(estimate: Estimator, maxTotalTokens: int, ranked: seq<Candidate>, given: seq<Allocation>)
    returns (capsule: Capsule)
    ensures capsule == Capsuled(estimate, maxTotalTokens, ranked, given)
  {
    var included: seq<Candidate> := [];
    var total := 0;
    var allocations := given;
    var i := 0;
    while i < |ranked|
      invariant i <= |ranked|
      invariant Pack(estimate, maxTotalTokens, ranked, Packing([], 0, given))
        == Pack(estimate, maxTotalTokens, ranked[i..], Packing(included, total, allocations))
    {
      var candidate := ranked[i];
      assert ranked[i..][1..] == ranked[i + 1..];
      var at := FindAllocation(allocations, candidate.category);
      if at.Some? && allocations[at.value].Remaining() <= 0 {
        i := i + 1;
        continue;
      }
      var tokens := estimate(candidate.content);
      if total + tokens > maxTotalTokens {
        break;
      }
      included := included + [candidate.(tokenEstimate := tokens)];
      total := total + tokens;
      if at.Some? {
        allocations := allocations[at.value := allocations[at.value].(used := allocations[at.value].used + tokens)];
      }
      i := i + 1;
    }
    return Capsule(included, allocations, total, maxTotalTokens);
  }
}
