/** The checkpointed engineering workflow (workflow_engine.py over the graph of domain/workflow.py). */
module Workflow {
  import opened Prelude

  datatype Stage =
    | Intake | Understand | BuildContext | RouteExecutor | Execute | Verify
    | Retry | Human | CreatePr | UpdateBrain | Complete | Failed

  datatype Status = Running | Completed | GaveUp | Blocked

  datatype Edge = Edge(source: Stage, target: Stage)

  const MAIN_GRAPH: seq<Edge> := [
    Edge(Intake, Understand), Edge(Understand, BuildContext), Edge(BuildContext, RouteExecutor),
    Edge(RouteExecutor, Execute), Edge(Execute, Verify), Edge(Verify, Retry), Edge(Verify, Human),
    Edge(Verify, CreatePr), Edge(Retry, Execute), Edge(CreatePr, UpdateBrain), Edge(UpdateBrain, Complete)
  ]

  function NextStages(edges: seq<Edge>, stage: Stage): seq<Stage> {
    if edges == [] then []
    else (if edges[0].source == stage then [edges[0].target] else []) + NextStages(edges[1..], stage)
  }

  /** The checkpointed part of a workflow; identifiers and timestamps are not part of it. */
  datatype State = State(stage: Stage, status: Status, retryCount: int, maxRetries: int, lastError: Option<string>)

  predicate HasError(s: State) {
    s.lastError.Some? && s.lastError.value != ""
  }

  predicate Contains(text: string, part: string) {
    exists i :: 0 <= i <= |text| && part <= text[i..]
  }

  predicate Retryable(s: State) {
    HasError(s) && (Contains(s.lastError.value, "verification") || Contains(s.lastError.value, "tool"))
  }

  lemma ContainsIff(text: string, part: string)
    ensures Contains(text, part) <==> exists before, after :: text == before + part + after
  {
    if i :| 0 <= i <= |text| && part <= text[i..] {
      assert text == text[..i] + part + text[i..][|part|..];
    }
    forall before, after | text == before + part + after
      ensures Contains(text, part)
    {
      assert text[|before|..] == part + after;
    }
  }

  /** An attempt may be retried when its error names a verification or a tool, anywhere in the text. */
  lemma RetryableIff(s: State)
    ensures HasError(s) <==> s.lastError != None && s.lastError != Some("")
    ensures Retryable(s) <==> exists before, after ::
      s.lastError == Some(before + "verification" + after) || s.lastError == Some(before + "tool" + after)
  {
    hide Contains;
    if s.lastError.Some? {
      ContainsIff(s.lastError.value, "verification");
      ContainsIff(s.lastError.value, "tool");
    }
  }

  /** Outward effects, in order: a call of the executor, or a checkpoint save. */
  datatype Op = Executed(retry: int) | Saved(state: State)

  /** Whether the executor reports success, for each retry count. */
  type Executor = int -> bool

  // ----- one turn of the loop ------------------------------------------------

  /** The stage that follows the unconditional stages of the graph. */
  function Successor(stage: Stage): Option<Stage> {
    match stage
    case Intake => Some(Understand)
    case Understand => Some(BuildContext)
    case BuildContext => Some(RouteExecutor)
    case RouteExecutor => Some(Execute)
    case CreatePr => Some(UpdateBrain)
    case UpdateBrain => Some(Complete)
    case _ => None
  }

  /** The state a running workflow saves next. */
  function Move(executor: Executor, s: State): State {
    match s.stage
    case Execute => s.(stage := Verify, lastError := if executor(s.retryCount) then None else s.lastError)
    case Verify =>
      if s.retryCount >= s.maxRetries then s.(stage := Human, status := Blocked)
      else s.(stage := if HasError(s) then Retry else CreatePr)
    case Retry =>
      if Retryable(s) && s.retryCount < s.maxRetries then s.(stage := Execute, retryCount := s.retryCount + 1)
      else s.(stage := Failed, status := GaveUp)
    case _ =>
      match Successor(s.stage)
      case Some(next) => s.(stage := next)
      case None => s.(status := Completed)
  }

  /** What the state becomes once a final stage has been saved. */
  function Settle(s: State): State {
    match s.stage
    case Complete => s.(status := Completed)
    case Failed => s.(status := GaveUp)
    case _ => s
  }

  predicate AtEnd(s: State) {
    s.stage.Human? || s.stage.Complete? || s.stage.Failed?
  }

  function Turn(executor: Executor, s: State): seq<Op> {
    var next := Move(executor, s);
    (if s.stage.Execute? then [Executed(s.retryCount)] else [])
    + [Saved(next)]
    + if !AtEnd(s) && (next.stage.Complete? || next.stage.Failed?) then [Saved(Settle(next))] else []
  }

  function After(executor: Executor, s: State): State {
    if AtEnd(s) then Move(executor, s) else Settle(Move(executor, s))
  }

  function Remaining(s: State): nat {
    if s.retryCount < s.maxRetries then s.maxRetries - s.retryCount else 0
  }

  function Rank(stage: Stage): nat {
    match stage
    case Intake => 10
    case Understand => 9
    case BuildContext => 8
    case RouteExecutor => 7
    case Execute => 6
    case Verify => 5
    case Retry => 4
    case CreatePr => 3
    case UpdateBrain => 2
    case _ => 1
  }

  /** All effects of `resume` from a checkpoint; the measure is retries left, then stage rank. */
  function Trace(executor: Executor, s: State): seq<Op>
    decreases Remaining(s), Rank(s.stage), s.status.Running?
  {
    if !s.status.Running? then []
    else Turn(executor, s) + Trace(executor, After(executor, s))
  }

  function Final(executor: Executor, s: State): State
    decreases Remaining(s), Rank(s.stage), s.status.Running?
  {
    if !s.status.Running? then s else Final(executor, After(executor, s))
  }

  // ----- facts about a turn --------------------------------------------------

  lemma Stopped(executor: Executor, s: State)
    requires !s.status.Running?
    ensures Trace(executor, s) == [] && Final(executor, s) == s
  {
  }

  /** One turn of the loop, as seen from its trace, its result and its measure. */
  lemma TurnDone(executor: Executor, s: State)
    requires s.status.Running?
    ensures
      var next := After(executor, s);
      && Trace(executor, s) == Turn(executor, s) + Trace(executor, next)
      && Final(executor, s) == Final(executor, next)
      && (AtEnd(s) ==> Move(executor, s) == s.(status := Completed))
      && (!AtEnd(s) ==>
            Remaining(next) < Remaining(s) || (Remaining(next) == Remaining(s) && Rank(next.stage) < Rank(s.stage)))
  {
    TurnMeasure(executor, s);
    hide Move, Retryable, Turn, Settle, Remaining, Rank;
  }

  lemma TurnMeasure(executor: Executor, s: State)
    requires s.status.Running?
    ensures AtEnd(s) ==> Move(executor, s) == s.(status := Completed)
    ensures
      var next := After(executor, s);
      !AtEnd(s) ==>
        Remaining(next) < Remaining(s) || (Remaining(next) == Remaining(s) && Rank(next.stage) < Rank(s.stage))
  {
    hide Retryable;
  }

  /** The declared graph, stage by stage. */
  lemma GraphStages(stage: Stage)
    ensures NextStages(MAIN_GRAPH, stage) ==
      match stage
      case Verify => [Retry, Human, CreatePr]
      case Execute => [Verify]
      case Retry => [Execute]
      case _ => if Successor(stage).Some? then [Successor(stage).value] else []
  {
    hide NextStages;
    LaterEdges(stage);
    UnrollGraph(stage, 4);
    UnrollGraph(stage, 3);
    UnrollGraph(stage, 2);
    UnrollGraph(stage, 1);
    UnrollGraph(stage, 0);
    assert MAIN_GRAPH[0..] == MAIN_GRAPH;
  }

  lemma LaterEdges(stage: Stage)
    ensures NextStages(MAIN_GRAPH[5..], stage) ==
      match stage
      case Verify => [Retry, Human, CreatePr]
      case Retry => [Execute]
      case CreatePr => [UpdateBrain]
      case UpdateBrain => [Complete]
      case _ => []
  {
    hide NextStages;
    UnrollGraph(stage, 10);
    UnrollGraph(stage, 9);
    UnrollGraph(stage, 8);
    UnrollGraph(stage, 7);
    UnrollGraph(stage, 6);
    UnrollGraph(stage, 5);
  }

  lemma UnrollGraph(stage: Stage, i: nat)
    requires i < |MAIN_GRAPH|
    ensures NextStages(MAIN_GRAPH[i..], stage)
      == (if MAIN_GRAPH[i].source == stage then [MAIN_GRAPH[i].target] else []) + NextStages(MAIN_GRAPH[i + 1..], stage)
    ensures i + 1 == |MAIN_GRAPH| ==> NextStages(MAIN_GRAPH[i + 1..], stage) == []
  {
    assert MAIN_GRAPH[i..][1..] == MAIN_GRAPH[i + 1..];
  }

  // ----- the engine ----------------------------------------------------------

  class WorkflowState {
    var stage: Stage
    var status: Status
    var retryCount: int
    var maxRetries: int
    var lastError: Option<string>

    function Value(): State
      reads this
    {
      State(stage, status, retryCount, maxRetries, lastError)
    }

    constructor (s: State)
      ensures Value() == s
    {
      stage, status, retryCount, maxRetries, lastError := s.stage, s.status, s.retryCount, s.maxRetries, s.lastError;
    }
  }

  class WorkflowEngine {
    var checkpoints: map<int, State>
    var journal: seq<Op>

    constructor ()
      ensures checkpoints == map[] && journal == []
    {
      checkpoints, journal := map[], [];
    }

    method SaveCheckpoint(id: int, state: WorkflowState)
      modifies this
      ensures checkpoints == old(checkpoints)[id := state.Value()]
      ensures journal == old(journal) + [Saved(state.Value())]
    {
      checkpoints := checkpoints[id := state.Value()];
      journal := journal + [Saved(state.Value())];
    }

    method DecideAfterVerify(state: WorkflowState) returns (next: Stage)
      requires state.stage.Verify?
      modifies state`status
      ensures forall executor :: state.Value().(stage := next) == Move(executor, old(state.Value()))
    {
      if state.retryCount >= state.maxRetries {
        state.status := Blocked;
        return Human;
      }
      return if state.lastError.Some? && state.lastError.value != "" then Retry else CreatePr;
    }

    /** Advances one stage; no next stage means the graph has no edge to follow. */
    method Advance(state: WorkflowState, executor: Executor) returns (next: Option<Stage>)
      modifies this`journal, state
      ensures next.None? <==> AtEnd(old(state.Value()))
      ensures next.None? ==> state.Value() == old(state.Value())
      ensures next.Some? ==> state.Value().(stage := next.value) == Move(executor, old(state.Value()))
      ensures journal == old(journal)
        + if old(state.stage).Execute? then [Executed(old(state.retryCount))] else []
    {
      hide NextStages, Contains;
      var candidates := NextStages(MAIN_GRAPH, state.stage);
      GraphStages(state.stage);
      if candidates == [] {
        return None;
      }
      if state.stage == Execute {
        journal := journal + [Executed(state.retryCount)];
        var succeeded := executor(state.retryCount);
        state.stage := Verify;
        if succeeded {
          state.lastError := None;
        }
        return Some(Verify);
      }
      if state.stage == Verify {
        var decided := DecideAfterVerify(state);
        return Some(decided);
      }
      if state.stage == Retry {
        if Retryable(state.Value()) && state.retryCount < state.maxRetries {
          state.retryCount := state.retryCount + 1;
          return Some(Execute);
        }
        state.status := GaveUp;
        return Some(Failed);
      }
      if state.stage == CreatePr {
        return Some(UpdateBrain);
      }
      return Some(candidates[0]);
    }

    /** One turn of the loop: an advance and its saves; the turn is the last one when it reaches an end. */
    method TakeTurn(id: int, state: WorkflowState, executor: Executor) returns (done: bool)
      requires state.status.Running?
      modifies this, state
      ensures state.Value() == After(executor, old(state.Value()))
      ensures if done then !state.status.Running? else !AtEnd(old(state.Value()))
      ensures checkpoints == old(checkpoints)[id := state.Value()]
      ensures journal == old(journal) + Turn(executor, old(state.Value()))
    {
      hide Contains, Retryable, HasError, Move;
      TurnMeasure(executor, state.Value());
      var next := Advance(state, executor);
      if next.None? {
        state.status := Completed;
        SaveCheckpoint(id, state);
        return true;
      }
      state.stage := next.value;
      SaveCheckpoint(id, state);
      if state.stage == Complete || state.stage == Failed {
        state.status := if state.stage == Complete then Completed else GaveUp;
        SaveCheckpoint(id, state);
        return true;
      }
      return false;
    }

    /** Runs a workflow from its checkpoint to the end. */
    method Resume(id: int, executor: Executor) returns (outcome: Option<State>)
      modifies this
      ensures outcome.None? <==> id !in old(checkpoints)
      ensures id !in old(checkpoints) ==> checkpoints == old(checkpoints) && journal == old(journal)
      ensures id in old(checkpoints) ==>
        && outcome.value == Final(executor, old(checkpoints)[id])
        && checkpoints == old(checkpoints)[id := outcome.value]
        && journal == old(journal) + Trace(executor, old(checkpoints)[id])
    {
      hide Trace, Final, Move, Turn, Remaining, Rank;
      if id !in checkpoints {
        return None;
      }
      var start := checkpoints[id];
      var state := new WorkflowState(start);
      assert checkpoints[id := start] == checkpoints;
      while state.status == Running
        invariant fresh(state)
        invariant checkpoints == old(checkpoints)[id := state.Value()]
        invariant journal + Trace(executor, state.Value()) == old(journal) + Trace(executor, start)
        invariant Final(executor, state.Value()) == Final(executor, start)
        decreases Remaining(state.Value()), Rank(state.stage), state.status.Running?
      {
        TurnDone(executor, state.Value());
        var done := TakeTurn(id, state, executor);
        if done {
          break;
        }
      }
      Stopped(executor, state.Value());
      return Some(state.Value());
    }
  }
}
