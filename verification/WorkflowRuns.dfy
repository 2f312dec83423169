/** Whole workflow runs: invariants, the exact outcome, the retry budget, and crashes. */
module WorkflowRuns {
  import opened Prelude
  import opened Workflow

  // ----- every state a run saves ---------------------------------------------

  /** Status and stage agree, and a workflow is blocked only with its retries spent. */
  predicate WellFormed(s: State) {
    && (s.status.GaveUp? <==> s.stage.Failed?)
    && (s.status.Blocked? <==> s.stage.Human?)
    && (s.status.Blocked? ==> s.retryCount >= s.maxRetries)
    && (s.status.Completed? ==> s.stage.Complete?)
    && (s.stage.CreatePr? || s.stage.UpdateBrain? || s.stage.Complete? ==> !HasError(s) && s.retryCount < s.maxRetries)
  }

  function SavedStates(ops: seq<Op>): seq<State> {
    if ops == [] then []
    else (if ops[0].Saved? then [ops[0].state] else []) + SavedStates(ops[1..])
  }

  /** Every move follows an edge of the graph, except that a retry may give up. */
  lemma MovesFollowGraph(executor: Executor, s: State)
    requires s.status.Running? && !AtEnd(s)
    ensures
      var next := Move(executor, s);
      next.stage in NextStages(MAIN_GRAPH, s.stage) || (s.stage.Retry? && next.stage.Failed?)
    ensures Move(executor, s).stage.Failed? <==> s.stage.Retry? && !(Retryable(s) && s.retryCount < s.maxRetries)
    ensures Move(executor, s).stage.Failed? ==> Failed !in NextStages(MAIN_GRAPH, s.stage)
  {
    hide NextStages, Retryable, HasError;
    GraphStages(s.stage);
  }

  /** A pull request is reached only from a verification with no recorded error and retries left. */
  lemma PullRequestEntry(executor: Executor, s: State)
    requires s.status.Running? && !AtEnd(s)
    ensures Move(executor, s).stage.CreatePr?
      <==> s.stage.Verify? && !HasError(s) && s.retryCount < s.maxRetries
  {
    hide Retryable;
  }

  lemma MoveKeepsWellFormed(executor: Executor, s: State)
    requires WellFormed(s) && s.status.Running?
    ensures WellFormed(Move(executor, s)) && WellFormed(After(executor, s))
    ensures After(executor, s).maxRetries == s.maxRetries
    ensures After(executor, s) == Settle(Move(executor, s))
  {
    hide Retryable;
  }

  /** From a well-formed checkpoint every saved state, and the final one, is well-formed; the final
      status is never RUNNING. */
  lemma {:induction false} RunsStayWellFormed(executor: Executor, s: State)
    requires WellFormed(s)
    ensures forall x :: x in SavedStates(Trace(executor, s)) ==> WellFormed(x)
    ensures WellFormed(Final(executor, s)) && !Final(executor, s).status.Running?
    decreases Remaining(s), Rank(s.stage), s.status.Running?
  {
    hide Move, WellFormed, Settle;
    if s.status.Running? {
      MoveKeepsWellFormed(executor, s);
      TurnMeasure(executor, s);
      RunsStayWellFormed(executor, After(executor, s));
      SavedConcat(Turn(executor, s), Trace(executor, After(executor, s)));
      TurnSaves(executor, s);
    }
  }

  lemma TurnSaves(executor: Executor, s: State)
    ensures forall x :: x in SavedStates(Turn(executor, s)) ==> x == Move(executor, s) || x == Settle(Move(executor, s))
  {
    hide Move, Settle;
    var next := Move(executor, s);
    var tail := if !AtEnd(s) && (next.stage.Complete? || next.stage.Failed?) then [Saved(Settle(next))] else [];
    SavedConcat(if s.stage.Execute? then [Executed(s.retryCount)] else [], [Saved(next)]);
    SavedConcat((if s.stage.Execute? then [Executed(s.retryCount)] else []) + [Saved(next)], tail);
    assert SavedStates([Saved(next)]) == [next] + SavedStates([]);
  }

  lemma {:induction false} SavedConcat(a: seq<Op>, b: seq<Op>)
    ensures SavedStates(a + b) == SavedStates(a) + SavedStates(b)
  {
    if a == [] {
      assert a + b == b;
    } else {
      assert (a + b)[1..] == a[1..] + b;
      SavedConcat(a[1..], b);
    }
  }

  // ----- executor calls ------------------------------------------------------

  function Executions(ops: seq<Op>): nat {
    if ops == [] then 0 else (if ops[0].Executed? then 1 else 0) + Executions(ops[1..])
  }

  lemma {:induction false} ExecutionsConcat(a: seq<Op>, b: seq<Op>)
    ensures Executions(a + b) == Executions(a) + Executions(b)
  {
    if a == [] {
      assert a + b == b;
    } else {
      assert (a + b)[1..] == a[1..] + b;
      ExecutionsConcat(a[1..], b);
    }
  }

  lemma TurnExecutions(executor: Executor, s: State)
    ensures Executions(Turn(executor, s)) == if s.stage.Execute? then 1 else 0
  {
    hide Move, Settle;
    var next := Move(executor, s);
    var tail := if !AtEnd(s) && (next.stage.Complete? || next.stage.Failed?) then [Saved(Settle(next))] else [];
    ExecutionsConcat(if s.stage.Execute? then [Executed(s.retryCount)] else [], [Saved(next)]);
    ExecutionsConcat((if s.stage.Execute? then [Executed(s.retryCount)] else []) + [Saved(next)], tail);
  }

  /** Stages from which the executor is still going to be called. */
  predicate BeforeExecution(stage: Stage) {
    stage.Intake? || stage.Understand? || stage.BuildContext? || stage.RouteExecutor? || stage.Execute?
  }

  /** The executor is called once for every retry count from the first to the final one: at most
      once more than the retries that were left. */
  lemma {:induction false} ExecutionCount(executor: Executor, s: State)
    requires s.status.Running?
    ensures Executions(Trace(executor, s))
      == Final(executor, s).retryCount - s.retryCount + if BeforeExecution(s.stage) then 1 else 0
    ensures Executions(Trace(executor, s)) <= Remaining(s) + 1
    ensures s.retryCount <= Final(executor, s).retryCount
    ensures Final(executor, s).retryCount <= s.retryCount + Remaining(s)
    decreases Remaining(s), Rank(s.stage), s.status.Running?
  {
    hide Retryable, HasError, Turn;
    TurnMeasure(executor, s);
    TurnExecutions(executor, s);
    var next := After(executor, s);
    ExecutionsConcat(Turn(executor, s), Trace(executor, next));
    if next.status.Running? {
      ExecutionCount(executor, next);
    }
  }

  // ----- the outcome ---------------------------------------------------------

  /** Some attempt within the budget succeeds and the policy lets the workflow get to it. */
  predicate SomeAttemptSucceeds(executor: Executor, s: State) {
    exists k :: s.retryCount <= k < s.maxRetries && executor(k) && (k == s.retryCount || Retryable(s))
  }

  predicate WillComplete(executor: Executor, s: State) {
    s.retryCount < s.maxRetries && (!HasError(s) || SomeAttemptSucceeds(executor, s))
  }

  predicate WillFail(executor: Executor, s: State) {
    s.retryCount < s.maxRetries && HasError(s) && !Retryable(s) && !executor(s.retryCount)
  }

  /** How a workflow ends, read off the executor and the checkpoint alone. */
  lemma {:induction false} Outcome(executor: Executor, s: State)
    requires s.status.Running? && BeforeExecution(s.stage)
    ensures
      var r := Final(executor, s);
      && (r.stage.Complete? <==> WillComplete(executor, s))
      && (r.stage.Failed? <==> WillFail(executor, s))
      && (r.stage.Human? <==> !WillComplete(executor, s) && !WillFail(executor, s))
      && (r.stage.Complete? <==> r.status.Completed?)
    decreases Remaining(s), Rank(s.stage)
  {
    hide Final, Contains;
    if !s.stage.Execute? {
      EarlyStage(executor, s);
      Outcome(executor, After(executor, s));
      SameCondition(executor, s, After(executor, s));
    } else {
      var v := s.(stage := Verify, lastError := if executor(s.retryCount) then None else s.lastError);
      FinalStep(executor, s);
      if s.retryCount >= s.maxRetries {
        Spent(executor, v);
      } else if !HasError(v) {
        Passes(executor, v);
      } else {
        var t := v.(stage := Retry);
        FinalStep(executor, v);
        FinalStep(executor, t);
        if Retryable(t) {
          var u := t.(stage := Execute, retryCount := t.retryCount + 1);
          Outcome(executor, u);
          SameCondition(executor, s, s.(stage := Execute));
          NextAttempt(executor, s, u);
        } else {
          Stopped(executor, t.(stage := Failed, status := GaveUp));
        }
      }
    }
  }

  lemma EarlyStage(executor: Executor, s: State)
    requires s.status.Running? && BeforeExecution(s.stage) && !s.stage.Execute?
    ensures
      var next := After(executor, s);
      && next == s.(stage := next.stage) && BeforeExecution(next.stage) && Rank(next.stage) < Rank(s.stage)
      && Final(executor, s) == Final(executor, next)
  {
    hide Retryable, HasError;
  }

  lemma SameCondition(executor: Executor, s: State, t: State)
    requires t == s.(stage := t.stage)
    ensures WillComplete(executor, s) == WillComplete(executor, t)
    ensures WillFail(executor, s) == WillFail(executor, t)
  {
    hide Contains;
    if SomeAttemptSucceeds(executor, s) {
      var k :| s.retryCount <= k < s.maxRetries && executor(k) && (k == s.retryCount || Retryable(s));
      assert t.retryCount <= k < t.maxRetries && executor(k) && (k == t.retryCount || Retryable(t));
    }
    if SomeAttemptSucceeds(executor, t) {
      var k :| t.retryCount <= k < t.maxRetries && executor(k) && (k == t.retryCount || Retryable(t));
      assert s.retryCount <= k < s.maxRetries && executor(k) && (k == s.retryCount || Retryable(s));
    }
  }

  lemma FinalStep(executor: Executor, s: State)
    requires s.status.Running?
    ensures Final(executor, s) == Final(executor, After(executor, s))
  {
    hide After;
  }

  lemma Spent(executor: Executor, v: State)
    requires v.status.Running? && v.stage.Verify? && v.retryCount >= v.maxRetries
    ensures Final(executor, v) == v.(stage := Human, status := Blocked)
  {
    hide Contains;
    var h := After(executor, v);
    Stopped(executor, h);
  }

  lemma Passes(executor: Executor, v: State)
    requires v.status.Running? && v.stage.Verify? && v.retryCount < v.maxRetries && !HasError(v)
    ensures Final(executor, v) == v.(stage := Complete, status := Completed)
  {
    hide Retryable;
    var p := v.(stage := CreatePr);
    var b := v.(stage := UpdateBrain);
    var c := v.(stage := Complete, status := Completed);
    assert After(executor, v) == p && After(executor, p) == b && After(executor, b) == c;
    FinalStep(executor, v);
    FinalStep(executor, p);
    FinalStep(executor, b);
    Stopped(executor, c);
  }

  lemma NextAttempt(executor: Executor, s: State, u: State)
    requires s.retryCount < s.maxRetries && Retryable(s) && !executor(s.retryCount)
    requires u == s.(retryCount := s.retryCount + 1)
    ensures WillComplete(executor, s) == WillComplete(executor, u)
    ensures !WillFail(executor, s) && !WillFail(executor, u)
  {
    hide Contains;
    if SomeAttemptSucceeds(executor, s) {
      var k :| s.retryCount <= k < s.maxRetries && executor(k) && (k == s.retryCount || Retryable(s));
      assert u.retryCount <= k < u.maxRetries && executor(k) && (k == u.retryCount || Retryable(u));
    }
    if SomeAttemptSucceeds(executor, u) {
      var k :| u.retryCount <= k < u.maxRetries && executor(k) && (k == u.retryCount || Retryable(u));
      assert s.retryCount <= k < s.maxRetries && executor(k) && (k == s.retryCount || Retryable(s));
    }
  }

  /** Only attempts strictly within the budget matter: what the executor answers once the retries
      are spent is ignored, although it is asked. */
  lemma SpentAttemptIgnored(a: Executor, b: Executor, s: State)
    requires s.status.Running? && BeforeExecution(s.stage)
    requires forall k :: k < s.maxRetries ==> a(k) == b(k)
    ensures Final(a, s).stage == Final(b, s).stage
    ensures s.retryCount >= s.maxRetries ==> Final(a, s).stage.Human? && Executions(Trace(a, s)) == 1
  {
    Outcome(a, s);
    Outcome(b, s);
    SameWithinBudget(a, b, s);
    SameWithinBudget(b, a, s);
    if s.retryCount >= s.maxRetries {
      RetriesStay(a, s);
    }
    ExecutionCount(a, s);
    hide Final, Trace, Executions, Contains;
  }

  lemma SameWithinBudget(a: Executor, b: Executor, s: State)
    requires forall k :: k < s.maxRetries ==> a(k) == b(k)
    ensures SomeAttemptSucceeds(a, s) ==> SomeAttemptSucceeds(b, s)
  {
    hide Retryable;
    if SomeAttemptSucceeds(a, s) {
      var k :| s.retryCount <= k < s.maxRetries && a(k) && (k == s.retryCount || Retryable(s));
      assert b(k);
    }
  }

  lemma {:induction false} RetriesStay(executor: Executor, s: State)
    requires s.status.Running?
    requires (!HasError(s) && !s.stage.Retry?) || s.retryCount >= s.maxRetries
    ensures Final(executor, s).retryCount == s.retryCount
    decreases Remaining(s), Rank(s.stage)
  {
    hide Contains;
    var next := After(executor, s);
    FinalStep(executor, s);
    TurnMeasure(executor, s);
    if next.status.Running? {
      RetriesStay(executor, next);
    } else {
      Stopped(executor, next);
    }
  }

  /** From the state that starting a workflow saves, the executor is called exactly once and
      there is no retry: a failed execution records no error, so with any retry budget the workflow completes whatever
      the executor reports, and with none it blocks. */
  lemma FreshWorkflowNeverRetries(executor: Executor, maxRetries: int)
    ensures
      var s := State(Intake, Running, 0, maxRetries, None);
      && Executions(Trace(executor, s)) == 1
      && Final(executor, s).retryCount == 0
      && (Final(executor, s).stage.Complete? <==> maxRetries > 0)
      && (Final(executor, s).stage.Human? <==> maxRetries <= 0)
  {
    var s := State(Intake, Running, 0, maxRetries, None);
    Outcome(executor, s);
    RetriesStay(executor, s);
    ExecutionCount(executor, s);
    hide Final, Trace, Executions, Contains, SomeAttemptSucceeds;
  }

  /** A workflow that completes with an error on record stops at the first attempt that succeeds. */
  lemma {:induction false} StopsAtFirstSuccess(executor: Executor, s: State)
    requires s.status.Running? && s.stage.Execute? && HasError(s)
    requires Final(executor, s).stage.Complete?
    ensures
      var k := Final(executor, s).retryCount;
      s.retryCount <= k < s.maxRetries && executor(k) && forall j :: s.retryCount <= j < k ==> !executor(j)
    decreases Remaining(s)
  {
    hide Final, Contains;
    Outcome(executor, s);
    var v := s.(stage := Verify, lastError := if executor(s.retryCount) then None else s.lastError);
    FinalStep(executor, s);
    if executor(s.retryCount) {
      Passes(executor, v);
    } else {
      var t := v.(stage := Retry);
      FinalStep(executor, v);
      FinalStep(executor, t);
      StopsAtFirstSuccess(executor, t.(stage := Execute, retryCount := t.retryCount + 1));
    }
  }

  // ----- crashes -------------------------------------------------------------

  /** The checkpoint a process leaves when it stops after the given effects. */
  function LastSaved(s: State, ops: seq<Op>): State {
    if ops == [] then s
    else if Last(ops).Saved? then Last(ops).state
    else LastSaved(s, Front(ops))
  }

  lemma {:induction false} LastSavedConcat(s: State, a: seq<Op>, b: seq<Op>)
    ensures LastSaved(s, a + b) == LastSaved(LastSaved(s, a), b)
  {
    if b == [] {
      assert a + b == a;
    } else {
      assert Front(a + b) == a + Front(b);
      if !Last(b).Saved? {
        LastSavedConcat(s, a, Front(b));
      }
    }
  }

  /** Saved and settled states continue alike. */
  lemma SettleContinues(executor: Executor, s: State)
    requires s.status.Running? && WellFormed(s)
    ensures
      var next := Move(executor, s);
      && Final(executor, next) == Final(executor, After(executor, s))
      && Executions(Trace(executor, next)) == Executions(Trace(executor, After(executor, s)))
  {
    hide Retryable, HasError;
    var next := Move(executor, s);
    if next.stage.Complete? && next.status.Running? {
      var done := next.(status := Completed);
      assert After(executor, next) == done && After(executor, s) == done;
      TurnDone(executor, next);
      Stopped(executor, done);
    }
  }

  /** One crash, after any effect: resuming from the checkpoint left behind ends in the same state, and
      repeats an execution exactly when the crash fell between the execution and its save. */
  lemma {:induction false} CrashOnce(executor: Executor, s: State, j: nat)
    requires WellFormed(s) && j <= |Trace(executor, s)|
    ensures
      var done := Trace(executor, s)[..j];
      var c := LastSaved(s, done);
      && WellFormed(c) && c.maxRetries == s.maxRetries
      && Final(executor, c) == Final(executor, s)
      && Executions(done) + Executions(Trace(executor, c))
         == Executions(Trace(executor, s)) + if done != [] && Last(done).Executed? then 1 else 0
    decreases Remaining(s), Rank(s.stage), s.status.Running?
  {
    hide Retryable, HasError, Move, WellFormed, Turn;
    if j == 0 {
      assert Trace(executor, s)[..0] == [];
    } else {
      var turn, next := Turn(executor, s), After(executor, s);
      TurnDone(executor, s);
      TurnMeasure(executor, s);
      MoveKeepsWellFormed(executor, s);
      TurnShape(executor, s);
      var whole := turn + Trace(executor, next);
      ExecutionsConcat(turn, Trace(executor, next));
      if j <= |turn| {
        assert whole[..j] == turn[..j];
        CrashInTurn(executor, s, j);
      } else {
        var rest := Trace(executor, next)[..j - |turn|];
        assert whole[..j] == turn + rest;
        LastSavedConcat(s, turn, rest);
        ExecutionsConcat(turn, rest);
        CrashOnce(executor, next, j - |turn|);
        assert Last(turn + rest) == Last(rest);
      }
    }
  }

  lemma TurnShape(executor: Executor, s: State)
    requires s.status.Running? && WellFormed(s)
    ensures LastSaved(s, Turn(executor, s)) == After(executor, s)
    ensures !Last(Turn(executor, s)).Executed?
    ensures |Turn(executor, s)| <= 2
  {
    hide Retryable, HasError;
    MoveKeepsWellFormed(executor, s);
    var next := Move(executor, s);
    if AtEnd(s) {
      TurnMeasure(executor, s);
    }
  }

  lemma CrashInTurn(executor: Executor, s: State, j: nat)
    requires WellFormed(s) && s.status.Running? && 0 < j <= |Turn(executor, s)|
    ensures
      var done := Turn(executor, s)[..j];
      var c := LastSaved(s, done);
      && WellFormed(c) && c.maxRetries == s.maxRetries
      && Final(executor, c) == Final(executor, s)
      && Executions(done) + Executions(Trace(executor, c))
         == Executions(Trace(executor, s)) + if Last(done).Executed? then 1 else 0
  {
    hide Move, Trace, Final, Retryable, HasError, WellFormed;
    var turn, next := Turn(executor, s), After(executor, s);
    TurnDone(executor, s);
    MoveKeepsWellFormed(executor, s);
    SettleContinues(executor, s);
    TurnExecutions(executor, s);
    ExecutionsConcat(turn, Trace(executor, next));
    TurnShape(executor, s);
    var done := turn[..j];
    if j == |turn| {
      assert done == turn;
    } else {
      assert j == 1 && done == [turn[0]];
      assert Executions(done) == if turn[0].Executed? then 1 else 0;
      assert LastSaved(s, done) == if turn[0].Saved? then turn[0].state else s by {
        assert Front(done) == [];
      }
    }
  }

  /** Any number of crashes: each leaves a checkpoint from which the next run starts. */
  function Survives(executor: Executor, s: State, crashes: seq<nat>): (State, nat) {
    if crashes == [] then (s, 0)
    else
      var (c, executed) := Survives(executor, s, Front(crashes));
      var trace := Trace(executor, c);
      var done := if Last(crashes) <= |trace| then trace[..Last(crashes)] else trace;
      (LastSaved(c, done), executed + Executions(done))
  }

  /** Crashes never change how a workflow ends, and each repeats at most one execution. */
  lemma {:induction false} CrashesDoNotMatter(executor: Executor, s: State, crashes: seq<nat>)
    requires WellFormed(s)
    ensures
      var (c, executed) := Survives(executor, s, crashes);
      && WellFormed(c)
      && Final(executor, c) == Final(executor, s)
      && executed + Executions(Trace(executor, c)) <= Executions(Trace(executor, s)) + |crashes|
  {
    hide Final, Trace, LastSaved, Executions, WellFormed;
    if crashes != [] {
      CrashesDoNotMatter(executor, s, Front(crashes));
      var (c, executed) := Survives(executor, s, Front(crashes));
      var trace := Trace(executor, c);
      var j := if Last(crashes) <= |trace| then Last(crashes) else |trace|;
      assert trace[..|trace|] == trace;
      CrashOnce(executor, c, j);
    }
  }
}
