/** One execution per repository (workspace_locks.py), and its use by any number of interleaved
    command handlers (command_handlers.py). */
module Locks {
  import opened Prelude

  type Repo = int
  type ExecutionId = int

  datatype Lock = Lock(owner: ExecutionId, branch: string)

  type Table = map<Repo, Lock>

  // ----- the lock store ------------------------------------------------------

  function Acquired(locks: Table, repo: Repo, lock: Lock): Table {
    if repo in locks then locks else locks[repo := lock]
  }

  function Released(locks: Table, repo: Repo, owner: ExecutionId): Table {
    if repo in locks && locks[repo].owner == owner then locks - {repo} else locks
  }

  class WorkspaceLockStore {
    var locks: Table

    constructor ()
      ensures locks == map[]
    {
      locks := map[];
    }

    method Acquire(repo: Repo, lock: Lock) returns (acquired: bool)
      modifies this
      ensures acquired <==> repo !in old(locks)
      ensures locks == Acquired(old(locks), repo, lock)
    {
      if repo in locks {
        return false;
      }
      locks := locks[repo := lock];
      return true;
    }

    method Release(repo: Repo, owner: ExecutionId) returns (released: bool)
      modifies this
      ensures released <==> repo in old(locks) && old(locks)[repo].owner == owner
      ensures locks == Released(old(locks), repo, owner)
    {
      if repo !in locks || locks[repo].owner != owner {
        return false;
      }
      locks := map r | r in locks && r != repo :: locks[r];
      return true;
    }

    method HeldBy(repo: Repo) returns (lock: Option<Lock>)
      ensures lock == if repo in locks then Some(locks[repo]) else None
    {
      return if repo in locks then Some(locks[repo]) else None;
    }
  }

  // ----- interleaved handlers ------------------------------------------------

  /** Where a handler stands in acquire, execute, release. */
  datatype Phase = Waiting | Executing | Releasing(raised: bool) | Finished(raised: bool) | Refused

  /** A handler of one delivered command; deliveries may repeat an execution id. */
  datatype Handler = Handler(repo: Option<Repo>, execution: ExecutionId, branch: string, phase: Phase)

  datatype System = System(handlers: seq<Handler>, locks: Table)

  /** One atomic step of one handler, or the delivery of another command. */
  datatype Event =
    | Deliver(repo: Option<Repo>, execution: ExecutionId, branch: string)
    | TryAcquire(handler: nat)
    | EndExecution(handler: nat, raises: bool)
    | RunFinally(handler: nat)

  function Moved(s: System, h: nat, phase: Phase, locks: Table): System
    requires h < |s.handlers|
  {
    System(s.handlers[h := s.handlers[h].(phase := phase)], locks)
  }

  /** The effect of an event; a step a handler is not ready for does nothing. */
  function Next(s: System, e: Event): System {
    match e
    case Deliver(repo, execution, branch) =>
      s.(handlers := s.handlers + [Handler(repo, execution, branch, Waiting)])
    case TryAcquire(h) =>
      if h >= |s.handlers| || !s.handlers[h].phase.Waiting? then s
      else
        var me := s.handlers[h];
        if me.repo.None? then Moved(s, h, Executing, s.locks)
        else if me.repo.value in s.locks then Moved(s, h, Refused, s.locks)
        else Moved(s, h, Executing, Acquired(s.locks, me.repo.value, Lock(me.execution, me.branch)))
    case EndExecution(h, raises) =>
      if h >= |s.handlers| || !s.handlers[h].phase.Executing? then s
      else Moved(s, h, Releasing(raises), s.locks)
    case RunFinally(h) =>
      if h >= |s.handlers| || !s.handlers[h].phase.Releasing? then s
      else
        var me := s.handlers[h];
        Moved(s, h, Finished(me.phase.raised),
          if me.repo.Some? then Released(s.locks, me.repo.value, me.execution) else s.locks)
  }

  function Run(s: System, events: seq<Event>): System {
    if events == [] then s else Next(Run(s, Front(events)), Last(events))
  }

  const START := System([], map[])

  predicate Holds(h: Handler, repo: Repo) {
    h.repo == Some(repo) && (h.phase.Executing? || h.phase.Releasing?)
  }

  /** The table lists exactly the current holders, one per repository, under their execution ids. */
  ghost predicate TableIsHolders(s: System) {
    && (forall r :: r in s.locks ==> exists i :: 0 <= i < |s.handlers| && Holds(s.handlers[i], r))
    && (forall i, r :: 0 <= i < |s.handlers| && Holds(s.handlers[i], r) ==>
          r in s.locks && s.locks[r] == Lock(s.handlers[i].execution, s.handlers[i].branch))
    && (forall i, j, r :: 0 <= i < j < |s.handlers| ==> !(Holds(s.handlers[i], r) && Holds(s.handlers[j], r)))
  }

  lemma DeliveryKeepsTable(s: System, h: Handler)
    requires TableIsHolders(s) && h.phase.Waiting?
    ensures TableIsHolders(s.(handlers := s.handlers + [h]))
  {
    var t := s.(handlers := s.handlers + [h]);
    forall r | r in t.locks
      ensures exists i :: 0 <= i < |t.handlers| && Holds(t.handlers[i], r)
    {
      var i :| 0 <= i < |s.handlers| && Holds(s.handlers[i], r);
      assert Holds(t.handlers[i], r);
    }
  }

  /** A handler that changes phase without gaining or losing its hold leaves the table right. */
  lemma SameHoldKeepsTable(s: System, h: nat, phase: Phase)
    requires TableIsHolders(s) && h < |s.handlers|
    requires forall r :: Holds(s.handlers[h], r) <==> Holds(s.handlers[h].(phase := phase), r)
    ensures TableIsHolders(Moved(s, h, phase, s.locks))
  {
    var t := Moved(s, h, phase, s.locks);
    forall r | r in t.locks
      ensures exists i :: 0 <= i < |t.handlers| && Holds(t.handlers[i], r)
    {
      var i :| 0 <= i < |s.handlers| && Holds(s.handlers[i], r);
      assert Holds(t.handlers[i], r);
    }
  }

  lemma AcquireKeepsTable(s: System, h: nat, repo: Repo)
    requires TableIsHolders(s) && h < |s.handlers|
    requires s.handlers[h].phase.Waiting? && s.handlers[h].repo == Some(repo) && repo !in s.locks
    ensures TableIsHolders(Moved(s, h, Executing, s.locks[repo := Lock(s.handlers[h].execution, s.handlers[h].branch)]))
  {
    var t := Moved(s, h, Executing, s.locks[repo := Lock(s.handlers[h].execution, s.handlers[h].branch)]);
    assert Holds(t.handlers[h], repo);
    forall r | r in t.locks && r != repo
      ensures exists i :: 0 <= i < |t.handlers| && Holds(t.handlers[i], r)
    {
      var i :| 0 <= i < |s.handlers| && Holds(s.handlers[i], r);
      assert Holds(t.handlers[i], r);
    }
  }

  lemma ReleaseKeepsTable(s: System, h: nat, repo: Repo, raised: bool)
    requires TableIsHolders(s) && h < |s.handlers| && Holds(s.handlers[h], repo)
    ensures TableIsHolders(Moved(s, h, Finished(raised), s.locks - {repo}))
  {
    var t := Moved(s, h, Finished(raised), s.locks - {repo});
    forall r | r in t.locks
      ensures exists i :: 0 <= i < |t.handlers| && Holds(t.handlers[i], r)
    {
      var i :| 0 <= i < |s.handlers| && Holds(s.handlers[i], r);
      assert Holds(t.handlers[i], r);
    }
  }

  lemma StepKeepsTable(s: System, e: Event)
    requires TableIsHolders(s)
    ensures TableIsHolders(Next(s, e))
  {
    hide TableIsHolders;
    match e
    case Deliver(repo, execution, branch) =>
      DeliveryKeepsTable(s, Handler(repo, execution, branch, Waiting));
    case TryAcquire(h) =>
      if h < |s.handlers| && s.handlers[h].phase.Waiting? {
        var repo := s.handlers[h].repo;
        if repo.None? {
          SameHoldKeepsTable(s, h, Executing);
        } else if repo.value in s.locks {
          SameHoldKeepsTable(s, h, Refused);
        } else {
          AcquireKeepsTable(s, h, repo.value);
        }
      }
    case EndExecution(h, raises) =>
      if h < |s.handlers| && s.handlers[h].phase.Executing? {
        SameHoldKeepsTable(s, h, Releasing(raises));
      }
    case RunFinally(h) =>
      if h < |s.handlers| && s.handlers[h].phase.Releasing? {
        FinallyReleases(s, h);
        if s.handlers[h].repo.Some? {
          ReleaseKeepsTable(s, h, s.handlers[h].repo.value, s.handlers[h].phase.raised);
        } else {
          SameHoldKeepsTable(s, h, Finished(s.handlers[h].phase.raised));
        }
      }
  }

  /** The release in the `finally` block always finds the handler's own lock. */
  lemma FinallyReleases(s: System, h: nat)
    requires TableIsHolders(s) && h < |s.handlers| && s.handlers[h].phase.Releasing?
    ensures
      var t := Next(s, RunFinally(h));
      s.handlers[h].repo.Some? ==>
        && s.handlers[h].repo.value in s.locks
        && s.locks[s.handlers[h].repo.value].owner == s.handlers[h].execution
        && t.locks == s.locks - {s.handlers[h].repo.value}
  {
    if s.handlers[h].repo.Some? {
      assert Holds(s.handlers[h], s.handlers[h].repo.value);
    }
  }

  lemma {:induction false} EveryInterleaving(events: seq<Event>)
    ensures TableIsHolders(Run(START, events))
  {
    hide Next, TableIsHolders;
    if events == [] {
      StartIsEmpty();
    } else {
      EveryInterleaving(Front(events));
      StepKeepsTable(Run(START, Front(events)), Last(events));
    }
  }

  lemma StartIsEmpty()
    ensures TableIsHolders(START)
  {
  }

  /** In every interleaving of any handlers, at most one is executing on a repository, even when
      commands with the same execution id are delivered twice. */
  lemma MutualExclusion(events: seq<Event>, i: nat, j: nat)
    ensures
      var s := Run(START, events);
      i < |s.handlers| && j < |s.handlers| && i != j
        && s.handlers[i].phase.Executing? && s.handlers[j].phase.Executing? && s.handlers[i].repo.Some?
      ==> s.handlers[i].repo != s.handlers[j].repo
  {
    hide Run;
    EveryInterleaving(events);
    var s := Run(START, events);
    if i < |s.handlers| && j < |s.handlers| && i != j && s.handlers[i].repo.Some? {
      var r := s.handlers[i].repo.value;
      assert !(Holds(s.handlers[i], r) && Holds(s.handlers[j], r));
    }
  }

  /** What looking up a repository's lock tells, at any moment of any interleaving: a lock is found exactly when some
      handler is between its acquisition and its release there, and it names that handler's execution, the only one. */
  lemma LookupNamesHolder(events: seq<Event>, repo: Repo)
    ensures
      var s := Run(START, events);
      && (repo in s.locks <==> exists i :: 0 <= i < |s.handlers| && Holds(s.handlers[i], repo))
      && (forall i :: 0 <= i < |s.handlers| && Holds(s.handlers[i], repo) ==>
            && s.locks[repo] == Lock(s.handlers[i].execution, s.handlers[i].branch)
            && forall j :: 0 <= j < |s.handlers| && Holds(s.handlers[j], repo) ==> j == i)
  {
    EveryInterleaving(events);
    var s := Run(START, events);
    hide Run;
    forall i, j |
      0 <= i < |s.handlers| && 0 <= j < |s.handlers| && Holds(s.handlers[i], repo) && Holds(s.handlers[j], repo)
      ensures i == j
    {
      assert !(i < j) && !(j < i);
    }
  }

  /** A lock disappears only in the `finally` step of the handler that holds it: no other step of any
      handler, refused ones included, releases it. */
  lemma OnlyHolderReleases(events: seq<Event>, e: Event, repo: Repo)
    ensures
      var s := Run(START, events);
      repo in s.locks && repo !in Next(s, e).locks
      ==> e.RunFinally? && e.handler < |s.handlers| && Holds(s.handlers[e.handler], repo)
    ensures
      var s := Run(START, events);
      repo in s.locks && repo in Next(s, e).locks ==> Next(s, e).locks[repo] == s.locks[repo]
  {
    hide Run;
    EveryInterleaving(events);
  }

  /** A refused handler never changes anything again. */
  lemma {:induction false} RefusedIsInert(s: System, events: seq<Event>, h: nat)
    requires h < |s.handlers| && s.handlers[h].phase.Refused?
    ensures h < |Run(s, events).handlers| && Run(s, events).handlers[h] == s.handlers[h]
    ensures Next(Run(s, events), RunFinally(h)) == Run(s, events)
    ensures Next(Run(s, events), TryAcquire(h)) == Run(s, events)
  {
    if events != [] {
      RefusedIsInert(s, Front(events), h);
    }
  }

  /** When every handler is done, whether its execution returned or raised, no lock remains. */
  lemma NoLockRemains(events: seq<Event>)
    requires forall i :: 0 <= i < |Run(START, events).handlers| ==>
      var phase := Run(START, events).handlers[i].phase;
      phase.Finished? || phase.Refused?
    ensures Run(START, events).locks == map[]
  {
    EveryInterleaving(events);
    var s := Run(START, events);
    hide Run;
    assert forall i, r :: 0 <= i < |s.handlers| ==> !Holds(s.handlers[i], r) by {
      assert forall i :: 0 <= i < |s.handlers| ==> s.handlers[i].phase.Finished? || s.handlers[i].phase.Refused?;
    }
    assert forall r :: r !in s.locks;
  }

  /** A handler is refused exactly when another one holds its repository at that moment. */
  lemma RefusedIffHeld(events: seq<Event>, h: nat)
    ensures
      var s := Run(START, events);
      h < |s.handlers| && s.handlers[h].phase.Waiting? ==>
        (Next(s, TryAcquire(h)).handlers[h].phase.Refused?
         <==> s.handlers[h].repo.Some?
              && exists i :: 0 <= i < |s.handlers| && i != h && Holds(s.handlers[i], s.handlers[h].repo.value))
  {
    hide Run;
    EveryInterleaving(events);
    var s := Run(START, events);
    if h < |s.handlers| && s.handlers[h].phase.Waiting? && s.handlers[h].repo.Some?
      && s.handlers[h].repo.value in s.locks {
      var i :| 0 <= i < |s.handlers| && Holds(s.handlers[i], s.handlers[h].repo.value);
      assert i != h;
    }
  }
}
