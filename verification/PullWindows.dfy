/** Which changes a pull cycle asks for, what its sweep re-reads, and which changes fall between cycles. */
module PullWindows {
  import opened Prelude
  import opened Snapshots
  import opened Ingestion
  import opened PullSync
  import PullCycles

  // ----- the sweep, in closed form --------------------------------------------

  /** The project's items that the window did not show, in the order in which they were created. */
  function NotShown(st: Store, project: ProjectId, window: seq<Snapshot>, ids: seq<ExtId>): seq<ExtId> {
    if ids == [] then []
    else
      (if ids[0] in st.items && st.items[ids[0]].project == project
         && forall s :: s in window ==> s.externalId != ids[0]
       then [ids[0]] else [])
      + NotShown(st, project, window, ids[1..])
  }

  /** What the provider still shows of them. */
  function Shown(current: map<ExtId, Snapshot>, ids: seq<ExtId>): seq<Op> {
    if ids == [] then []
    else (if ids[0] in current then [Op(current[ids[0]], true)] else []) + Shown(current, ids[1..])
  }

  function UpTo(limit: int, ops: seq<Op>): seq<Op> {
    if limit <= 0 then [] else if limit < |ops| then ops[..limit] else ops
  }

  lemma {:induction false} UnseenAreNotShown(st: Store, project: ProjectId, window: seq<Snapshot>, ids: seq<ExtId>)
    ensures PullCycles.Unseen(Listed(st, project, ids), Ids(window)) == NotShown(st, project, window, ids)
  {
    if ids != [] {
      var rest := Listed(st, project, ids[1..]);
      UnseenAreNotShown(st, project, window, ids[1..]);
      PullCycles.UnseenCons(ids[0], rest, Ids(window));
      InIds(window, ids[0]);
    }
  }

  lemma InIds(window: seq<Snapshot>, id: ExtId)
    ensures id in Ids(window) <==> exists s :: s in window && s.externalId == id
  {
    if id in Ids(window) {
      var i :| 0 <= i < |window| && Ids(window)[i] == id;
      assert window[i] in window;
    }
    if s :| s in window && s.externalId == id {
      var i :| 0 <= i < |window| && window[i] == s;
      assert Ids(window)[i] == id;
    }
  }

  /** A sweep over unseen items: the first ones the provider shows, up to the limit and to a question that raises. */
  lemma {:induction false} PicksAreShown(
      ids: seq<ExtId>, seen: seq<ExtId>, current: map<ExtId, Snapshot>, limit: int, fails: Option<nat>)
    requires forall id :: id in ids ==> id !in seen
    ensures
      var stops := fails.Some? && fails.value < |ids|;
      && Picks(ids, seen, current, limit, fails)
         == UpTo(limit, Shown(current, if stops then ids[..fails.value] else ids))
      && (PicksRaise(ids, seen, current, limit, fails)
          <==> stops && |Shown(current, ids[..fails.value])| < limit)
  {
    hide Picks, PicksRaise, UpTo;
    assert ids[0..] == ids;
    if ids == [] || limit <= 0 {
      PicksEnd(ids, 0, seen, current, limit, fails);
      UpToStep(current, ids, limit);
      if fails.Some? && fails.value < |ids| {
        UpToStep(current, ids[..fails.value], limit);
      }
    } else {
      PicksStep(ids, 0, seen, current, limit, fails);
      UpToStep(current, ids, limit);
      if fails != Some(0) {
        var rest := ids[1..];
        PicksAreShown(rest, seen, current, if ids[0] in current then limit - 1 else limit, Nearer(fails));
        if fails.Some? && fails.value < |ids| {
          var asked := ids[..fails.value];
          assert asked[0] == ids[0] && asked[1..] == rest[..fails.value - 1];
          UpToStep(current, asked, limit);
        }
      } else {
        assert ids[..0] == [];
        UpToStep(current, [], limit);
      }
    }
  }

  lemma UpToStep(current: map<ExtId, Snapshot>, ids: seq<ExtId>, limit: int)
    ensures UpTo(limit, Shown(current, ids)) ==
      if ids == [] || limit <= 0 then []
      else if ids[0] in current then [Op(current[ids[0]], true)] + UpTo(limit - 1, Shown(current, ids[1..]))
      else UpTo(limit, Shown(current, ids[1..]))
  {
    if ids != [] && limit > 0 {
      var rest := Shown(current, ids[1..]);
      assert [] + rest == rest;
      if ids[0] in current && limit < |Shown(current, ids)| {
        var op := Op(current[ids[0]], true);
        assert ([op] + rest)[..limit] == [op] + rest[..limit - 1];
      }
    }
  }

  lemma SweepIsShown(o: Options, provider: Provider, project: ProjectId, st: Store, window: seq<Snapshot>,
                     fails: Option<nat>)
    ensures
      var listed, missing := Listed(st, project, st.listing), NotShown(st, project, window, st.listing);
      var stops := fails.Some? && fails.value < |missing|;
      && Picks(listed, Ids(window), provider.current, o.sweepLimit, fails)
         == UpTo(o.sweepLimit, Shown(provider.current, if stops then missing[..fails.value] else missing))
      && (PicksRaise(listed, Ids(window), provider.current, o.sweepLimit, fails)
          <==> stops && |Shown(provider.current, missing[..fails.value])| < o.sweepLimit)
  {
    hide Listed, NotShown, Picks, PicksRaise, Ids, Shown;
    var listed, missing := Listed(st, project, st.listing), NotShown(st, project, window, st.listing);
    UnseenAreNotShown(st, project, window, st.listing);
    PullCycles.PicksSkipSeen(listed, Ids(window), provider.current, o.sweepLimit, fails);
    UnseenIsOutside(listed, Ids(window));
    PicksAreShown(missing, Ids(window), provider.current, o.sweepLimit, fails);
  }

  lemma {:induction false} UnseenIsOutside(ids: seq<ExtId>, seen: seq<ExtId>)
    ensures forall id :: id in PullCycles.Unseen(ids, seen) ==> id !in seen
  {
    if ids != [] {
      UnseenIsOutside(ids[1..], seen);
    }
  }

  // ----- one cycle -------------------------------------------------------------

  /** A cycle asks for changes since the last sync; before the first one, since five seconds before the bootstrap was
      complete; and without a bootstrap, for the given number of days. */
  predicate AsksSince(w: Watermark, sinceDays: int, started: Time, t: Time) {
    || w.lastSynced == Some(t)
    || (w.lastSynced.None? && w.bootstrapCompleted == Some(t + 5))
    || (w.lastSynced.None? && w.bootstrapCompleted.None? && t + sinceDays * 24 * 60 * 60 == started)
  }

  /** A fetch or a question of the sweep raises in the cycle that asks since `t`. */
  predicate Raises(cfg: Config, o: Options, provider: Provider, project: ProjectId, st: PullState, t: Time,
                   fault: Fault) {
    var window := provider.changed(t);
    if fault.FetchFails? then fault.page * o.pageSize <= |window|
    else
      var pulled := Run(cfg, project, st, FromWindow(window));
      var missing := NotShown(pulled.store, project, window, pulled.store.listing);
      && fault.SweepFails? && st.watermark.lastSynced.Some?
      && fault.question < |missing| && |Shown(provider.current, missing[..fault.question])| < o.sweepLimit
  }

  /** A cycle that asks since `t` and is not interrupted: every change listed since then, in order, up to the page at
      which the provider no longer knows the project, if there is one; and then, unless it is the first cycle, what the
      provider shows of the project's other items. */
  lemma CompleteCycle(cfg: Config, o: Options, provider: Provider, project: ProjectId, st: PullState,
                      started: Time, finished: Time, fault: Fault, t: Time)
    requires AsksSince(st.watermark, o.sinceDays, started, t)
    requires !Raises(cfg, o, provider, project, st, t, fault)
    ensures
      var all := provider.changed(t);
      var window := if fault.ProjectMissing? && fault.page * o.pageSize <= |all| then all[..fault.page * o.pageSize]
                    else all;
      var pulled := Run(cfg, project, st, FromWindow(window));
      var missing := NotShown(pulled.store, project, window, pulled.store.listing);
      var swept := if st.watermark.lastSynced.None? then pulled
                   else Run(cfg, project, pulled, UpTo(o.sweepLimit, Shown(provider.current, missing)));
      var r := Pull(cfg, o, provider, project, st, started, finished, fault);
      && r.store == swept.store && r.conflicts == swept.conflicts
      && r.watermark == Watermark(Some(finished), st.watermark.bootstrapCompleted,
           if window == [] then st.watermark.lastExternalId else Some(window[|window| - 1].externalId))
  {
    hide Run, FromWindow, Picks, PicksRaise, Listed, NotShown, Shown, UpTo;
    var reached := Reached(provider.changed(t), o.pageSize, fault);
    var pulled := Run(cfg, project, st, FromWindow(reached));
    SweepIsShown(o, provider, project, pulled.store, reached, SweepFault(fault));
    EmptyRun(cfg, project, pulled);
    var missing := NotShown(pulled.store, project, reached, pulled.store.listing);
    if fault.SweepFails? && st.watermark.lastSynced.Some? && fault.question < |missing| {
      UpToLimit(provider.current, missing, o.sweepLimit, fault.question);
    }
  }

  /** A sweep that has its limit of items before some question never asks that question. */
  lemma {:induction false} UpToLimit(current: map<ExtId, Snapshot>, ids: seq<ExtId>, limit: int, n: nat)
    requires n < |ids| && |Shown(current, ids[..n])| >= limit
    ensures UpTo(limit, Shown(current, ids[..n])) == UpTo(limit, Shown(current, ids))
  {
    hide UpTo;
    UpToStep(current, ids, limit);
    UpToStep(current, ids[..n], limit);
    if n > 0 && limit > 0 {
      assert ids[..n][0] == ids[0] && ids[..n][1..] == ids[1..][..n - 1];
      UpToLimit(current, ids[1..], if ids[0] in current then limit - 1 else limit, n - 1);
    }
  }

  /** An interrupted cycle has carried out the pages before the failing fetch, or the window and the questions before
      the failing one; the watermark stays. */
  lemma InterruptedCycle(cfg: Config, o: Options, provider: Provider, project: ProjectId, st: PullState,
                         started: Time, finished: Time, fault: Fault, t: Time)
    requires AsksSince(st.watermark, o.sinceDays, started, t)
    requires Raises(cfg, o, provider, project, st, t, fault)
    ensures
      var window := provider.changed(t);
      var pulled := Run(cfg, project, st, FromWindow(window));
      var missing := NotShown(pulled.store, project, window, pulled.store.listing);
      var r := Pull(cfg, o, provider, project, st, started, finished, fault);
      && (fault.FetchFails? ==> r == Run(cfg, project, st, FromWindow(window[..fault.page * o.pageSize])))
      && (fault.SweepFails? ==> r == Run(cfg, project, pulled, Shown(provider.current, missing[..fault.question])))
      && r.watermark == st.watermark
  {
    hide Run, FromWindow, Picks, PicksRaise, Listed, NotShown, Shown;
    var reached := Reached(provider.changed(t), o.pageSize, fault);
    var pulled := Run(cfg, project, st, FromWindow(reached));
    SweepIsShown(o, provider, project, pulled.store, reached, SweepFault(fault));
    PullCycles.RunBeyondWatermark(cfg, project, st, FromWindow(reached));
    if fault.SweepFails? {
      var missing := NotShown(pulled.store, project, reached, pulled.store.listing);
      PullCycles.RunBeyondWatermark(cfg, project, pulled, Shown(provider.current, missing[..fault.question]));
    }
  }

  // ----- cycle after cycle -----------------------------------------------------

  /** A cycle: the provider as it is read, the clock readings, and what goes wrong. */
  datatype Turn = Turn(provider: Provider, started: Time, finished: Time, fault: Fault)

  function After(cfg: Config, o: Options, project: ProjectId, st: PullState, turns: seq<Turn>): PullState {
    if turns == [] then st
    else
      var turn := Last(turns);
      Pull(cfg, o, turn.provider, project, After(cfg, o, project, st, Front(turns)), turn.started, turn.finished,
        turn.fault)
  }

  /** Nothing raises in turn `k`. */
  ghost predicate Completes(cfg: Config, o: Options, project: ProjectId, st: PullState, turns: seq<Turn>, k: nat)
    requires k < |turns|
  {
    var before := After(cfg, o, project, st, turns[..k]);
    forall t :: AsksSince(before.watermark, o.sinceDays, turns[k].started, t) ==>
      !Raises(cfg, o, turns[k].provider, project, before, t, turns[k].fault)
  }

  ghost predicate LastComplete(cfg: Config, o: Options, project: ProjectId, st: PullState, turns: seq<Turn>, k: int) {
    && 0 <= k < |turns| && Completes(cfg, o, project, st, turns, k)
    && forall j :: k < j < |turns| ==> !Completes(cfg, o, project, st, turns, j)
  }

  lemma CompletesEarlier(cfg: Config, o: Options, project: ProjectId, st: PullState, turns: seq<Turn>, k: nat)
    requires k < |turns| - 1
    ensures Completes(cfg, o, project, st, Front(turns), k) <==> Completes(cfg, o, project, st, turns, k)
  {
    hide After, Raises, AsksSince;
    assert Front(turns)[..k] == turns[..k];
  }

  /** One more turn moves the sync time to its own end exactly if it completes. */
  lemma TurnMoves(cfg: Config, o: Options, project: ProjectId, st: PullState, turns: seq<Turn>)
    requires turns != []
    ensures
      var before, after := After(cfg, o, project, st, Front(turns)), After(cfg, o, project, st, turns);
      && after.watermark.bootstrapCompleted == before.watermark.bootstrapCompleted
      && after.watermark.lastSynced
         == if Completes(cfg, o, project, st, turns, |turns| - 1) then Some(Last(turns).finished)
            else before.watermark.lastSynced
  {
    hide Run, Raises, Pull;
    var turn, before := Last(turns), After(cfg, o, project, st, Front(turns));
    var w := before.watermark;
    var t := if w.lastSynced.Some? then w.lastSynced.value
             else if w.bootstrapCompleted.Some? then w.bootstrapCompleted.value - 5
             else turn.started - o.sinceDays * 24 * 60 * 60;
    assert AsksSince(w, o.sinceDays, turn.started, t);
    if Raises(cfg, o, turn.provider, project, before, t, turn.fault) {
      InterruptedCycle(cfg, o, turn.provider, project, before, turn.started, turn.finished, turn.fault, t);
    } else {
      CompleteCycle(cfg, o, turn.provider, project, before, turn.started, turn.finished, turn.fault, t);
    }
  }

  /** After any cycles, interrupted or not and whatever the providers, the next one asks for changes since the end of
      the last complete cycle; if there is none, for what it would have asked for at the start. */
  lemma {:induction false} NextAsksSince(cfg: Config, o: Options, project: ProjectId, st: PullState, turns: seq<Turn>)
    ensures
      var w := After(cfg, o, project, st, turns).watermark;
      && w.bootstrapCompleted == st.watermark.bootstrapCompleted
      && (forall k :: LastComplete(cfg, o, project, st, turns, k) ==> w.lastSynced == Some(turns[k].finished))
      && ((forall k :: 0 <= k < |turns| ==> !Completes(cfg, o, project, st, turns, k)) ==>
           w.lastSynced == st.watermark.lastSynced)
  {
    hide Completes, Pull;
    if turns != [] {
      var n := |turns| - 1;
      NextAsksSince(cfg, o, project, st, Front(turns));
      TurnMoves(cfg, o, project, st, turns);
      forall k | 0 <= k < n
        ensures Completes(cfg, o, project, st, Front(turns), k) <==> Completes(cfg, o, project, st, turns, k)
      {
        CompletesEarlier(cfg, o, project, st, turns, k);
      }
      forall k | LastComplete(cfg, o, project, st, turns, k)
        ensures k < n ==> LastComplete(cfg, o, project, st, Front(turns), k) && Front(turns)[k] == turns[k]
      {
      }
    }
  }

  /** The no-gap law: the cycle after a complete one that ended at `f`, with any interrupted ones between, processes
      exactly what its provider lists since `f`, and then its sweep. */
  lemma NextCycleContinues(cfg: Config, o: Options, project: ProjectId, st: PullState, turns: seq<Turn>, k: nat,
                           next: Turn)
    requires LastComplete(cfg, o, project, st, turns, k) && next.fault.NoFault?
    ensures
      var before := After(cfg, o, project, st, turns);
      var window := next.provider.changed(turns[k].finished);
      var pulled := Run(cfg, project, before, FromWindow(window));
      var missing := NotShown(pulled.store, project, window, pulled.store.listing);
      var swept := Run(cfg, project, pulled, UpTo(o.sweepLimit, Shown(next.provider.current, missing)));
      var after := After(cfg, o, project, st, turns + [next]);
      && after.store == swept.store && after.conflicts == swept.conflicts
      && after.watermark.lastSynced == Some(next.finished)
  {
    hide Run, Pull, Completes, NotShown, Shown, UpTo;
    var before := After(cfg, o, project, st, turns);
    NextAsksSince(cfg, o, project, st, turns);
    assert Front(turns + [next]) == turns;
    hide After;
    CompleteCycle(cfg, o, next.provider, project, before, next.started, next.finished, next.fault, turns[k].finished);
  }

  // ----- changes that no cycle asks for -----------------------------------------

  /** Cycles run one after the other. */
  predicate InOrder(t0: Time, turns: seq<Turn>) {
    && (turns != [] ==> t0 <= turns[0].started)
    && (forall i :: 0 <= i < |turns| ==> turns[i].started <= turns[i].finished)
    && (forall i, j :: 0 <= i < j < |turns| ==> turns[i].finished <= turns[j].started)
  }

  function From(cfg: Config, o: Options, project: ProjectId, st: PullState, turns: seq<Turn>, k: nat): Time
    requires k <= |turns|
  {
    After(cfg, o, project, st, turns[..k]).watermark.lastSynced.GetOr(0)
  }

  /** The time lies in the stretch that a complete cycle asks for: from the end of the one before to its own start. */
  ghost predicate AskedFor(cfg: Config, o: Options, project: ProjectId, st: PullState, turns: seq<Turn>, time: Time) {
    exists k :: 0 <= k < |turns| && Completes(cfg, o, project, st, turns, k)
                && From(cfg, o, project, st, turns, k) <= time < turns[k].started
  }

  /** A complete cycle was running. */
  ghost predicate WhileRunning(cfg: Config, o: Options, project: ProjectId, st: PullState, turns: seq<Turn>,
                               time: Time) {
    exists k :: 0 <= k < |turns| && Completes(cfg, o, project, st, turns, k)
                && turns[k].started <= time < turns[k].finished
  }

  lemma OneMoreTurn(cfg: Config, o: Options, project: ProjectId, st: PullState, turns: seq<Turn>, time: Time)
    requires turns != []
    ensures
      var n := |turns| - 1;
      var complete := Completes(cfg, o, project, st, turns, n);
      && (AskedFor(cfg, o, project, st, turns, time)
          <==> AskedFor(cfg, o, project, st, Front(turns), time)
               || (complete && From(cfg, o, project, st, turns, n) <= time < turns[n].started))
      && (WhileRunning(cfg, o, project, st, turns, time)
          <==> WhileRunning(cfg, o, project, st, Front(turns), time)
               || (complete && turns[n].started <= time < turns[n].finished))
      && From(cfg, o, project, st, turns, n) == From(cfg, o, project, st, Front(turns), n)
  {
    hide Completes, After;
    forall k | 0 <= k < |turns| - 1
      ensures Completes(cfg, o, project, st, Front(turns), k) <==> Completes(cfg, o, project, st, turns, k)
      ensures Front(turns)[..k] == turns[..k] && Front(turns)[k] == turns[k]
    {
      CompletesEarlier(cfg, o, project, st, turns, k);
    }
    assert Front(turns)[..|turns| - 1] == turns[..|turns| - 1];
  }

  /** Of every time the cycles have left behind: a complete cycle has asked for it, or one was running then. The
      times of the second kind are never asked for, because the sync time is read when a cycle ends. */
  lemma {:induction false} AskedForUnlessRunning(cfg: Config, o: Options, project: ProjectId, st: PullState,
                                                 turns: seq<Turn>, t0: Time, time: Time)
    requires st.watermark.lastSynced == Some(t0) && InOrder(t0, turns) && t0 <= time
    ensures
      var end := After(cfg, o, project, st, turns).watermark.lastSynced;
      && end.Some? && t0 <= end.value
      && end.value <= (if turns == [] then t0 else turns[|turns| - 1].finished)
      && (time < end.value ==>
           (AskedFor(cfg, o, project, st, turns, time) <==> !WhileRunning(cfg, o, project, st, turns, time)))
      && (time >= end.value ==>
           !AskedFor(cfg, o, project, st, turns, time) && !WhileRunning(cfg, o, project, st, turns, time))
  {
    hide Completes, Pull, AskedFor, WhileRunning;
    if turns == [] {
      NothingAsked(cfg, o, project, st, time);
    } else {
      var n := |turns| - 1;
      AskedForUnlessRunning(cfg, o, project, st, Front(turns), t0, time);
      TurnMoves(cfg, o, project, st, turns);
      OneMoreTurn(cfg, o, project, st, turns, time);
      assert Front(turns)[..n] == Front(turns);
    }
  }

  lemma NothingAsked(cfg: Config, o: Options, project: ProjectId, st: PullState, time: Time)
    ensures !AskedFor(cfg, o, project, st, [], time) && !WhileRunning(cfg, o, project, st, [], time)
  {
  }

  /** No cycle asks for a time before the sync time that the first one found. */
  lemma NothingEarlierIsAskedFor(cfg: Config, o: Options, project: ProjectId, st: PullState, turns: seq<Turn>,
                                 t0: Time, time: Time)
    requires st.watermark.lastSynced == Some(t0) && InOrder(t0, turns) && time < t0
    ensures !AskedFor(cfg, o, project, st, turns, time)
  {
    hide Completes, After;
    forall k | 0 <= k < |turns|
      ensures From(cfg, o, project, st, turns, k) >= t0
    {
      assert InOrder(t0, turns[..k]);
      AskedForUnlessRunning(cfg, o, project, st, turns[..k], t0, t0);
    }
  }

  /** An update of a package, with the time at which the provider recorded it. */
  datatype Update = Update(time: Time, snapshot: Snapshot)

  /** The provider, read at some time, lists exactly the updates recorded by then. */
  ghost predicate ListsUpdates(provider: Provider, log: seq<Update>, now: Time) {
    forall t, s :: s in provider.changed(t) <==> exists u :: u in log && u.snapshot == s && t <= u.time < now
  }

  /** An update is in the window of some complete cycle if and only if no complete cycle was running when it was
      recorded. */
  lemma UpdateIsListedIff(cfg: Config, o: Options, project: ProjectId, st: PullState, turns: seq<Turn>, t0: Time,
                          log: seq<Update>, u: Update)
    requires st.watermark.lastSynced == Some(t0) && InOrder(t0, turns)
    requires forall k :: 0 <= k < |turns| ==> ListsUpdates(turns[k].provider, log, turns[k].started)
    requires u in log && (forall v :: v in log && v.snapshot == u.snapshot ==> v == u)
    requires t0 <= u.time < After(cfg, o, project, st, turns).watermark.lastSynced.GetOr(t0)
    ensures
      (exists k :: 0 <= k < |turns| && Completes(cfg, o, project, st, turns, k)
                   && u.snapshot in turns[k].provider.changed(From(cfg, o, project, st, turns, k)))
      <==> !WhileRunning(cfg, o, project, st, turns, u.time)
  {
    hide Completes, After, WhileRunning, From, ListsUpdates;
    AskedForUnlessRunning(cfg, o, project, st, turns, t0, u.time);
    forall k | 0 <= k < |turns|
      ensures u.snapshot in turns[k].provider.changed(From(cfg, o, project, st, turns, k))
        <==> From(cfg, o, project, st, turns, k) <= u.time < turns[k].started
    {
      OnlyItsOwnTime(turns[k].provider, log, turns[k].started, u, From(cfg, o, project, st, turns, k));
    }
  }

  lemma OnlyItsOwnTime(provider: Provider, log: seq<Update>, now: Time, u: Update, t: Time)
    requires ListsUpdates(provider, log, now) && u in log
    requires forall v :: v in log && v.snapshot == u.snapshot ==> v == u
    ensures u.snapshot in provider.changed(t) <==> t <= u.time < now
  {
  }

  function Created(): Snapshot {
    Snapshot("7", "Seven", "", "Task", "", "New", None, None, None, [])
  }

  /** The provider at time `now`, when its only package was created at time 105. */
  function CreatedAt105(now: Time): Provider {
    Provider(t => if t <= 105 < now then [Created()] else [], map["7" := Created()])
  }

  /** A package created while a cycle runs: that cycle started too early to see it, the next one asks only for what
      came after the first one's end, and no sweep can find an item the store has never seen. */
  lemma CreatedWhileRunning(cfg: Config, o: Options)
    ensures
      var st := PullState(Store([Project(1, None)], map[], [], {}, map[], []), [], Watermark(Some(50), None, None));
      var turns := [Turn(CreatedAt105(100), 100, 110, NoFault), Turn(CreatedAt105(200), 200, 210, NoFault)];
      && ListsUpdates(CreatedAt105(200), [Update(105, Created())], 200)
      && After(cfg, o, 1, st, turns).store == st.store
  {
    hide Run, Pull, FromWindow;
    var st := PullState(Store([Project(1, None)], map[], [], {}, map[], []), [], Watermark(Some(50), None, None));
    var first, second := Turn(CreatedAt105(100), 100, 110, NoFault), Turn(CreatedAt105(200), 200, 210, NoFault);
    EmptyWindow(cfg, o, st, first, 50);
    assert Front([first]) == [] && Front([first, second]) == [first];
    assert After(cfg, o, 1, st, []) == st;
    var between := After(cfg, o, 1, st, [first]);
    assert between == Pull(cfg, o, first.provider, 1, st, first.started, first.finished, NoFault);
    EmptyWindow(cfg, o, between, second, 110);
    assert After(cfg, o, 1, st, [first, second])
      == Pull(cfg, o, second.provider, 1, between, second.started, second.finished, NoFault);
    var log := [Update(105, Created())];
    assert forall u :: u in log <==> u == Update(105, Created());
  }

  lemma EmptyWindow(cfg: Config, o: Options, st: PullState, turn: Turn, t: Time)
    requires st.watermark.lastSynced == Some(t) && st.store.listing == []
    requires turn.provider.changed(t) == [] && turn.fault.NoFault?
    ensures
      var r := Pull(cfg, o, turn.provider, 1, st, turn.started, turn.finished, NoFault);
      r.store == st.store && r.watermark.lastSynced == Some(turn.finished)
  {
    hide Pull;
    CompleteCycle(cfg, o, turn.provider, 1, st, turn.started, turn.finished, NoFault, t);
  }
}
