/** Watermark-driven pull of changed work packages (work_management_sync.py). */
module PullSync {
  import opened Prelude
  import opened Snapshots
  import opened Ingestion

  type Time = int

  const OVERLAP_SECONDS := 5
  const SECONDS_IN_A_DAY := 86400

  datatype Watermark = Watermark(
    lastSynced: Option<Time>, bootstrapCompleted: Option<Time>, lastExternalId: Option<ExtId>)

  datatype Conflict = Conflict(id: ExtId, field: string, providerValue: string, resolved: bool)

  datatype PullState = PullState(store: Store, conflicts: seq<Conflict>, watermark: Watermark)

  /** A provider held fixed: what it lists as changed since a time, and what it shows of one item. */
  datatype Provider = Provider(changed: Time -> seq<Snapshot>, current: map<ExtId, Snapshot>)

  /** What goes wrong, if anything: a page fetch finds an error, or a project the provider no longer shows, or
      one of the sweep's questions about single items raises. Pages and questions count from zero. */
  datatype Fault = NoFault | FetchFails(page: nat) | ProjectMissing(page: nat) | SweepFails(question: nat)

  datatype Options = Options(pageSize: nat, sinceDays: int, sweepLimit: int)

  function Since(w: Watermark, now: Time, sinceDays: int): Time {
    if w.lastSynced.Some? then w.lastSynced.value
    else if w.bootstrapCompleted.Some? then w.bootstrapCompleted.value - OVERLAP_SECONDS
    else now - sinceDays * SECONDS_IN_A_DAY
  }

  // ----- conflicts -----------------------------------------------------------

  predicate Open(c: Conflict, id: ExtId, value: string) {
    c.id == id && c.field == "status" && c.providerValue == value && !c.resolved
  }

  predicate HasOpen(conflicts: seq<Conflict>, id: ExtId, value: string) {
    exists c :: c in conflicts && Open(c, id, value)
  }

  /** The provider calls the work finished and the brain has not verified it. */
  predicate Disagrees(t: Tables, st: Store, s: Snapshot) {
    && t.status(s.state) in {Done, Cancelled}
    && s.externalId in st.items
    && st.items[s.externalId].verification != Passed
  }

  function Conflicts(t: Tables, st: Store, conflicts: seq<Conflict>, s: Snapshot): seq<Conflict> {
    if Disagrees(t, st, s) && !HasOpen(conflicts, s.externalId, s.state)
    then conflicts + [Conflict(s.externalId, "status", s.state, false)]
    else conflicts
  }

  // ----- one run -------------------------------------------------------------

  /** One work package taken from the window, or re-read by the sweep. */
  datatype Op = Op(snapshot: Snapshot, swept: bool)

  function PullCall(s: Snapshot, project: ProjectId): Call {
    Call(s, Live, Some(project), None, false)
  }

  function Step(cfg: Config, project: ProjectId, st: PullState, op: Op): PullState {
    var store := Ingest(cfg, st.store, PullCall(op.snapshot, project));
    st.(store := store,
      conflicts := if op.swept then st.conflicts else Conflicts(cfg.tables, store, st.conflicts, op.snapshot))
  }

  function Run(cfg: Config, project: ProjectId, st: PullState, ops: seq<Op>): PullState {
    if ops == [] then st else Step(cfg, project, Run(cfg, project, st, Front(ops)), Last(ops))
  }

  function FromWindow(window: seq<Snapshot>): seq<Op> {
    seq(|window|, i requires 0 <= i < |window| => Op(window[i], false))
  }

  /** A fault some questions away is one question closer after a question. */
  function Nearer(fails: Option<nat>): Option<nat> {
    if fails.Some? && fails.value > 0 then Some(fails.value - 1) else fails
  }

  /** The items a sweep re-reads, given the order in which the project lists its items, up to a question that
      raises, if one does. */
  function Picks(listed: seq<ExtId>, seen: seq<ExtId>, current: map<ExtId, Snapshot>, limit: int, fails: Option<nat>)
    : seq<Op>
  {
    if listed == [] || limit <= 0 then []
    else if listed[0] in seen then Picks(listed[1..], seen, current, limit, fails)
    else if fails == Some(0) then []
    else if listed[0] !in current then Picks(listed[1..], seen, current, limit, Nearer(fails))
    else [Op(current[listed[0]], true)] + Picks(listed[1..], seen, current, limit - 1, Nearer(fails))
  }

  /** The sweep reaches the question that raises. */
  predicate PicksRaise(
    listed: seq<ExtId>, seen: seq<ExtId>, current: map<ExtId, Snapshot>, limit: int, fails: Option<nat>)
  {
    if listed == [] || limit <= 0 then false
    else if listed[0] in seen then PicksRaise(listed[1..], seen, current, limit, fails)
    else if fails == Some(0) then true
    else if listed[0] !in current then PicksRaise(listed[1..], seen, current, limit, Nearer(fails))
    else PicksRaise(listed[1..], seen, current, limit - 1, Nearer(fails))
  }

  function Listed(st: Store, project: ProjectId, ids: seq<ExtId>): seq<ExtId> {
    if ids == [] then []
    else
      (if ids[0] in st.items && st.items[ids[0]].project == project then [ids[0]] else [])
      + Listed(st, project, ids[1..])
  }

  function Ids(window: seq<Snapshot>): seq<ExtId> {
    seq(|window|, i requires 0 <= i < |window| => window[i].externalId)
  }

  predicate AtPage(fault: Fault) {
    fault.FetchFails? || fault.ProjectMissing?
  }

  /** The part of the window that is processed before the fault stops the paging. */
  function Reached(window: seq<Snapshot>, pageSize: nat, fault: Fault): seq<Snapshot> {
    if !AtPage(fault) || fault.page * pageSize > |window| then window else window[..fault.page * pageSize]
  }

  predicate Aborts(window: seq<Snapshot>, pageSize: nat, fault: Fault) {
    fault.FetchFails? && fault.page * pageSize <= |window|
  }

  function SweepFault(fault: Fault): Option<nat> {
    if fault.SweepFails? then Some(fault.question) else None
  }

  /** The sweep of a run whose window part has been processed. */
  function SweepOps(o: Options, provider: Provider, project: ProjectId, before: Watermark, st: Store,
                    reached: seq<Snapshot>, fault: Fault): seq<Op> {
    if before.lastSynced.None? then []
    else Picks(Listed(st, project, st.listing), Ids(reached), provider.current, o.sweepLimit, SweepFault(fault))
  }

  predicate SweepRaises(o: Options, provider: Provider, project: ProjectId, before: Watermark, st: Store,
                        reached: seq<Snapshot>, fault: Fault) {
    before.lastSynced.Some?
    && PicksRaise(Listed(st, project, st.listing), Ids(reached), provider.current, o.sweepLimit, SweepFault(fault))
  }

  function Pull(cfg: Config, o: Options, provider: Provider, project: ProjectId, st: PullState,
                started: Time, finished: Time, fault: Fault): PullState {
    var window := provider.changed(Since(st.watermark, started, o.sinceDays));
    var reached := Reached(window, o.pageSize, fault);
    var pulled := Run(cfg, project, st, FromWindow(reached));
    if Aborts(window, o.pageSize, fault) then pulled
    else
      var sweep := SweepOps(o, provider, project, st.watermark, pulled.store, reached, fault);
      var swept := Run(cfg, project, pulled, sweep);
      if SweepRaises(o, provider, project, st.watermark, pulled.store, reached, fault) then swept
      else
        swept.(watermark := Watermark(Some(finished), st.watermark.bootstrapCompleted,
          if reached == [] then st.watermark.lastExternalId else Some(Last(reached).externalId)))
  }

  // ----- facts about runs ----------------------------------------------------

  lemma PicksStep(
      listed: seq<ExtId>, i: nat, seen: seq<ExtId>, current: map<ExtId, Snapshot>, limit: int, fails: Option<nat>)
    requires i < |listed| && limit > 0
    ensures Picks(listed[i..], seen, current, limit, fails)
      == if listed[i] in seen then Picks(listed[i + 1..], seen, current, limit, fails)
         else if fails == Some(0) then []
         else if listed[i] !in current then Picks(listed[i + 1..], seen, current, limit, Nearer(fails))
         else [Op(current[listed[i]], true)] + Picks(listed[i + 1..], seen, current, limit - 1, Nearer(fails))
    ensures PicksRaise(listed[i..], seen, current, limit, fails)
      == if listed[i] in seen then PicksRaise(listed[i + 1..], seen, current, limit, fails)
         else if fails == Some(0) then true
         else if listed[i] !in current then PicksRaise(listed[i + 1..], seen, current, limit, Nearer(fails))
         else PicksRaise(listed[i + 1..], seen, current, limit - 1, Nearer(fails))
  {
    assert listed[i..][1..] == listed[i + 1..];
  }

  lemma PicksEnd(
      listed: seq<ExtId>, i: nat, seen: seq<ExtId>, current: map<ExtId, Snapshot>, limit: int, fails: Option<nat>)
    requires i <= |listed|
    requires i == |listed| || limit <= 0
    ensures Picks(listed[i..], seen, current, limit, fails) == []
    ensures !PicksRaise(listed[i..], seen, current, limit, fails)
  {
  }

  lemma EmptyRun(cfg: Config, project: ProjectId, st: PullState)
    ensures Run(cfg, project, st, []) == st
  {
  }

  lemma RunOfNothing(cfg: Config, project: ProjectId, st: PullState, window: seq<Snapshot>)
    ensures Run(cfg, project, st, FromWindow(window[..0])) == st
    ensures Ids(window[..0]) == []
  {
  }

  lemma FaultBeyond(n: nat, size: nat, pages: nat, fault: Fault)
    requires n < pages * size
    requires !AtPage(fault) || pages <= fault.page
    ensures !AtPage(fault) || fault.page * size > n
  {
    if AtPage(fault) {
      assert pages * size <= fault.page * size;
    }
  }

  lemma PageCount(n: nat, size: nat, pages: nat)
    requires size >= 1 && 1 <= pages && (pages - 1) * size <= n < pages * size
    ensures n / size + 1 == pages
  {
    var q, r := n / size, n % size;
    assert n == q * size + r;
    assert q >= pages ==> q * size >= pages * size;
    assert q + 1 <= pages - 1 ==> (q + 1) * size <= (pages - 1) * size;
  }

  lemma {:induction false} RunConcat(cfg: Config, project: ProjectId, st: PullState, a: seq<Op>, b: seq<Op>)
    ensures Run(cfg, project, st, a + b) == Run(cfg, project, Run(cfg, project, st, a), b)
  {
    hide Step;
    if b == [] {
      assert a + b == a;
    } else {
      assert Front(a + b) == a + Front(b);
      RunConcat(cfg, project, st, a, Front(b));
    }
  }

  lemma RunPages(cfg: Config, project: ProjectId, st: PullState, window: seq<Snapshot>, lo: nat, hi: nat)
    requires lo <= hi <= |window|
    ensures Run(cfg, project, st, FromWindow(window[..hi]))
      == Run(cfg, project, Run(cfg, project, st, FromWindow(window[..lo])), FromWindow(window[lo..hi]))
    ensures Ids(window[..hi]) == Ids(window[..lo]) + Ids(window[lo..hi])
  {
    hide Run;
    assert window[..hi] == window[..lo] + window[lo..hi];
    assert FromWindow(window[..hi]) == FromWindow(window[..lo]) + FromWindow(window[lo..hi]);
    RunConcat(cfg, project, st, FromWindow(window[..lo]), FromWindow(window[lo..hi]));
  }

  // ----- the service ---------------------------------------------------------

  datatype PullResult = PullResult(aborted: bool, missing: bool, itemsPulled: nat, pagesFetched: nat, swept: nat)

  class PullSyncService {
    const ingestion: IngestionService
    const options: Options
    var conflicts: seq<Conflict>
    var watermark: Watermark

    function State(): PullState
      reads this, ingestion
    {
      PullState(ingestion.State(), conflicts, watermark)
    }

    constructor (ingestion: IngestionService, options: Options, conflicts: seq<Conflict>, watermark: Watermark)
      ensures this.ingestion == ingestion && this.options == options
      ensures State() == PullState(ingestion.State(), conflicts, watermark)
    {
      this.ingestion, this.options, this.watermark, this.conflicts := ingestion, options, watermark, conflicts;
    }

    method RecordStatusConflict(s: Snapshot) returns (recorded: nat)
      modifies this`conflicts
      ensures conflicts == Conflicts(ingestion.cfg.tables, ingestion.State(), old(conflicts), s)
      ensures |conflicts| == |old(conflicts)| + recorded
    {
      var status := ingestion.cfg.tables.status(s.state);
      if status != Done && status != Cancelled {
        return 0;
      }
      if s.externalId !in ingestion.items || ingestion.items[s.externalId].verification == Passed {
        return 0;
      }
      var i := 0;
      while i < |conflicts|
        invariant i <= |conflicts|
        invariant forall j :: 0 <= j < i ==> !Open(conflicts[j], s.externalId, s.state)
      {
        if Open(conflicts[i], s.externalId, s.state) {
          return 0;
        }
        i := i + 1;
      }
      conflicts := conflicts + [Conflict(s.externalId, "status", s.state, false)];
      return 1;
    }

    method PullPage(page: seq<Snapshot>, project: ProjectId)
      modifies this`conflicts, ingestion
      ensures State() == Run(ingestion.cfg, project, old(State()), FromWindow(page))
    {
      var i := 0;
      while i < |page|
        invariant i <= |page|
        invariant State() == Run(ingestion.cfg, project, old(State()), FromWindow(page[..i]))
      {
        var s := page[i];
        var _ := ingestion.IngestSnapshot(PullCall(s, project));
        var _ := RecordStatusConflict(s);
        assert Front(FromWindow(page[..i + 1])) == FromWindow(page[..i]);
        i := i + 1;
      }
      assert page[..i] == page;
    }

    /** Re-reads listed items the window did not show; `fails` is the question that raises, if one does. */
    method SweepMissing(provider: Provider, project: ProjectId, seen: seq<ExtId>, fails: Option<nat>)
      returns (raised: bool, swept: nat)
      modifies ingestion
      ensures
        var listed := Listed(old(ingestion.State()), project, old(ingestion.listing));
        var picks := Picks(listed, seen, provider.current, options.sweepLimit, fails);
        && State() == Run(ingestion.cfg, project, old(State()), picks)
        && raised == PicksRaise(listed, seen, provider.current, options.sweepLimit, fails)
        && swept == |picks|
    {
      hide Listed, Ingest, Picks, PicksRaise;
      var listed := Listed(ingestion.State(), project, ingestion.listing);
      ghost var picks := Picks(listed, seen, provider.current, options.sweepLimit, fails);
      assert listed[0..] == listed && picks[0..] == picks;
      raised, swept := false, 0;
      var i, left := 0, fails;
      while i < |listed| && swept < options.sweepLimit
        invariant i <= |listed| && swept <= |picks|
        invariant picks[swept..] == Picks(listed[i..], seen, provider.current, options.sweepLimit - swept, left)
        invariant PicksRaise(listed, seen, provider.current, options.sweepLimit, fails)
          == PicksRaise(listed[i..], seen, provider.current, options.sweepLimit - swept, left)
        invariant State() == Run(ingestion.cfg, project, old(State()), picks[..swept])
      {
        var id := listed[i];
        PicksStep(listed, i, seen, provider.current, options.sweepLimit - swept, left);
        i := i + 1;
        if id in seen {
          continue;
        }
        if left == Some(0) {
          assert picks[swept..] == [];
          assert picks[..swept] == picks;
          return true, swept;
        }
        left := Nearer(left);
        if id !in provider.current {
          continue;
        }
        assert picks[swept] == picks[swept..][0] && picks[swept + 1..] == picks[swept..][1..];
        var _ := ingestion.IngestSnapshot(PullCall(provider.current[id], project));
        assert Front(picks[..swept + 1]) == picks[..swept];
        swept := swept + 1;
      }
      PicksEnd(listed, i, seen, provider.current, options.sweepLimit - swept, left);
      assert picks[swept..] == [];
      assert picks[..swept] == picks;
    }

    /** The paging loop: processes the window until a short page, an error or a missing project. */
    method PullWindow(window: seq<Snapshot>, project: ProjectId, fault: Fault) returns (r: PullResult, seen: seq<ExtId>)
      requires options.pageSize >= 1
      modifies this`conflicts, ingestion
      ensures
        var reached := Reached(window, options.pageSize, fault);
        && State() == Run(ingestion.cfg, project, old(State()), FromWindow(reached))
        && seen == Ids(reached)
        && r.itemsPulled == |reached|
        && r.aborted == Aborts(window, options.pageSize, fault)
        && r.pagesFetched == (if !AtPage(fault) || fault.page * options.pageSize > |window|
                              then |window| / options.pageSize + 1 else fault.page)
    {
      hide Run, FromWindow, Ids;
      var size := options.pageSize;
      r, seen := PullResult(false, false, 0, 0, 0), [];
      var offset := 1;
      RunOfNothing(ingestion.cfg, project, State(), window);
      while true
        invariant offset == 1 + r.pagesFetched * size && offset - 1 <= |window|
        invariant !AtPage(fault) || r.pagesFetched <= fault.page
        invariant !r.aborted && !r.missing && r.itemsPulled == offset - 1
        invariant seen == Ids(window[..offset - 1])
        invariant State() == Run(ingestion.cfg, project, old(State()), FromWindow(window[..offset - 1]))
        decreases |window| - offset
      {
        if fault.FetchFails? && fault.page == r.pagesFetched {
          r := r.(aborted := true);
          return;
        }
        if fault.ProjectMissing? && fault.page == r.pagesFetched {
          r := r.(missing := true);
          return;
        }
        var end := if offset - 1 + size < |window| then offset - 1 + size else |window|;
        var page := window[offset - 1..end];
        PullPage(page, project);
        seen := seen + Ids(page);
        RunPages(ingestion.cfg, project, old(State()), window, offset - 1, end);
        r := r.(pagesFetched := r.pagesFetched + 1, itemsPulled := r.itemsPulled + |page|);
        if |page| < size {
          PageCount(|window|, size, r.pagesFetched);
          FaultBeyond(|window|, size, r.pagesFetched, fault);
          assert window[..end] == window;
          return;
        }
        offset := offset + size;
      }
    }

    /** One pull cycle; an error raised by a page fetch or in the sweep ends it with the watermark untouched. */
    method SyncProject(provider: Provider, project: ProjectId, started: Time, finished: Time, fault: Fault)
      returns (r: PullResult)
      requires options.pageSize >= 1
      modifies this, ingestion
      ensures State() == Pull(ingestion.cfg, options, provider, project, old(State()), started, finished, fault)
    {
      hide Run, FromWindow, Picks, PicksRaise, Listed;
      var window := provider.changed(Since(watermark, started, options.sinceDays));
      var seen;
      r, seen := PullWindow(window, project, fault);
      if r.aborted {
        return;
      }
      if watermark.lastSynced.Some? {
        var raised, swept := SweepMissing(provider, project, seen, SweepFault(fault));
        r := r.(swept := swept, aborted := raised);
        if raised {
          return;
        }
      } else {
        EmptyRun(ingestion.cfg, project, State());
      }
      watermark := watermark.(lastSynced := Some(finished),
        lastExternalId := if seen != [] then Some(Last(seen)) else watermark.lastExternalId);
    }
  }
}
