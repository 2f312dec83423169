/** Whole pull cycles: reruns of aborted cycles, when they leave exactly the plain result, and conflicts. */
module PullCycles {
  import opened Prelude
  import opened Snapshots
  import opened Ingestion
  import opened PullSync
  import opened PullReplay
  import TwoPass

  // ----- when the second look changes nothing --------------------------------

  /** Items known once the first `n` operations have been carried out. */
  function KnownAt(st: PullState, ops: seq<Op>, n: nat): set<ExtId>
    requires n <= |ops|
  {
    st.store.items.Keys + ById(ops[..n]).Keys
  }

  function ParentBefore(st: PullState, id: ExtId): Option<ExtId> {
    if id in st.store.items then st.store.items[id].parent else None
  }

  predicate LinkMade(t: Tables, st: PullState, ops: seq<Op>, l: Link) {
    exists j :: 0 <= j < |ops| && l in AllLinks(t, KnownAt(st, ops, j + 1), ops[j].snapshot)
  }

  /** No package of the prefix names, as parent or as the only mention of a relation, an item
      that first appears later in that prefix. */
  predicate NoForwardReference(t: Tables, st: PullState, ops: seq<Op>, n: nat)
    requires n <= |ops|
  {
    && (forall i :: 0 <= i < n ==>
          var p := ParentRef(ops[i].snapshot);
          p.Some? && p.value in KnownAt(st, ops, n) ==> p.value in KnownAt(st, ops, i + 1))
    && (forall l :: l in TwoPass.LinksOfBatch(t, KnownAt(st, ops, n), ById(ops[..n])) ==>
          l in st.store.relations || LinkMade(t, st, ops, l))
  }

  lemma KnownAtFront(st: PullState, ops: seq<Op>, i: nat)
    requires ops != [] && i < |ops|
    ensures KnownAt(st, Front(ops), i) == KnownAt(st, ops, i)
  {
    assert Front(ops)[..i] == ops[..i];
  }

  lemma KnownAtEnd(cfg: Config, project: ProjectId, st: PullState, ops: seq<Op>)
    requires HasProject(st.store.projects, project) && Distinct(ops) && ops != []
    ensures Run(cfg, project, st, Front(ops)).store.items.Keys + {Last(ops).snapshot.externalId}
      == KnownAt(st, ops, |ops|)
    ensures Run(cfg, project, st, Front(ops)).store.projects == st.store.projects
  {
    hide Run, HasProject, Settled;
    RunParts(cfg, project, st, Front(ops));
    assert ops[..|ops|] == ops;
    assert Snaps(Front(ops)) == Front(Snaps(ops));
  }

  /** The parent each processed item ends with in an uninterrupted run. */
  lemma {:induction false} PlainParents(cfg: Config, project: ProjectId, st: PullState, ops: seq<Op>, i: nat)
    requires HasProject(st.store.projects, project) && Distinct(ops) && i < |ops|
    ensures
      var s := ops[i].snapshot;
      var r := Run(cfg, project, st, ops);
      var p := ParentRef(s);
      && s.externalId in r.store.items
      && r.store.items[s.externalId].parent
         == if p.Some? && p.value in KnownAt(st, ops, i + 1) then p else ParentBefore(st, s.externalId)
  {
    hide Step, HasProject, AllLinks, Published, Conflicts, Upserted, KnownAt, ParentRef;
    var r := Run(cfg, project, st, Front(ops));
    ParentOfUpserted(cfg.tables, r.store, Last(ops).snapshot, project);
    KnownAtEnd(cfg, project, st, ops);
    StepParts(cfg, project, r, Last(ops));
    if i < |ops| - 1 {
      PlainParents(cfg, project, st, Front(ops), i);
      KnownAtFront(st, ops, i + 1);
    } else {
      UntouchedItem(cfg, project, st, Front(ops), ops[i].snapshot.externalId);
    }
  }

  lemma ParentOfUpserted(t: Tables, st: Store, s: Snapshot, project: ProjectId)
    ensures
      var p := ParentRef(s);
      Upserted(t, st, s, project).parent ==
      if p.Some? && p.value in st.items.Keys + {s.externalId} then p
      else if s.externalId in st.items then st.items[s.externalId].parent else None
  {
  }

  lemma {:induction false} UntouchedItem(cfg: Config, project: ProjectId, st: PullState, ops: seq<Op>, id: ExtId)
    requires HasProject(st.store.projects, project)
    requires forall i :: 0 <= i < |ops| ==> ops[i].snapshot.externalId != id
    ensures
      var r := Run(cfg, project, st, ops);
      && r.store.projects == st.store.projects
      && (id in r.store.items <==> id in st.store.items)
      && (id in st.store.items ==> r.store.items[id] == st.store.items[id])
  {
    hide Step, HasProject, Upserted, AllLinks, Published, Conflicts;
    if ops != [] {
      UntouchedItem(cfg, project, st, Front(ops), id);
      StepParts(cfg, project, Run(cfg, project, st, Front(ops)), Last(ops));
    }
  }

  /** The relations an uninterrupted run ends with. */
  lemma {:induction false} PlainRelations(cfg: Config, project: ProjectId, st: PullState, ops: seq<Op>, l: Link)
    requires HasProject(st.store.projects, project) && Distinct(ops)
    ensures l in Run(cfg, project, st, ops).store.relations
      <==> l in st.store.relations || LinkMade(cfg.tables, st, ops, l)
  {
    hide Step, HasProject, AllLinks, KnownAt, Upserted, Published, Conflicts;
    if ops != [] {
      PlainRelations(cfg, project, st, Front(ops), l);
      KnownAtEnd(cfg, project, st, ops);
      StepParts(cfg, project, Run(cfg, project, st, Front(ops)), Last(ops));
      LinkMadeStep(cfg.tables, st, ops, l);
    }
  }

  lemma LinkMadeStep(t: Tables, st: PullState, ops: seq<Op>, l: Link)
    requires ops != []
    ensures LinkMade(t, st, ops, l)
      <==> LinkMade(t, st, Front(ops), l) || l in AllLinks(t, KnownAt(st, ops, |ops|), Last(ops).snapshot)
  {
    hide AllLinks;
    if LinkMade(t, st, Front(ops), l) {
      var j :| 0 <= j < |ops| - 1 && l in AllLinks(t, KnownAt(st, Front(ops), j + 1), Front(ops)[j].snapshot);
      KnownAtFront(st, ops, j + 1);
    }
    if LinkMade(t, st, ops, l) {
      var j :| 0 <= j < |ops| && l in AllLinks(t, KnownAt(st, ops, j + 1), ops[j].snapshot);
      if j < |ops| - 1 {
        KnownAtFront(st, ops, j + 1);
        assert Front(ops)[j] == ops[j];
      }
    }
  }

  /** Exactly when aborted runs and a complete one leave the state of the uninterrupted run:
      the prefix they had reached holds no forward reference. */
  lemma RerunIsPlainIff(cfg: Config, project: ProjectId, st: PullState, ops: seq<Op>, stops: seq<nat>)
    requires HasProject(st.store.projects, project) && Distinct(ops) && Within(stops, |ops|)
    requires ParentsExist(st.store)
    ensures Furthest(stops) <= |ops|
    ensures Run(cfg, project, Attempts(cfg, project, st, ops, stops), ops) == Run(cfg, project, st, ops)
      <==> NoForwardReference(cfg.tables, st, ops, Furthest(stops))
  {
    hide Run, HasProject, AllLinks, TwoPass.LinksOfBatch, LinkMade;
    RerunIsSecondLook(cfg, project, st, ops, stops);
    var t, n := cfg.tables, Furthest(stops);
    var m, known := ById(ops[..n]), KnownAt(st, ops, n);
    var u := Run(cfg, project, st, ops);
    UpToFacts(cfg, project, st, ops, n);
    forall l
      ensures l in u.store.relations <==> l in st.store.relations || LinkMade(t, st, ops, l)
    {
      PlainRelations(cfg, project, st, ops, l);
    }
    UpgradeRelations(t, u, known, m);
    UpgradeParents(cfg, project, st, ops, n);
    UpgradeSame(t, u, known, m);
  }

  lemma UpgradeRelations(t: Tables, u: PullState, known: set<ExtId>, m: map<ExtId, Snapshot>)
    ensures Upgrade(t, u, known, m).store.relations == u.store.relations
      <==> forall l :: l in TwoPass.LinksOfBatch(t, known, m) ==> l in u.store.relations
  {
    hide TwoPass.LinksOfBatch;
  }

  lemma UpgradeSame(t: Tables, u: PullState, known: set<ExtId>, m: map<ExtId, Snapshot>)
    ensures Upgrade(t, u, known, m) == u
      <==> Upgrade(t, u, known, m).store.relations == u.store.relations
           && Upgrade(t, u, known, m).store.items == u.store.items
  {
    hide TwoPass.LinksOfBatch;
  }

  lemma UpgradeParents(cfg: Config, project: ProjectId, st: PullState, ops: seq<Op>, n: nat)
    requires HasProject(st.store.projects, project) && Distinct(ops) && n <= |ops|
    requires ParentsExist(st.store)
    ensures
      var u := Run(cfg, project, st, ops);
      Upgrade(cfg.tables, u, KnownAt(st, ops, n), ById(ops[..n])).store.items == u.store.items
      <==> forall i :: 0 <= i < n ==>
             var p := ParentRef(ops[i].snapshot);
             p.Some? && p.value in KnownAt(st, ops, n) ==> p.value in KnownAt(st, ops, i + 1)
  {
    hide Run, HasProject, AllLinks, TwoPass.LinksOfBatch, ById;
    var u, known, m := Run(cfg, project, st, ops), KnownAt(st, ops, n), ById(ops[..n]);
    var g := Upgrade(cfg.tables, u, known, m);
    forall i | 0 <= i < n
      ensures
        var s := ops[i].snapshot;
        var p := ParentRef(s);
        && s.externalId in u.store.items && s.externalId in m && m[s.externalId] == s
        && (g.store.items[s.externalId] == u.store.items[s.externalId]
            <==> (p.Some? && p.value in known ==> p.value in KnownAt(st, ops, i + 1)))
    {
      PlainParents(cfg, project, st, ops, i);
      PrefixIds(ops, n, i);
    }
    if forall i :: 0 <= i < n ==>
        var p := ParentRef(ops[i].snapshot);
        p.Some? && p.value in known ==> p.value in KnownAt(st, ops, i + 1)
    {
      forall id | id in m && id in u.store.items
        ensures g.store.items[id] == u.store.items[id]
      {
        var i := IndexOf(ops, n, id);
      }
      assert g.store.items == u.store.items;
    }
  }

  lemma IndexOf(ops: seq<Op>, n: nat, id: ExtId) returns (i: nat)
    requires Distinct(ops) && n <= |ops| && id in ById(ops[..n])
    ensures i < n && ops[i].snapshot.externalId == id
  {
    TwoPass.ByIdIsBatch(Snaps(ops[..n]));
    i :| 0 <= i < n && Snaps(ops[..n])[i] == ById(ops[..n])[id];
  }

  // ----- a forward reference does make a difference --------------------------

  function Package(id: ExtId, parent: Option<int>): Snapshot {
    Snapshot(id, "a package", "", "Task", "", "New", None, None, parent, [])
  }

  /** A child listed before its parent, an error at the third page, and a rerun: the rerun finds
      the parent that an uninterrupted pull leaves unresolved. */
  lemma ForwardReferenceMatters()
    ensures
      var t := Tables((n: string) => n, (n: string) => New, (n: string) => None, (n: string) => None, (n: string) => 0);
      var cfg := Config(t, None);
      var st := PullState(Store([Project(1, None)], map[], [], {}, map[], []), [], Watermark(None, None, None));
      var ops := [Op(Package("1", Some(2)), false), Op(Package("2", None), false)];
      && Run(cfg, 1, st, ops).store.items.Keys >= {"1"}
      && Run(cfg, 1, st, ops).store.items["1"].parent == None
      && Run(cfg, 1, Attempts(cfg, 1, st, ops, [2]), ops) != Run(cfg, 1, st, ops)
  {
    hide Run, Attempts, LinkMade, TwoPass.LinksOfBatch, AllLinks;
    var t := Tables((n: string) => n, (n: string) => New, (n: string) => None, (n: string) => None, (n: string) => 0);
    var cfg := Config(t, None);
    var st := PullState(Store([Project(1, None)], map[], [], {}, map[], []), [], Watermark(None, None, None));
    var ops := [Op(Package("1", Some(2)), false), Op(Package("2", None), false)];
    assert Project(1, None) in st.store.projects;
    assert "1" != "2" by { assert "1"[0] != "2"[0]; }
    assert ParentRef(ops[0].snapshot) == Some("2") by { assert Decimal(2) == "2"; }
    PrefixIds(ops, 2, 1);
    PrefixFresh(ops, 1, 1);
    assert Furthest([2]) == 2 by { assert Front<nat>([2]) == []; }
    PlainParents(cfg, 1, st, ops, 0);
    RerunIsPlainIff(cfg, 1, st, ops, [2]);
  }

  // ----- what a sweep re-reads -----------------------------------------------

  /** Outside the seen items, `b` lists what `a` lists: only seen items were added, and the others kept their
      project. */
  ghost predicate SameBeyond(a: Store, b: Store, seen: seq<ExtId>) {
    && a.projects == b.projects
    && a.listing <= b.listing
    && (forall i :: |a.listing| <= i < |b.listing| ==> b.listing[i] in seen)
    && (forall id :: id !in seen ==> (id in a.items <==> id in b.items))
    && (forall id :: id !in seen && id in a.items && id in b.items ==> a.items[id].project == b.items[id].project)
  }

  lemma StepBeyond(cfg: Config, project: ProjectId, a: Store, st: PullState, op: Op, seen: seq<ExtId>)
    requires HasProject(st.store.projects, project) && SameBeyond(a, st.store, seen)
    requires op.snapshot.externalId in seen || op.snapshot.externalId in a.items
    ensures SameBeyond(a, Step(cfg, project, st, op).store, seen)
    ensures Step(cfg, project, st, op).watermark == st.watermark
  {
    hide Step, HasProject, AllLinks, Published, Conflicts;
    StepParts(cfg, project, st, op);
  }

  lemma {:induction false} RunBeyond(
      cfg: Config, project: ProjectId, a: Store, st: PullState, ops: seq<Op>, seen: seq<ExtId>)
    requires HasProject(st.store.projects, project) && SameBeyond(a, st.store, seen)
    requires forall op :: op in ops ==> op.snapshot.externalId in seen || op.snapshot.externalId in a.items
    ensures SameBeyond(a, Run(cfg, project, st, ops).store, seen)
    ensures Run(cfg, project, st, ops).watermark == st.watermark
  {
    hide Step, HasProject;
    if ops != [] {
      assert forall op :: op in Front(ops) ==> op in ops;
      RunBeyond(cfg, project, a, st, Front(ops), seen);
      StepBeyond(cfg, project, a, Run(cfg, project, st, Front(ops)), Last(ops), seen);
    }
  }

  function Unseen(ids: seq<ExtId>, seen: seq<ExtId>): seq<ExtId> {
    if ids == [] then [] else (if ids[0] in seen then [] else [ids[0]]) + Unseen(ids[1..], seen)
  }

  lemma {:induction false} PicksSkipSeen(
      listed: seq<ExtId>, seen: seq<ExtId>, current: map<ExtId, Snapshot>, limit: int, fails: Option<nat>)
    ensures Picks(listed, seen, current, limit, fails) == Picks(Unseen(listed, seen), seen, current, limit, fails)
    ensures PicksRaise(listed, seen, current, limit, fails)
      == PicksRaise(Unseen(listed, seen), seen, current, limit, fails)
  {
    if listed != [] && limit > 0 {
      var rest := Unseen(listed[1..], seen);
      PicksSkipSeen(listed[1..], seen, current, limit, fails);
      PicksSkipSeen(listed[1..], seen, current, limit, Nearer(fails));
      PicksSkipSeen(listed[1..], seen, current, limit - 1, Nearer(fails));
      hide Picks, PicksRaise;
      assert listed[0..] == listed;
      PicksStep(listed, 0, seen, current, limit, fails);
      assert [] + rest == rest;
      if listed[0] !in seen {
        var kept := [listed[0]] + rest;
        assert Unseen(listed, seen) == kept && kept[0..] == kept && kept[1..] == rest;
        PicksStep(kept, 0, seen, current, limit, fails);
      }
    }
  }

  lemma {:induction false} UnseenListed(a: Store, b: Store, project: ProjectId, ids: seq<ExtId>, seen: seq<ExtId>)
    requires SameBeyond(a, b, seen)
    ensures Unseen(Listed(b, project, ids), seen) == Unseen(Listed(a, project, ids), seen)
  {
    if ids != [] {
      UnseenListed(a, b, project, ids[1..], seen);
      UnseenCons(ids[0], Listed(a, project, ids[1..]), seen);
      UnseenCons(ids[0], Listed(b, project, ids[1..]), seen);
      hide SameBeyond, Unseen;
    }
  }

  lemma UnseenCons(id: ExtId, ids: seq<ExtId>, seen: seq<ExtId>)
    ensures Unseen([id] + ids, seen) == (if id in seen then [] else [id]) + Unseen(ids, seen)
    ensures [] + ids == ids && [] + Unseen(ids, seen) == Unseen(ids, seen)
  {
    assert ([id] + ids)[1..] == ids;
  }

  lemma {:induction false} UnseenExtra(b: Store, project: ProjectId, ids: seq<ExtId>, n: nat, seen: seq<ExtId>)
    requires n <= |ids| && forall i :: n <= i < |ids| ==> ids[i] in seen
    ensures Unseen(Listed(b, project, ids), seen) == Unseen(Listed(b, project, ids[..n]), seen)
  {
    if ids != [] {
      UnseenExtra(b, project, ids[1..], if n == 0 then 0 else n - 1, seen);
      UnseenCons(ids[0], Listed(b, project, ids[1..]), seen);
      if n > 0 {
        assert ids[1..][..n - 1] == ids[..n][1..];
        UnseenCons(ids[0], Listed(b, project, ids[..n][1..]), seen);
      }
      hide Unseen;
    }
  }

  /** A sweep re-reads the same items before the window was processed, after it, and in the middle of itself. */
  lemma SweepIsStable(a: Store, b: Store, project: ProjectId, seen: seq<ExtId>, current: map<ExtId, Snapshot>,
                      limit: int, fails: Option<nat>)
    requires SameBeyond(a, b, seen)
    ensures Picks(Listed(b, project, b.listing), seen, current, limit, fails)
      == Picks(Listed(a, project, a.listing), seen, current, limit, fails)
    ensures PicksRaise(Listed(b, project, b.listing), seen, current, limit, fails)
      == PicksRaise(Listed(a, project, a.listing), seen, current, limit, fails)
  {
    var la, lb := Listed(a, project, a.listing), Listed(b, project, b.listing);
    UnseenExtra(b, project, b.listing, |a.listing|, seen);
    assert b.listing[..|a.listing|] == a.listing;
    UnseenListed(a, b, project, a.listing, seen);
    PicksSkipSeen(la, seen, current, limit, fails);
    PicksSkipSeen(lb, seen, current, limit, fails);
  }

  predicate NoRepeats(ids: seq<ExtId>) {
    forall i, j :: 0 <= i < j < |ids| ==> ids[i] != ids[j]
  }

  lemma {:induction false} ListedFacts(st: Store, project: ProjectId, ids: seq<ExtId>)
    ensures forall id :: id in Listed(st, project, ids) ==> id in ids && id in st.items
    ensures NoRepeats(ids) ==> NoRepeats(Listed(st, project, ids))
  {
    if ids != [] {
      ListedFacts(st, project, ids[1..]);
      var rest := Listed(st, project, ids[1..]);
      assert [] + rest == rest;
      assert forall id :: id in ids[1..] ==> id in ids;
      if NoRepeats(ids) {
        assert NoRepeats(ids[1..]);
        NoRepeatsCons(ids[0], ids[1..], rest);
        assert [ids[0]] + ids[1..] == ids;
      }
      hide NoRepeats;
    }
  }

  lemma NoRepeatsCons(id: ExtId, ids: seq<ExtId>, rest: seq<ExtId>)
    requires NoRepeats([id] + ids) && NoRepeats(rest) && forall x :: x in rest ==> x in ids
    ensures NoRepeats([id] + rest)
  {
    forall i | 0 <= i < |rest|
      ensures rest[i] != id
    {
      assert rest[i] in ids;
      var j :| 0 <= j < |ids| && ids[j] == rest[i];
      assert ([id] + ids)[0] != ([id] + ids)[j + 1];
    }
  }

  /** The provider answers a request for an item with that item. */
  predicate Honest(provider: Provider) {
    forall id :: id in provider.current ==> provider.current[id].externalId == id
  }

  lemma {:induction false} PicksFacts(listed: seq<ExtId>, seen: seq<ExtId>, provider: Provider, limit: int)
    requires Honest(provider)
    ensures forall op :: op in Picks(listed, seen, provider.current, limit, None) ==>
      op.snapshot.externalId !in seen && op.snapshot.externalId in listed
    ensures NoRepeats(listed) ==> Distinct(Picks(listed, seen, provider.current, limit, None))
  {
    if listed != [] && limit > 0 {
      PicksFacts(listed[1..], seen, provider, limit);
      PicksFacts(listed[1..], seen, provider, limit - 1);
    }
  }

  lemma {:induction false} PicksUpToFault(
      listed: seq<ExtId>, seen: seq<ExtId>, current: map<ExtId, Snapshot>, limit: int, fails: Option<nat>)
    ensures Picks(listed, seen, current, limit, fails) <= Picks(listed, seen, current, limit, None)
    ensures !PicksRaise(listed, seen, current, limit, None)
  {
    if listed != [] && limit > 0 {
      PicksUpToFault(listed[1..], seen, current, limit, fails);
      PicksUpToFault(listed[1..], seen, current, limit, Nearer(fails));
      PicksUpToFault(listed[1..], seen, current, limit - 1, Nearer(fails));
    }
  }

  // ----- whole cycles --------------------------------------------------------

  /** A cycle, what interrupts it, and its clock reading. */
  datatype Cycle = Cycle(fault: Fault, started: Time)

  function AbortedCycles(cfg: Config, o: Options, provider: Provider, project: ProjectId, st: PullState,
                         cycles: seq<Cycle>): PullState {
    if cycles == [] then st
    else
      var c := Last(cycles);
      Pull(cfg, o, provider, project, AbortedCycles(cfg, o, provider, project, st, Front(cycles)), c.started, c.started,
        c.fault)
  }

  /** The pull window depends on the clock only before the first pull of a project that was never bootstrapped. */
  predicate Anchored(w: Watermark) {
    w.lastSynced.Some? || w.bootstrapCompleted.Some?
  }

  lemma WindowIgnoresClockIff(w: Watermark, sinceDays: int)
    ensures (forall a, b :: Since(w, a, sinceDays) == Since(w, b, sinceDays)) <==> Anchored(w)
  {
    if !Anchored(w) {
      assert Since(w, 0, sinceDays) != Since(w, 1, sinceDays);
    }
  }

  function Window(o: Options, provider: Provider, w: Watermark): seq<Snapshot> {
    provider.changed(Since(w, 0, o.sinceDays))
  }

  function SweepFrom(o: Options, provider: Provider, project: ProjectId, st: PullState, fault: Fault): seq<Op> {
    SweepOps(o, provider, project, st.watermark, st.store, Window(o, provider, st.watermark), fault)
  }

  /** Everything an uninterrupted cycle carries out: the window, and then the sweep of what it did not show. */
  function CycleOps(o: Options, provider: Provider, project: ProjectId, st: PullState): seq<Op> {
    FromWindow(Window(o, provider, st.watermark)) + SweepFrom(o, provider, project, st, NoFault)
  }

  /** A page fetch or a question of the sweep raises. */
  predicate Interrupts(o: Options, provider: Provider, project: ProjectId, st: PullState, fault: Fault) {
    var window := Window(o, provider, st.watermark);
    Aborts(window, o.pageSize, fault) || SweepRaises(o, provider, project, st.watermark, st.store, window, fault)
  }

  /** How many of its operations an interrupted cycle carries out. */
  function Stop(o: Options, provider: Provider, project: ProjectId, st: PullState, fault: Fault): nat {
    if fault.FetchFails? then fault.page * o.pageSize
    else |Window(o, provider, st.watermark)| + |SweepFrom(o, provider, project, st, fault)|
  }

  function Stops(o: Options, provider: Provider, project: ProjectId, st: PullState, cycles: seq<Cycle>): seq<nat> {
    seq(|cycles|, i requires 0 <= i < |cycles| => Stop(o, provider, project, st, cycles[i].fault))
  }

  lemma CycleOpsReach(o: Options, provider: Provider, project: ProjectId, st: PullState)
    requires Honest(provider)
    ensures
      var seen := Ids(Window(o, provider, st.watermark));
      forall op :: op in CycleOps(o, provider, project, st) ==>
        op.snapshot.externalId in seen || op.snapshot.externalId in st.store.items
  {
    var window := Window(o, provider, st.watermark);
    var listed := Listed(st.store, project, st.store.listing);
    ListedFacts(st.store, project, st.store.listing);
    PicksFacts(listed, Ids(window), provider, o.sweepLimit);
    forall op | op in FromWindow(window)
      ensures op.snapshot.externalId in Ids(window)
    {
      var i :| 0 <= i < |window| && FromWindow(window)[i] == op;
      assert Ids(window)[i] == op.snapshot.externalId;
    }
  }

  lemma CycleOpsDistinct(o: Options, provider: Provider, project: ProjectId, st: PullState)
    requires Honest(provider) && NoRepeats(st.store.listing)
    requires TwoPass.DistinctIds(Window(o, provider, st.watermark))
    ensures Distinct(CycleOps(o, provider, project, st))
  {
    var window := Window(o, provider, st.watermark);
    ListedFacts(st.store, project, st.store.listing);
    PicksFacts(Listed(st.store, project, st.store.listing), Ids(window), provider, o.sweepLimit);
    var sweep := SweepFrom(o, provider, project, st, NoFault);
    forall i, j | 0 <= i < |window| && 0 <= j < |sweep|
      ensures window[i].externalId != sweep[j].snapshot.externalId
    {
      assert Ids(window)[i] == window[i].externalId && sweep[j] in sweep;
    }
    hide Picks, Listed;
  }

  /** A cycle from any state that differs from `st` only in what a cycle may change: interrupted, it is a prefix of
      the operations read off `st`, and complete, it is all of them. */
  lemma CycleIsRun(cfg: Config, o: Options, provider: Provider, project: ProjectId, st: PullState, now: PullState,
                   fault: Fault, started: Time, finished: Time)
    requires Anchored(st.watermark) && Honest(provider) && HasProject(st.store.projects, project)
    requires now.watermark == st.watermark
    requires SameBeyond(st.store, now.store, Ids(Window(o, provider, st.watermark)))
    requires fault.NoFault? || Interrupts(o, provider, project, st, fault)
    ensures !fault.NoFault? ==> Stop(o, provider, project, st, fault) <= |CycleOps(o, provider, project, st)|
    ensures
      var ops, window := CycleOps(o, provider, project, st), Window(o, provider, st.watermark);
      Pull(cfg, o, provider, project, now, started, finished, fault) ==
      if fault.NoFault? then
        Run(cfg, project, now, ops).(watermark := Watermark(Some(finished), st.watermark.bootstrapCompleted,
          if window == [] then st.watermark.lastExternalId else Some(Last(window).externalId)))
      else Run(cfg, project, now, ops[..Stop(o, provider, project, st, fault)])
  {
    hide Run, Picks, PicksRaise, Listed, HasProject, SameBeyond, Honest, FromWindow, Ids;
    WindowIgnoresClockIff(st.watermark, o.sinceDays);
    var window := Window(o, provider, st.watermark);
    var ops, seen, fails := CycleOps(o, provider, project, st), Ids(window), SweepFault(fault);
    var pulled := Run(cfg, project, now, FromWindow(window));
    PicksUpToFault(Listed(st.store, project, st.store.listing), seen, provider.current, o.sweepLimit, fails);
    if Aborts(window, o.pageSize, fault) {
      WindowPrefix(window, SweepFrom(o, provider, project, st, NoFault), fault.page * o.pageSize);
    } else {
      CycleOpsReach(o, provider, project, st);
      SameProjects(st.store, now.store, seen);
      assert forall op :: op in FromWindow(window) ==> op in ops;
      RunBeyond(cfg, project, st.store, now, FromWindow(window), seen);
      SweepIsStable(st.store, pulled.store, project, seen, provider.current, o.sweepLimit, fails);
      var sweep := SweepFrom(o, provider, project, st, fault);
      RunConcat(cfg, project, now, FromWindow(window), sweep);
      RunBeyondWatermark(cfg, project, pulled, sweep);
      assert window[..|window|] == window;
      WindowPrefix(window, SweepFrom(o, provider, project, st, NoFault), |window|);
      assert FromWindow(window) + sweep == ops[..|window| + |sweep|];
      assert ops[..|ops|] == ops;
      EmptyRun(cfg, project, pulled);
    }
  }

  lemma WindowPrefix(window: seq<Snapshot>, sweep: seq<Op>, k: nat)
    requires k <= |window|
    ensures FromWindow(window[..k]) == (FromWindow(window) + sweep)[..k]
    ensures |FromWindow(window)| == |window|
  {
  }

  lemma SameProjects(a: Store, b: Store, seen: seq<ExtId>)
    requires SameBeyond(a, b, seen)
    ensures a.projects == b.projects
  {
  }

  lemma {:induction false} RunBeyondWatermark(cfg: Config, project: ProjectId, st: PullState, ops: seq<Op>)
    ensures Run(cfg, project, st, ops).watermark == st.watermark
  {
    if ops != [] {
      RunBeyondWatermark(cfg, project, st, Front(ops));
    }
  }

  lemma {:induction false} AbortedAreAttempts(cfg: Config, o: Options, provider: Provider, project: ProjectId,
                                              st: PullState, cycles: seq<Cycle>)
    requires Anchored(st.watermark) && Honest(provider) && HasProject(st.store.projects, project)
    requires forall c :: c in cycles ==> Interrupts(o, provider, project, st, c.fault)
    ensures Within(Stops(o, provider, project, st, cycles), |CycleOps(o, provider, project, st)|)
    ensures
      var r := AbortedCycles(cfg, o, provider, project, st, cycles);
      && r == Attempts(cfg, project, st, CycleOps(o, provider, project, st), Stops(o, provider, project, st, cycles))
      && r.watermark == st.watermark
      && SameBeyond(st.store, r.store, Ids(Window(o, provider, st.watermark)))
  {
    hide Run, Pull, CycleOps, Stop, HasProject, Honest, Interrupts, SameBeyond;
    var seen := Ids(Window(o, provider, st.watermark));
    if cycles == [] {
      SameBeyondItself(st.store, seen);
    } else {
      var c, ops := Last(cycles), CycleOps(o, provider, project, st);
      assert forall x :: x in Front(cycles) ==> x in cycles;
      AbortedAreAttempts(cfg, o, provider, project, st, Front(cycles));
      var before := AbortedCycles(cfg, o, provider, project, st, Front(cycles));
      assert Front(Stops(o, provider, project, st, cycles)) == Stops(o, provider, project, st, Front(cycles));
      var k := Stop(o, provider, project, st, c.fault);
      NoFaultInterruptsNothing(o, provider, project, st);
      CycleIsRun(cfg, o, provider, project, st, before, c.fault, c.started, c.started);
      CycleOpsReach(o, provider, project, st);
      SameProjects(st.store, before.store, seen);
      assert forall op :: op in ops[..k] ==> op in ops;
      RunBeyond(cfg, project, st.store, before, ops[..k], seen);
      forall i | 0 <= i < |cycles|
        ensures Stops(o, provider, project, st, cycles)[i] <= |ops|
      {
        if i < |cycles| - 1 {
          assert Stops(o, provider, project, st, Front(cycles))[i] <= |ops|;
        }
      }
    }
  }

  lemma SameBeyondItself(st: Store, seen: seq<ExtId>)
    ensures SameBeyond(st, st, seen)
  {
  }

  lemma NoFaultInterruptsNothing(o: Options, provider: Provider, project: ProjectId, st: PullState)
    ensures !Interrupts(o, provider, project, st, NoFault)
  {
    PicksUpToFault(Listed(st.store, project, st.store.listing), Ids(Window(o, provider, st.watermark)),
      provider.current, o.sweepLimit, None);
  }

  /** What every statement about whole cycles needs: a clock that does not matter, an honest provider that lists each
      package once, a store that lists each item once, and cycles that are all interrupted. */
  predicate Sound(o: Options, provider: Provider, project: ProjectId, st: PullState, cycles: seq<Cycle>) {
    && Anchored(st.watermark) && Honest(provider)
    && HasProject(st.store.projects, project) && NoRepeats(st.store.listing)
    && TwoPass.DistinctIds(Window(o, provider, st.watermark))
    && forall c :: c in cycles ==> Interrupts(o, provider, project, st, c.fault)
  }

  /** Interrupted cycles, at any clock readings and in the window or the sweep, followed by a complete one: the
      uninterrupted cycle plus a second look at the furthest prefix reached. Conflicts, baselines, watermark and
      every published event are those of the uninterrupted cycle. */
  lemma AbortedCyclesThenPull(cfg: Config, o: Options, provider: Provider, project: ProjectId, st: PullState,
                              cycles: seq<Cycle>, started: Time, started': Time, finished: Time)
    requires Sound(o, provider, project, st, cycles)
    ensures Furthest(Stops(o, provider, project, st, cycles)) <= |CycleOps(o, provider, project, st)|
    ensures
      var ops := CycleOps(o, provider, project, st);
      var n := Furthest(Stops(o, provider, project, st, cycles));
      var u := Pull(cfg, o, provider, project, st, started', finished, NoFault);
      var a := AbortedCycles(cfg, o, provider, project, st, cycles);
      var r := Pull(cfg, o, provider, project, a, started, finished, NoFault);
      && r == Upgrade(cfg.tables, u, KnownAt(st, ops, n), ById(ops[..n]))
      && r.store.events == u.store.events
      && r.store.baselines == u.store.baselines
      && r.conflicts == u.conflicts
      && r.watermark == u.watermark
  {
    hide Run, Pull, CycleOps, Stops, HasProject, Honest, Interrupts, TwoPass.LinksOfBatch, TwoPass.DistinctIds;
    var ops, stops := CycleOps(o, provider, project, st), Stops(o, provider, project, st, cycles);
    var a, n := AbortedCycles(cfg, o, provider, project, st, cycles), Furthest(stops);
    AbortedAreAttempts(cfg, o, provider, project, st, cycles);
    SameBeyondItself(st.store, Ids(Window(o, provider, st.watermark)));
    CycleIsRun(cfg, o, provider, project, st, st, NoFault, started', finished);
    CycleIsRun(cfg, o, provider, project, st, a, NoFault, started, finished);
    CycleOpsDistinct(o, provider, project, st);
    RerunIsSecondLook(cfg, project, st, ops, stops);
    UpToFacts(cfg, project, st, ops, n);
  }

  /** For whole cycles, sweep included: the rerun leaves exactly what the uninterrupted cycle leaves if and only if the
      prefix that had been reached holds no forward reference. */
  lemma RerunCycleIsPlainIff(cfg: Config, o: Options, provider: Provider, project: ProjectId, st: PullState,
                             cycles: seq<Cycle>, started: Time, started': Time, finished: Time)
    requires Sound(o, provider, project, st, cycles) && ParentsExist(st.store)
    ensures Furthest(Stops(o, provider, project, st, cycles)) <= |CycleOps(o, provider, project, st)|
    ensures
      Pull(cfg, o, provider, project, AbortedCycles(cfg, o, provider, project, st, cycles), started, finished, NoFault)
      == Pull(cfg, o, provider, project, st, started', finished, NoFault)
      <==> NoForwardReference(cfg.tables, st, CycleOps(o, provider, project, st),
             Furthest(Stops(o, provider, project, st, cycles)))
  {
    hide Run, Pull, CycleOps, Stops, HasProject, Honest, Interrupts, NoForwardReference, ParentsExist,
      TwoPass.DistinctIds;
    var ops, stops := CycleOps(o, provider, project, st), Stops(o, provider, project, st, cycles);
    var a := AbortedCycles(cfg, o, provider, project, st, cycles);
    AbortedAreAttempts(cfg, o, provider, project, st, cycles);
    SameBeyondItself(st.store, Ids(Window(o, provider, st.watermark)));
    CycleIsRun(cfg, o, provider, project, st, st, NoFault, started', finished);
    CycleIsRun(cfg, o, provider, project, st, a, NoFault, started, finished);
    CycleOpsDistinct(o, provider, project, st);
    RerunIsPlainIff(cfg, project, st, ops, stops);
    RunBeyondWatermark(cfg, project, a, ops);
    RunBeyondWatermark(cfg, project, st, ops);
  }

  // ----- invariants of every run ---------------------------------------------

  /** No two unresolved status conflicts of one item carry the same value. */
  predicate OneOpenEach(conflicts: seq<Conflict>) {
    forall i, j :: 0 <= i < j < |conflicts| ==>
      !(Open(conflicts[i], conflicts[j].id, conflicts[j].providerValue)
        && Open(conflicts[j], conflicts[j].id, conflicts[j].providerValue))
  }

  lemma {:induction false} ConflictsStaySingle(cfg: Config, project: ProjectId, st: PullState, ops: seq<Op>)
    requires OneOpenEach(st.conflicts)
    ensures OneOpenEach(Run(cfg, project, st, ops).conflicts)
  {
    hide Ingest, Disagrees;
    if ops != [] {
      ConflictsStaySingle(cfg, project, st, Front(ops));
    }
  }

  /** Every finished package the brain has not verified has an open conflict when its pull is done. */
  lemma DisagreementIsRecorded(cfg: Config, project: ProjectId, st: PullState, s: Snapshot)
    ensures
      var r := Step(cfg, project, st, Op(s, false));
      Disagrees(cfg.tables, r.store, s) ==> HasOpen(r.conflicts, s.externalId, s.state)
  {
    hide Ingest;
    var r := Step(cfg, project, st, Op(s, false));
    if Disagrees(cfg.tables, r.store, s) && !HasOpen(st.conflicts, s.externalId, s.state) {
      assert Open(Last(r.conflicts), s.externalId, s.state) && Last(r.conflicts) in r.conflicts;
    }
  }

  /** One operation: a quiet live ingestion into the project, and, unless the sweep re-read the item, a conflict when
      the provider calls the work finished, the brain has not verified it, and no open conflict says so already. */
  lemma StepIsExact(cfg: Config, project: ProjectId, st: PullState, op: Op)
    ensures
      var s := op.snapshot;
      var r := Step(cfg, project, st, op);
      && r.store == Ingest(cfg, st.store, Call(s, Live, Some(project), None, false))
      && r.watermark == st.watermark
      && r.conflicts == st.conflicts +
           if !op.swept && (cfg.tables.status(s.state) == Done || cfg.tables.status(s.state) == Cancelled)
             && s.externalId in r.store.items && r.store.items[s.externalId].verification != Passed
             && (forall c :: c in st.conflicts && c.id == s.externalId ==>
                   c.resolved || c.field != "status" || c.providerValue != s.state)
           then [Conflict(s.externalId, "status", s.state, false)] else []
  {
    hide Ingest;
    assert st.conflicts + [] == st.conflicts;
  }

  /** A parent is only ever set to an item that exists. */
  lemma {:induction false} ParentsKeepExisting(cfg: Config, project: ProjectId, st: PullState, ops: seq<Op>)
    requires HasProject(st.store.projects, project) && ParentsExist(st.store)
    ensures ParentsExist(Run(cfg, project, st, ops).store)
    ensures Run(cfg, project, st, ops).store.projects == st.store.projects
  {
    hide Step, HasProject, AllLinks, Published, Conflicts;
    if ops != [] {
      ParentsKeepExisting(cfg, project, st, Front(ops));
      StepParts(cfg, project, Run(cfg, project, st, Front(ops)), Last(ops));
    }
  }

  /** Items are listed once each, and only items that exist; so no run ever lists one twice. */
  predicate ListsItemsOnce(st: Store) {
    NoRepeats(st.listing) && forall id :: id in st.listing ==> id in st.items
  }

  lemma {:induction false} RunListsItemsOnce(cfg: Config, project: ProjectId, st: PullState, ops: seq<Op>)
    requires HasProject(st.store.projects, project) && ListsItemsOnce(st.store)
    ensures ListsItemsOnce(Run(cfg, project, st, ops).store)
    ensures Run(cfg, project, st, ops).store.projects == st.store.projects
  {
    hide Step, HasProject, AllLinks, Published, Conflicts, Upserted;
    if ops != [] {
      RunListsItemsOnce(cfg, project, st, Front(ops));
      StepParts(cfg, project, Run(cfg, project, st, Front(ops)), Last(ops));
    }
  }
}
