/** Aborted pulls that are run again: exactly what they change, and that events happen once. */
module PullReplay {
  import opened Prelude
  import opened Snapshots
  import opened Ingestion
  import opened PullSync
  import TwoPass

  function Snaps(ops: seq<Op>): seq<Snapshot> {
    seq(|ops|, i requires 0 <= i < |ops| => ops[i].snapshot)
  }

  predicate Distinct(ops: seq<Op>) {
    forall i, j :: 0 <= i < j < |ops| ==> ops[i].snapshot.externalId != ops[j].snapshot.externalId
  }

  function ById(ops: seq<Op>): map<ExtId, Snapshot> {
    TwoPass.ById(Snaps(ops))
  }

  predicate Within(stops: seq<nat>, n: nat) {
    forall i :: 0 <= i < |stops| ==> stops[i] <= n
  }

  /** The runs of a pull that stop after the given numbers of work packages, one after the other. */
  function Attempts(cfg: Config, project: ProjectId, st: PullState, ops: seq<Op>, stops: seq<nat>): PullState
    requires Within(stops, |ops|)
  {
    if stops == [] then st
    else Run(cfg, project, Attempts(cfg, project, st, ops, Front(stops)), ops[..Last(stops)])
  }

  function Furthest(stops: seq<nat>): nat {
    if stops == [] then 0
    else if Last(stops) > Furthest(Front(stops)) then Last(stops) else Furthest(Front(stops))
  }

  lemma {:induction false} FurthestBound(stops: seq<nat>, n: nat)
    requires Within(stops, n)
    ensures Furthest(stops) <= n
  {
    if stops != [] {
      FurthestBound(Front(stops), n);
    }
  }

  /** The state with a second look, at the given items, for parents and relations of a prefix. */
  function Upgrade(t: Tables, u: PullState, known: set<ExtId>, m: map<ExtId, Snapshot>): PullState {
    u.(store := u.store.(
       items := map id | id in u.store.items ::
         if id in m then Parented(known, u.store.items[id], m[id]) else u.store.items[id],
       relations := u.store.relations + TwoPass.LinksOfBatch(t, known, m)))
  }

  predicate BetweenItems(a: map<ExtId, WorkItem>, u: map<ExtId, WorkItem>, known: set<ExtId>, m: map<ExtId, Snapshot>) {
    && a.Keys == u.Keys
    && forall id :: id in a ==> a[id] == u[id] || (id in m && a[id] == Parented(known, u[id], m[id]))
  }

  /** Between the plain state and its upgrade. */
  predicate Between(t: Tables, a: PullState, u: PullState, known: set<ExtId>, m: map<ExtId, Snapshot>) {
    && a.store.(items := map[], relations := {}) == u.store.(items := map[], relations := {})
    && a.(store := u.store) == u
    && BetweenItems(a.store.items, u.store.items, known, m)
    && u.store.relations <= a.store.relations <= u.store.relations + TwoPass.LinksOfBatch(t, known, m)
  }

  /** An operation that has been carried out and would write the same fields again. */
  predicate Settled(cfg: Config, st: PullState, op: Op) {
    var s := op.snapshot;
    && s.externalId in st.store.items
    && Baseline(st.store, s.externalId) == Some(s)
    && Apply(cfg.tables, st.store.items[s.externalId], s) == st.store.items[s.externalId]
    && (op.swept || Conflicts(cfg.tables, st.store, st.conflicts, s) == st.conflicts)
  }

  // ----- single steps --------------------------------------------------------

  lemma StepParts(cfg: Config, project: ProjectId, st: PullState, op: Op)
    requires HasProject(st.store.projects, project)
    ensures
      var t, s, r := cfg.tables, op.snapshot, Step(cfg, project, st, op);
      var id := s.externalId;
      && r.watermark == st.watermark
      && r.store.projects == st.store.projects
      && r.store.baselines == st.store.baselines[id := s]
      && r.store.items == st.store.items[id := Upserted(t, st.store, s, project)]
      && r.store.listing == (if id in st.store.items then st.store.listing else st.store.listing + [id])
      && r.store.relations == st.store.relations + AllLinks(t, st.store.items.Keys + {id}, s)
      && r.store.events == st.store.events + Published(cfg, st.store, PullCall(s, project))
      && r.conflicts == if op.swept then st.conflicts else Conflicts(t, r.store, st.conflicts, s)
  {
    hide Published, Upserted, AllLinks, Conflicts;
  }

  lemma SettledAfterStep(cfg: Config, project: ProjectId, st: PullState, op: Op)
    requires HasProject(st.store.projects, project)
    ensures Settled(cfg, Step(cfg, project, st, op), op)
  {
    hide Published, AllLinks, Step, HasProject, Conflicts;
    StepParts(cfg, project, st, op);
    ConflictsTwice(cfg.tables, Step(cfg, project, st, op).store, st.conflicts, op.snapshot);
  }

  lemma ConflictsTwice(t: Tables, st: Store, conflicts: seq<Conflict>, s: Snapshot)
    ensures Conflicts(t, st, Conflicts(t, st, conflicts, s), s) == Conflicts(t, st, conflicts, s)
  {
    var after := Conflicts(t, st, conflicts, s);
    if Disagrees(t, st, s) && after != conflicts {
      assert Open(Last(after), s.externalId, s.state) && Last(after) in after;
    }
  }

  lemma ConflictsKeepOpen(t: Tables, st: Store, conflicts: seq<Conflict>, s: Snapshot, id: ExtId, value: string)
    requires HasOpen(conflicts, id, value)
    ensures HasOpen(Conflicts(t, st, conflicts, s), id, value)
  {
    var c :| c in conflicts && Open(c, id, value);
    assert c in Conflicts(t, st, conflicts, s);
  }

  lemma SettledStays(cfg: Config, project: ProjectId, st: PullState, op: Op, other: Op)
    requires HasProject(st.store.projects, project)
    requires Settled(cfg, st, op) && other.snapshot.externalId != op.snapshot.externalId
    ensures Settled(cfg, Step(cfg, project, st, other), op)
  {
    hide Published, AllLinks, Step, HasProject, Upserted, Apply, HasOpen;
    StepParts(cfg, project, st, other);
    var r := Step(cfg, project, st, other);
    var s := op.snapshot;
    assert r.store.items[s.externalId] == st.store.items[s.externalId];
    if HasOpen(st.conflicts, s.externalId, s.state) {
      ConflictsKeepOpen(cfg.tables, r.store, st.conflicts, other.snapshot, s.externalId, s.state);
    }
  }

  lemma UpsertedAgain(t: Tables, st: Store, s: Snapshot, project: ProjectId)
    requires s.externalId in st.items && Apply(t, st.items[s.externalId], s) == st.items[s.externalId]
    ensures Upserted(t, st, s, project) == Parented(st.items.Keys, st.items[s.externalId], s)
  {
    assert st.items.Keys + {s.externalId} == st.items.Keys;
  }

  lemma SameFields(t: Tables, known: set<ExtId>, u: WorkItem, s: Snapshot, r: Snapshot)
    requires Apply(t, u, s) == u
    ensures Apply(t, Parented(known, u, r), s) == Parented(known, u, r)
    ensures Parented(known, Parented(known, u, r), r) == Parented(known, u, r)
  {
  }

  lemma QuietReplay(cfg: Config, st: Store, s: Snapshot, project: ProjectId)
    requires HasProject(st.projects, project)
    requires s.externalId in st.items && Baseline(st, s.externalId) == Some(s)
    ensures Published(cfg, st, PullCall(s, project)) == []
  {
  }

  /** Carrying out a settled operation again publishes nothing and only takes a second look at links. */
  lemma ReplayStep(cfg: Config, project: ProjectId, a: PullState, u: PullState, known: set<ExtId>,
                   m: map<ExtId, Snapshot>, op: Op)
    requires HasProject(u.store.projects, project)
    requires Between(cfg.tables, a, u, known, m) && u.store.items.Keys == known
    requires op.snapshot.externalId in m && m[op.snapshot.externalId] == op.snapshot
    requires Settled(cfg, u, op)
    ensures
      var r := Step(cfg, project, a, op);
      var id := op.snapshot.externalId;
      && Between(cfg.tables, r, u, known, m)
      && r.store.items == a.store.items[id := Parented(known, u.store.items[id], op.snapshot)]
      && r.store.relations == a.store.relations + AllLinks(cfg.tables, known, op.snapshot)
  {
    hide Apply, Step, HasProject, Published, TwoPass.LinksOfBatch, AllLinks, HasOpen, Upserted;
    var t, s := cfg.tables, op.snapshot;
    var id := s.externalId;
    StepParts(cfg, project, a, op);
    QuietReplay(cfg, a.store, s, project);
    SameFields(t, known, u.store.items[id], s, s);
    UpsertedAgain(t, a.store, s, project);
    TwoPass.SettledLinks(t, known, m, s);
    var r := Step(cfg, project, a, op);
    assert a.store.baselines[id := s] == a.store.baselines;
    assert a.store.items.Keys + {id} == known;
    assert a.store.events + [] == a.store.events;
    assert Parented(known, a.store.items[id], s) == Parented(known, u.store.items[id], s);
    assert r.store.items == a.store.items[id := Parented(known, u.store.items[id], s)];
  }

  /** An operation on a fresh item does the same to a state and to its upgrade. */
  lemma ForwardStep(cfg: Config, project: ProjectId, u: PullState, known: set<ExtId>, m: map<ExtId, Snapshot>, op: Op)
    requires HasProject(u.store.projects, project)
    requires op.snapshot.externalId !in m && m.Keys <= u.store.items.Keys
    ensures Step(cfg, project, Upgrade(cfg.tables, u, known, m), op)
      == Upgrade(cfg.tables, Step(cfg, project, u, op), known, m)
  {
    hide Conflicts, Upserted, Step, HasProject, Parented, TwoPass.LinksOfBatch, AllLinks, Published;
    var t, s := cfg.tables, op.snapshot;
    var a := Upgrade(t, u, known, m);
    StepParts(cfg, project, a, op);
    StepParts(cfg, project, u, op);
    assert a.store.items.Keys == u.store.items.Keys;
    SamePublished(cfg, a.store, u.store, s, project);
    SameConflicts(t, Step(cfg, project, a, op).store, Step(cfg, project, u, op).store, u.conflicts, s);
    var x, y := Step(cfg, project, a, op), Upgrade(t, Step(cfg, project, u, op), known, m);
    assert x.store.items == y.store.items;
    assert x.store.relations == y.store.relations;
    assert x.store.items[s.externalId] == Step(cfg, project, u, op).store.items[s.externalId];
    assert x.conflicts == y.conflicts;
  }

  lemma SameConflicts(t: Tables, a: Store, u: Store, conflicts: seq<Conflict>, s: Snapshot)
    requires s.externalId in a.items && s.externalId in u.items
    requires a.items[s.externalId] == u.items[s.externalId]
    ensures Conflicts(t, a, conflicts, s) == Conflicts(t, u, conflicts, s)
  {
    hide HasOpen;
  }

  lemma SamePublished(cfg: Config, a: Store, u: Store, s: Snapshot, project: ProjectId)
    requires a.projects == u.projects && a.baselines == u.baselines
    requires a.items.Keys == u.items.Keys
    requires s.externalId in u.items ==> a.items[s.externalId] == u.items[s.externalId]
    ensures Published(cfg, a, PullCall(s, project)) == Published(cfg, u, PullCall(s, project))
    ensures Upserted(cfg.tables, a, s, project) == Upserted(cfg.tables, u, s, project)
  {
    hide Apply, NewItem, Parented, HasProject, Diff, TriggersAssignment;
  }

  // ----- runs ----------------------------------------------------------------

  lemma {:induction false} RunParts(cfg: Config, project: ProjectId, st: PullState, ops: seq<Op>)
    requires HasProject(st.store.projects, project) && Distinct(ops)
    ensures
      var r := Run(cfg, project, st, ops);
      && r.store.projects == st.store.projects
      && r.watermark == st.watermark
      && r.store.items.Keys == st.store.items.Keys + ById(ops).Keys
      && (forall i :: 0 <= i < |ops| ==> Settled(cfg, r, ops[i]))
  {
    hide Step, Settled, HasProject, Conflicts, Upserted, AllLinks, Published;
    if ops != [] {
      RunParts(cfg, project, st, Front(ops));
      var r := Run(cfg, project, st, Front(ops));
      assert Snaps(Front(ops)) == Front(Snaps(ops));
      StepParts(cfg, project, r, Last(ops));
      SettledAfterStep(cfg, project, r, Last(ops));
      forall i | 0 <= i < |ops| - 1
        ensures Settled(cfg, Step(cfg, project, r, Last(ops)), ops[i])
      {
        assert ops[i] == Front(ops)[i];
        SettledStays(cfg, project, r, ops[i], Last(ops));
      }
    }
  }

  lemma PrefixIds(ops: seq<Op>, n: nat, i: nat)
    requires Distinct(ops) && i < n <= |ops|
    ensures ops[i].snapshot.externalId in ById(ops[..n])
    ensures ById(ops[..n])[ops[i].snapshot.externalId] == ops[i].snapshot
  {
    assert Snaps(ops[..n])[i] == ops[i].snapshot;
    TwoPass.ByIdIsBatch(Snaps(ops[..n]));
  }

  lemma PrefixFresh(ops: seq<Op>, n: nat, i: nat)
    requires Distinct(ops) && n <= i < |ops|
    ensures ops[i].snapshot.externalId !in ById(ops[..n])
  {
    var batch := Snaps(ops[..n]);
    TwoPass.ByIdIsBatch(batch);
    var id := ops[i].snapshot.externalId;
    forall s | s in batch
      ensures s.externalId != id
    {
      var j :| 0 <= j < n && batch[j] == s;
    }
  }

  /** Replaying part of a settled prefix stays between the plain state and its upgrade, and
      finishes the upgrade of the part that was replayed. */
  lemma {:induction false} Replay(
      cfg: Config, project: ProjectId, a: PullState, u: PullState, ops: seq<Op>, n: nat, k: nat)
    requires Distinct(ops) && k <= n <= |ops|
    requires HasProject(u.store.projects, project)
    requires var m := ById(ops[..n]);
      Between(cfg.tables, a, u, u.store.items.Keys, m)
    requires forall i :: 0 <= i < n ==> Settled(cfg, u, ops[i])
    ensures
      var m := ById(ops[..n]);
      var known := u.store.items.Keys;
      var r := Run(cfg, project, a, ops[..k]);
      && Between(cfg.tables, r, u, known, m)
      && (forall i :: 0 <= i < k ==>
            && ops[i].snapshot.externalId in r.store.items
            && ops[i].snapshot.externalId in u.store.items
            && r.store.items[ops[i].snapshot.externalId]
               == Parented(known, u.store.items[ops[i].snapshot.externalId], ops[i].snapshot)
            && AllLinks(cfg.tables, known, ops[i].snapshot) <= r.store.relations)
  {
    hide Step, Settled, Between, HasProject, AllLinks, Parented;
    if k > 0 {
      SettledKnown(cfg, a, u, ops[k - 1], u.store.items.Keys, ById(ops[..n]));
      Replay(cfg, project, a, u, ops, n, k - 1);
      assert Front(ops[..k]) == ops[..k - 1];
      PrefixIds(ops, n, k - 1);
      ReplayStep(cfg, project, Run(cfg, project, a, ops[..k - 1]), u, u.store.items.Keys, ById(ops[..n]), ops[k - 1]);
    }
  }

  lemma SettledKnown(cfg: Config, a: PullState, u: PullState, op: Op, known: set<ExtId>, m: map<ExtId, Snapshot>)
    requires Between(cfg.tables, a, u, known, m) && Settled(cfg, u, op)
    ensures op.snapshot.externalId in u.store.items && op.snapshot.externalId in a.store.items
  {
  }

  /** Replaying the whole prefix completes the upgrade, whatever was there in between. */
  lemma ReplayAll(cfg: Config, project: ProjectId, a: PullState, u: PullState, ops: seq<Op>, n: nat)
    requires Distinct(ops) && n <= |ops|
    requires HasProject(u.store.projects, project)
    requires Between(cfg.tables, a, u, u.store.items.Keys, ById(ops[..n]))
    requires forall i :: 0 <= i < n ==> Settled(cfg, u, ops[i])
    ensures Run(cfg, project, a, ops[..n]) == Upgrade(cfg.tables, u, u.store.items.Keys, ById(ops[..n]))
  {
    hide Run, Settled, HasProject, AllLinks, Parented, TwoPass.ById, Baseline;
    var t, m, known := cfg.tables, ById(ops[..n]), u.store.items.Keys;
    Replay(cfg, project, a, u, ops, n, n);
    TwoPass.ByIdIsBatch(Snaps(ops[..n]));
    var r, g := Run(cfg, project, a, ops[..n]), Upgrade(t, u, known, m);
    forall id | id in m
      ensures id in known ==> r.store.items[id] == g.store.items[id]
      ensures AllLinks(t, known, m[id]) <= r.store.relations
    {
      var i :| 0 <= i < n && Snaps(ops[..n])[i] == m[id];
      assert ops[i].snapshot == m[id];
    }
    assert r.store.items == g.store.items;
    assert r.store.relations == g.store.relations by {
      forall l | l in TwoPass.LinksOfBatch(t, known, m)
        ensures l in r.store.relations
      {
        var id :| id in m && id in known && l in AllLinks(t, known, m[id]);
      }
    }
  }

  lemma {:induction false} Forward(cfg: Config, project: ProjectId, u: PullState, known: set<ExtId>,
                                   m: map<ExtId, Snapshot>, ops: seq<Op>)
    requires HasProject(u.store.projects, project)
    requires m.Keys <= u.store.items.Keys
    requires forall op :: op in ops ==> op.snapshot.externalId !in m
    ensures Run(cfg, project, Upgrade(cfg.tables, u, known, m), ops)
      == Upgrade(cfg.tables, Run(cfg, project, u, ops), known, m)
    ensures m.Keys <= Run(cfg, project, u, ops).store.items.Keys
    ensures Run(cfg, project, u, ops).store.projects == u.store.projects
  {
    hide Step, HasProject, Upgrade;
    if ops != [] {
      assert forall op :: op in Front(ops) ==> op in ops;
      Forward(cfg, project, u, known, m, Front(ops));
      ForwardStep(cfg, project, Run(cfg, project, u, Front(ops)), known, m, Last(ops));
      StepParts(cfg, project, Run(cfg, project, u, Front(ops)), Last(ops));
    }
  }

  // ----- any number of aborted runs ------------------------------------------

  lemma BetweenItself(t: Tables, u: PullState, known: set<ExtId>, m: map<ExtId, Snapshot>)
    ensures Between(t, u, u, known, m)
  {
  }

  /** An upgrade over a smaller prefix lies between the plain state and the upgrade over a larger one. */
  lemma UpgradeWidens(t: Tables, u: PullState, small: set<ExtId>, m: map<ExtId, Snapshot>,
                      large: set<ExtId>, m': map<ExtId, Snapshot>)
    requires small <= large
    requires forall id :: id in m ==> id in m' && m'[id] == m[id]
    ensures Between(t, Upgrade(t, u, small, m), u, large, m')
  {
    hide AllLinks, TwoPass.LinksOfBatch;
    TwoPass.LinksGrow(t, small, large, m);
    LinksOfMore(t, large, m, m');
  }

  lemma LinksOfMore(t: Tables, known: set<ExtId>, m: map<ExtId, Snapshot>, m': map<ExtId, Snapshot>)
    requires forall id :: id in m ==> id in m' && m'[id] == m[id]
    ensures TwoPass.LinksOfBatch(t, known, m) <= TwoPass.LinksOfBatch(t, known, m')
  {
    hide AllLinks;
    forall l | l in TwoPass.LinksOfBatch(t, known, m)
      ensures l in TwoPass.LinksOfBatch(t, known, m')
    {
      var id :| id in m && id in known && l in AllLinks(t, known, m[id]);
      assert id in m' && m'[id] == m[id];
    }
  }

  /** The plain run up to a stop, and what is known there. */
  function UpTo(cfg: Config, project: ProjectId, st: PullState, ops: seq<Op>, n: nat): PullState
    requires n <= |ops|
  {
    Run(cfg, project, st, ops[..n])
  }

  lemma UpToFacts(cfg: Config, project: ProjectId, st: PullState, ops: seq<Op>, n: nat)
    requires HasProject(st.store.projects, project) && Distinct(ops) && n <= |ops|
    ensures
      var u := UpTo(cfg, project, st, ops, n);
      && u.store.projects == st.store.projects
      && u.watermark == st.watermark
      && u.store.items.Keys == st.store.items.Keys + ById(ops[..n]).Keys
      && (forall i :: 0 <= i < n ==> Settled(cfg, u, ops[i]))
  {
    hide Run, Settled, HasProject;
    RunParts(cfg, project, st, ops[..n]);
    var u := UpTo(cfg, project, st, ops, n);
    forall i | 0 <= i < n
      ensures Settled(cfg, u, ops[i])
    {
      assert ops[..n][i] == ops[i];
    }
  }

  lemma Segment(cfg: Config, project: ProjectId, st: PullState, ops: seq<Op>, n: nat, k: nat)
    requires n <= k <= |ops|
    ensures Run(cfg, project, st, ops[..k]) == Run(cfg, project, Run(cfg, project, st, ops[..n]), ops[n..k])
  {
    hide Run;
    assert ops[..k] == ops[..n] + ops[n..k];
    RunConcat(cfg, project, st, ops[..n], ops[n..k]);
  }

  lemma PrefixMaps(ops: seq<Op>, n: nat, k: nat)
    requires Distinct(ops) && n <= k <= |ops|
    ensures forall id :: id in ById(ops[..n]) ==> id in ById(ops[..k]) && ById(ops[..k])[id] == ById(ops[..n])[id]
  {
    TwoPass.ByIdIsBatch(Snaps(ops[..n]));
    forall id | id in ById(ops[..n])
      ensures id in ById(ops[..k]) && ById(ops[..k])[id] == ById(ops[..n])[id]
    {
      var i :| 0 <= i < n && Snaps(ops[..n])[i] == ById(ops[..n])[id];
      PrefixIds(ops, n, i);
      PrefixIds(ops, k, i);
    }
  }

  /** A run that goes at least as far as every earlier one: the plain run, with a second look at
      the prefix that had already been processed. */
  lemma LongerRun(cfg: Config, project: ProjectId, st: PullState, a: PullState, ops: seq<Op>, n: nat, k: nat)
    requires HasProject(st.store.projects, project) && Distinct(ops) && n <= k <= |ops|
    requires var u := UpTo(cfg, project, st, ops, n);
      Between(cfg.tables, a, u, u.store.items.Keys, ById(ops[..n]))
    ensures Run(cfg, project, a, ops[..k])
      == Upgrade(cfg.tables, UpTo(cfg, project, st, ops, k),
           UpTo(cfg, project, st, ops, n).store.items.Keys, ById(ops[..n]))
  {
    hide Run, Settled, HasProject, Between, Upgrade;
    var u, m := UpTo(cfg, project, st, ops, n), ById(ops[..n]);
    UpToFacts(cfg, project, st, ops, n);
    ReplayAll(cfg, project, a, u, ops, n);
    Segment(cfg, project, a, ops, n, k);
    Segment(cfg, project, st, ops, n, k);
    forall op | op in ops[n..k]
      ensures op.snapshot.externalId !in m
    {
      var i :| n <= i < k && ops[i] == op;
      PrefixFresh(ops, n, i);
    }
    Forward(cfg, project, u, u.store.items.Keys, m, ops[n..k]);
  }

  lemma {:induction false} AttemptsBetween(
      cfg: Config, project: ProjectId, st: PullState, ops: seq<Op>, stops: seq<nat>)
    requires HasProject(st.store.projects, project) && Distinct(ops) && Within(stops, |ops|)
    ensures Furthest(stops) <= |ops|
    ensures
      var n := Furthest(stops);
      var u := UpTo(cfg, project, st, ops, n);
      Between(cfg.tables, Attempts(cfg, project, st, ops, stops), u, u.store.items.Keys, ById(ops[..n]))
  {
    hide Run, Settled, HasProject, Between, Upgrade;
    if stops == [] {
      assert ops[..0] == [];
      EmptyRun(cfg, project, st);
      BetweenItself(cfg.tables, st, st.store.items.Keys, ById(ops[..0]));
    } else {
      AttemptsBetween(cfg, project, st, ops, Front(stops));
      var n, k := Furthest(Front(stops)), Last(stops);
      var u := UpTo(cfg, project, st, ops, n);
      var a := Attempts(cfg, project, st, ops, Front(stops));
      UpToFacts(cfg, project, st, ops, n);
      if k <= n {
        Replay(cfg, project, a, u, ops, n, k);
      } else {
        var u' := UpTo(cfg, project, st, ops, k);
        LongerRun(cfg, project, st, a, ops, n, k);
        UpToFacts(cfg, project, st, ops, k);
        PrefixMaps(ops, n, k);
        UpgradeWidens(cfg.tables, u', u.store.items.Keys, ById(ops[..n]), u'.store.items.Keys, ById(ops[..k]));
      }
    }
  }

  /** Any number of aborted runs followed by a complete one: the uninterrupted run, plus a second
      look at parents and relations of the furthest prefix an aborted run had reached. */
  lemma RerunIsSecondLook(cfg: Config, project: ProjectId, st: PullState, ops: seq<Op>, stops: seq<nat>)
    requires HasProject(st.store.projects, project) && Distinct(ops) && Within(stops, |ops|)
    ensures Furthest(stops) <= |ops|
    ensures
      var n := Furthest(stops);
      Run(cfg, project, Attempts(cfg, project, st, ops, stops), ops)
      == Upgrade(cfg.tables, Run(cfg, project, st, ops),
           UpTo(cfg, project, st, ops, n).store.items.Keys, ById(ops[..n]))
  {
    hide Run, HasProject, Between, Upgrade;
    AttemptsBetween(cfg, project, st, ops, stops);
    LongerRun(cfg, project, st, Attempts(cfg, project, st, ops, stops), ops, Furthest(stops), |ops|);
    assert ops[..|ops|] == ops;
  }

  /** Events, baselines, conflicts, listing and every field but the parent are those of the
      uninterrupted run: each event is published once in all. */
  lemma EventsExactlyOnce(cfg: Config, project: ProjectId, st: PullState, ops: seq<Op>, stops: seq<nat>)
    requires HasProject(st.store.projects, project) && Distinct(ops) && Within(stops, |ops|)
    ensures
      var r := Run(cfg, project, Attempts(cfg, project, st, ops, stops), ops);
      var u := Run(cfg, project, st, ops);
      && r.store.events == u.store.events
      && r.store.baselines == u.store.baselines
      && r.store.listing == u.store.listing
      && r.conflicts == u.conflicts
      && r.store.items.Keys == u.store.items.Keys
      && (forall id :: id in u.store.items ==>
            r.store.items[id].(parent := u.store.items[id].parent) == u.store.items[id])
      && u.store.relations <= r.store.relations
  {
    hide Run, HasProject, TwoPass.LinksOfBatch;
    RerunIsSecondLook(cfg, project, st, ops, stops);
  }
}
