/** Two-pass bootstrap of a batch: what it computes, in closed form, and that
    arrival order and repetition do not matter. */
module TwoPass {
  import opened Prelude
  import opened Snapshots
  import opened Ingestion

  predicate DistinctIds(batch: seq<Snapshot>) {
    forall i, j :: 0 <= i < j < |batch| ==> batch[i].externalId != batch[j].externalId
  }

  predicate SameElements(a: seq<Snapshot>, b: seq<Snapshot>) {
    (forall s :: s in a ==> s in b) && (forall s :: s in b ==> s in a)
  }

  function ById(batch: seq<Snapshot>): map<ExtId, Snapshot> {
    if batch == [] then map[] else ById(Front(batch))[Last(batch).externalId := Last(batch)]
  }

  function BootstrapCall(s: Snapshot, p: Option<ProjectId>): Call {
    Call(s, Bootstrap, p, None, true)
  }

  function Calls(batch: seq<Snapshot>, p: Option<ProjectId>): seq<Call> {
    seq(|batch|, i requires 0 <= i < |batch| => BootstrapCall(batch[i], p))
  }

  /** Ingest everything, then resolve parents and relations over the same batch. */
  function Import(cfg: Config, st: Store, batch: seq<Snapshot>, p: Option<ProjectId>): Store {
    RelinkAll(cfg.tables, IngestAll(cfg, st, Calls(batch, p)), batch)
  }

  // ----- closed form ---------------------------------------------------------

  /** The part of the state that is compared by provider id. */
  datatype Graph = Graph(items: map<ExtId, WorkItem>, relations: set<Link>, baselines: map<ExtId, Snapshot>)

  function View(st: Store): Graph {
    Graph(st.items, st.relations, st.baselines)
  }

  predicate Keyed(m: map<ExtId, Snapshot>) {
    forall id :: id in m ==> m[id].externalId == id
  }

  function Known(st: Store, m: map<ExtId, Snapshot>, p: Option<ProjectId>): set<ExtId> {
    st.items.Keys + set id | id in m && ResolveProject(st.projects, m[id], p).Some?
  }

  /** Fields of a work item after the import, before its parent is looked at. */
  function Fields(t: Tables, st: Store, m: map<ExtId, Snapshot>, p: Option<ProjectId>, id: ExtId): WorkItem
    requires id in Known(st, m, p)
  {
    if id in m && ResolveProject(st.projects, m[id], p).Some? then
      var before := if id in st.items then st.items[id]
                    else NewItem(m[id], ResolveProject(st.projects, m[id], p).value);
      Apply(t, before, m[id])
    else st.items[id]
  }

  function LinksOfBatch(t: Tables, known: set<ExtId>, m: map<ExtId, Snapshot>): set<Link> {
    set id, l | id in m && id in known && l in AllLinks(t, known, m[id]) :: l
  }

  /** What the import of a set of snapshots means, with no order in sight. */
  function Settled(t: Tables, st: Store, m: map<ExtId, Snapshot>, p: Option<ProjectId>): Graph {
    var known := Known(st, m, p);
    Graph(
      map id | id in known ::
        if id in m then Parented(known, Fields(t, st, m, p, id), m[id]) else st.items[id],
      st.relations + LinksOfBatch(t, known, m),
      st.baselines + m)
  }

  // ----- maps from batches ---------------------------------------------------

  lemma {:induction false} ByIdIsBatch(batch: seq<Snapshot>)
    requires DistinctIds(batch)
    ensures Keyed(ById(batch))
    ensures forall id :: id in ById(batch) ==> ById(batch)[id] in batch
    ensures forall s :: s in batch ==> s.externalId in ById(batch) && ById(batch)[s.externalId] == s
  {
    if batch != [] {
      ByIdIsBatch(Front(batch));
      forall s | s in batch
        ensures s.externalId in ById(batch) && ById(batch)[s.externalId] == s
      {
        var i :| 0 <= i < |batch| && batch[i] == s;
        if i < |batch| - 1 {
          assert s == Front(batch)[i];
        }
      }
    }
  }

  lemma ByIdOrderFree(a: seq<Snapshot>, b: seq<Snapshot>)
    requires DistinctIds(a) && DistinctIds(b) && SameElements(a, b)
    ensures ById(a) == ById(b)
  {
    ByIdIsBatch(a);
    ByIdIsBatch(b);
  }

  lemma ByIdFresh(batch: seq<Snapshot>)
    requires batch != [] && DistinctIds(batch)
    ensures Last(batch).externalId !in ById(Front(batch))
  {
    ByIdIsBatch(Front(batch));
    var m := ById(Front(batch));
    forall s | s in Front(batch)
      ensures s.externalId != Last(batch).externalId
    {
      var i :| 0 <= i < |batch| - 1 && batch[i] == s;
    }
  }

  // ----- first pass ----------------------------------------------------------

  /** A parent written early is the one the second pass would write, or the old one. */
  predicate ParentProvisional(known: set<ExtId>, w: WorkItem, fields: WorkItem, s: Snapshot) {
    w == fields || (ParentRef(s).Some? && ParentRef(s).value in known && w == fields.(parent := ParentRef(s)))
  }

  predicate FirstPassRows(t: Tables, st: Store, m: map<ExtId, Snapshot>, p: Option<ProjectId>,
                          items: map<ExtId, WorkItem>) {
    var known := Known(st, m, p);
    && items.Keys == known
    && (forall id :: id in known && id !in m ==> items[id] == st.items[id])
    && (forall id :: id in known && id in m ==> ParentProvisional(known, items[id], Fields(t, st, m, p, id), m[id]))
  }

  predicate FirstPassDone(t: Tables, st: Store, m: map<ExtId, Snapshot>, p: Option<ProjectId>, r: Store) {
    && r.projects == st.projects
    && r.events == st.events
    && r.baselines == st.baselines + m
    && st.relations <= r.relations <= st.relations + LinksOfBatch(t, Known(st, m, p), m)
    && FirstPassRows(t, st, m, p, r.items)
  }

  /** What one bootstrap ingestion does to each part of the state. */
  lemma BootstrapEffect(cfg: Config, st: Store, s: Snapshot, p: Option<ProjectId>)
    ensures
      var r := Ingest(cfg, st, BootstrapCall(s, p));
      var project := ResolveProject(st.projects, s, p);
      && r.projects == st.projects
      && r.events == st.events
      && r.baselines == st.baselines[s.externalId := s]
      && r.items == (if project.None? then st.items
                     else st.items[s.externalId := Upserted(cfg.tables, st, s, project.value)])
      && r.relations == (if project.None? then st.relations
                         else st.relations + AllLinks(cfg.tables, st.items.Keys + {s.externalId}, s))
  {
    assert st.events + [] == st.events;
  }

  lemma FirstPassLinks(t: Tables, known: set<ExtId>, m: map<ExtId, Snapshot>, s: Snapshot, added: bool)
    requires s.externalId !in m
    ensures
      var known' := if added then known + {s.externalId} else known;
      var all := LinksOfBatch(t, known', m[s.externalId := s]);
      LinksOfBatch(t, known, m) <= all && (added ==> AllLinks(t, known', s) <= all)
  {
    var known' := if added then known + {s.externalId} else known;
    LinksGrow(t, known, known', m);
    LinksOfBatchAdd(t, known', m, s);
  }

  lemma FirstPassItem(t: Tables, known: set<ExtId>, w: WorkItem, s: Snapshot)
    ensures ParentProvisional(known, Parented(known, Apply(t, w, s), s), Apply(t, w, s), s)
  {
  }

  lemma KnownAdd(st: Store, m: map<ExtId, Snapshot>, p: Option<ProjectId>, s: Snapshot)
    requires s.externalId !in m
    ensures Known(st, m[s.externalId := s], p)
      == Known(st, m, p) + if ResolveProject(st.projects, s, p).Some? then {s.externalId} else {}
  {
  }

  lemma FirstPassRowsStep(t: Tables, st: Store, m: map<ExtId, Snapshot>, p: Option<ProjectId>, r: Store, s: Snapshot)
    requires Keyed(m) && s.externalId !in m
    requires r.projects == st.projects && FirstPassRows(t, st, m, p, r.items)
    ensures
      var project := ResolveProject(st.projects, s, p);
      FirstPassRows(t, st, m[s.externalId := s], p,
        if project.None? then r.items else r.items[s.externalId := Upserted(t, r, s, project.value)])
  {
    hide Apply, NewItem, ResolveProject, Parented, Known;
    var id := s.externalId;
    var m' := m[id := s];
    var known, known' := Known(st, m, p), Known(st, m', p);
    var project := ResolveProject(st.projects, s, p);
    KnownAdd(st, m, p, s);
    KnownOutside(st, m, p, id);
    if project.Some? {
      var w := if id in st.items then st.items[id] else NewItem(s, project.value);
      FirstPassItem(t, known', w, s);
      assert r.items.Keys + {id} == known';
      assert Upserted(t, r, s, project.value) == Parented(known', Apply(t, w, s), s);
      assert Fields(t, st, m', p, id) == Apply(t, w, s);
    }
    var items := if project.None? then r.items else r.items[id := Upserted(t, r, s, project.value)];
    assert items.Keys == known';
    forall i | i in known' && i in m'
      ensures ParentProvisional(known', items[i], Fields(t, st, m', p, i), m'[i])
    {
      if i != id {
        assert Fields(t, st, m', p, i) == Fields(t, st, m, p, i);
      }
    }
  }

  lemma KnownOutside(st: Store, m: map<ExtId, Snapshot>, p: Option<ProjectId>, id: ExtId)
    requires id !in m
    ensures id in Known(st, m, p) <==> id in st.items
  {
  }

  lemma FirstPassStep(cfg: Config, st: Store, m: map<ExtId, Snapshot>, p: Option<ProjectId>, r: Store, s: Snapshot)
    requires Keyed(m) && s.externalId !in m
    requires FirstPassDone(cfg.tables, st, m, p, r)
    ensures FirstPassDone(cfg.tables, st, m[s.externalId := s], p, Ingest(cfg, r, BootstrapCall(s, p)))
  {
    hide Ingest, Upserted, AllLinks, ResolveProject, LinksOfBatch, Known;
    var t, m' := cfg.tables, m[s.externalId := s];
    BootstrapEffect(cfg, r, s, p);
    KnownAdd(st, m, p, s);
    FirstPassLinks(t, Known(st, m, p), m, s, ResolveProject(st.projects, s, p).Some?);
    FirstPassRowsStep(t, st, m, p, r, s);
    assert r.baselines[s.externalId := s] == st.baselines + m';
  }

  lemma LinksGrow(t: Tables, known: set<ExtId>, known': set<ExtId>, m: map<ExtId, Snapshot>)
    requires known <= known'
    ensures LinksOfBatch(t, known, m) <= LinksOfBatch(t, known', m)
  {
    forall l | l in LinksOfBatch(t, known, m)
      ensures l in LinksOfBatch(t, known', m)
    {
      var id :| id in m && id in known && l in AllLinks(t, known, m[id]);
      LinksMonotone(t, known, known', m[id]);
    }
  }

  lemma LinksMonotone(t: Tables, known: set<ExtId>, known': set<ExtId>, s: Snapshot)
    requires known <= known'
    ensures AllLinks(t, known, s) <= AllLinks(t, known', s)
  {
    forall l | l in AllLinks(t, known, s)
      ensures l in AllLinks(t, known', s)
    {
      var i :| 0 <= i < |s.relations| && Wanted(t, known, s, s.relations[i]) && LinkOf(t, s, s.relations[i]).value == l;
      assert Wanted(t, known', s, s.relations[i]);
    }
  }

  lemma LinksOfNothing(t: Tables, known: set<ExtId>)
    ensures LinksOfBatch(t, known, map[]) == {}
  {
  }

  lemma FirstPassNothing(t: Tables, st: Store, p: Option<ProjectId>)
    ensures FirstPassDone(t, st, map[], p, st)
  {
    hide Fields, AllLinks, ResolveProject;
    assert Known(st, map[], p) == st.items.Keys;
    assert st.baselines + map[] == st.baselines;
    LinksOfNothing(t, st.items.Keys);
  }

  lemma {:induction false} FirstPass(cfg: Config, st: Store, batch: seq<Snapshot>, p: Option<ProjectId>)
    requires DistinctIds(batch)
    ensures FirstPassDone(cfg.tables, st, ById(batch), p, IngestAll(cfg, st, Calls(batch, p)))
  {
    hide Ingest, FirstPassDone, Keyed, ResolveProject;
    if batch == [] {
      FirstPassNothing(cfg.tables, st, p);
    } else {
      FirstPass(cfg, st, Front(batch), p);
      ByIdIsBatch(Front(batch));
      ByIdFresh(batch);
      assert Front(Calls(batch, p)) == Calls(Front(batch), p);
      FirstPassStep(cfg, st, ById(Front(batch)), p, IngestAll(cfg, st, Calls(Front(batch), p)), Last(batch));
    }
  }

  // ----- second pass ---------------------------------------------------------

  function Relinked(t: Tables, st: Store, m: map<ExtId, Snapshot>): Store {
    st.(items := map id | id in st.items ::
          if id in m then Parented(st.items.Keys, st.items[id], m[id]) else st.items[id],
        relations := st.relations + LinksOfBatch(t, st.items.Keys, m))
  }

  lemma {:induction false} SecondPass(t: Tables, st: Store, batch: seq<Snapshot>)
    requires DistinctIds(batch)
    ensures RelinkAll(t, st, batch) == Relinked(t, st, ById(batch))
  {
    if batch == [] {
      assert Relinked(t, st, map[]).items == st.items;
      LinksOfNothing(t, st.items.Keys);
    } else {
      var m, s := ById(Front(batch)), Last(batch);
      SecondPass(t, st, Front(batch));
      ByIdFresh(batch);
      RelinkStep(t, st, m, s);
      hide AllLinks, Parented, LinksOfBatch, Relinked, Relink;
    }
  }

  lemma RelinkStep(t: Tables, st: Store, m: map<ExtId, Snapshot>, s: Snapshot)
    requires s.externalId !in m
    ensures Relink(t, Relinked(t, st, m), s) == Relinked(t, st, m[s.externalId := s])
  {
    hide AllLinks, Parented, LinksOfBatch;
    assert Relinked(t, st, m).items.Keys == st.items.Keys;
    LinksOfBatchAdd(t, st.items.Keys, m, s);
    assert Relink(t, Relinked(t, st, m), s).items == Relinked(t, st, m[s.externalId := s]).items;
    assert Relink(t, Relinked(t, st, m), s).relations == Relinked(t, st, m[s.externalId := s]).relations;
  }

  lemma LinksOfBatchAdd(t: Tables, known: set<ExtId>, m: map<ExtId, Snapshot>, s: Snapshot)
    requires s.externalId !in m
    ensures LinksOfBatch(t, known, m[s.externalId := s])
      == LinksOfBatch(t, known, m) + if s.externalId in known then AllLinks(t, known, s) else {}
  {
    var m' := m[s.externalId := s];
    forall l | l in LinksOfBatch(t, known, m)
      ensures l in LinksOfBatch(t, known, m')
    {
      var id :| id in m && id in known && l in AllLinks(t, known, m[id]);
      assert id in m' && m'[id] == m[id];
    }
    if s.externalId in known {
      assert m'[s.externalId] == s;
    }
  }

  // ----- main results --------------------------------------------------------

  /** The import computes exactly its order-free meaning and publishes nothing. */
  lemma ImportIsSettled(cfg: Config, st: Store, batch: seq<Snapshot>, p: Option<ProjectId>)
    requires DistinctIds(batch)
    ensures View(Import(cfg, st, batch, p)) == Settled(cfg.tables, st, ById(batch), p)
    ensures Import(cfg, st, batch, p).events == st.events
    ensures Import(cfg, st, batch, p).projects == st.projects
  {
    hide AllLinks, LinksOfBatch, IngestAll, RelinkAll, Fields, ResolveProject;
    var t, m := cfg.tables, ById(batch);
    var r := IngestAll(cfg, st, Calls(batch, p));
    FirstPass(cfg, st, batch, p);
    SecondPass(t, r, batch);
    assert Relinked(t, r, m).items == Settled(t, st, m, p).items;
    assert Relinked(t, r, m).relations == Settled(t, st, m, p).relations;
  }

  /** Arrival order does not matter, from any initial store. */
  lemma ImportOrderIndependent(cfg: Config, st: Store, a: seq<Snapshot>, b: seq<Snapshot>, p: Option<ProjectId>)
    requires DistinctIds(a) && DistinctIds(b) && SameElements(a, b)
    ensures View(Import(cfg, st, a, p)) == View(Import(cfg, st, b, p))
    ensures Import(cfg, st, a, p).events == Import(cfg, st, b, p).events == st.events
  {
    ByIdOrderFree(a, b);
    ImportIsSettled(cfg, st, a, p);
    ImportIsSettled(cfg, st, b, p);
  }

  /** The parent of an imported item is the item its snapshot names, whenever that item
      exists and is another one; otherwise the item keeps the parent it had. */
  lemma ImportedParents(cfg: Config, st: Store, batch: seq<Snapshot>, p: Option<ProjectId>, s: Snapshot)
    requires DistinctIds(batch) && s in batch
    requires s.externalId in Import(cfg, st, batch, p).items
    ensures
      var r := Import(cfg, st, batch, p);
      var parent := r.items[s.externalId].parent;
      if s.parentId.Some? && s.parentId.value != 0 && Decimal(s.parentId.value) in r.items
        && Decimal(s.parentId.value) != s.externalId
      then parent == Some(Decimal(s.parentId.value))
      else parent == if s.externalId in st.items then st.items[s.externalId].parent else None
  {
    hide Import, AllLinks, LinksOfBatch, Known, Fields;
    ImportIsSettled(cfg, st, batch, p);
    ByIdIsBatch(batch);
    var r, m := Import(cfg, st, batch, p), ById(batch);
    assert View(r).items == r.items;
    assert r.items.Keys == Known(st, m, p);
    FieldsKeepParent(cfg.tables, st, m, p, s.externalId);
    assert r.items[s.externalId] == Parented(r.items.Keys, Fields(cfg.tables, st, m, p, s.externalId), s);
  }

  lemma FieldsKeepParent(t: Tables, st: Store, m: map<ExtId, Snapshot>, p: Option<ProjectId>, id: ExtId)
    requires id in Known(st, m, p)
    ensures Fields(t, st, m, p, id).parent == if id in st.items then st.items[id].parent else None
  {
  }

  /** Relations after the import: the old ones, and each listed one whose two ends exist. */
  lemma ImportedRelations(cfg: Config, st: Store, batch: seq<Snapshot>, p: Option<ProjectId>, l: Link)
    requires DistinctIds(batch)
    ensures
      var r := Import(cfg, st, batch, p);
      l in r.relations <==>
        || l in st.relations
        || (l.source in r.items && l.target in r.items && l.source != l.target
            && exists s, raw :: s in batch && s.externalId in r.items && raw in s.relations
                                && AsksFor(cfg.tables, s, raw, l))
  {
    hide Import, Known, Fields, ById, Parented, AllLinks, AsksFor;
    var r := Import(cfg, st, batch, p);
    var t, m := cfg.tables, ById(batch);
    ImportIsSettled(cfg, st, batch, p);
    ByIdIsBatch(batch);
    assert View(r).items == r.items && View(r).relations == r.relations;
    assert r.items.Keys == Known(st, m, p);
    if l in LinksOfBatch(t, r.items.Keys, m) {
      var id :| id in m && id in r.items && l in AllLinks(t, r.items.Keys, m[id]);
      LinksAreAskedFor(t, r.items.Keys, m[id], l);
      assert m[id] in batch;
    }
    forall s | s in batch && s.externalId in r.items && l in AllLinks(t, r.items.Keys, s)
      ensures l in LinksOfBatch(t, r.items.Keys, m)
    {
      assert m[s.externalId] == s;
    }
    forall s | s in batch
      ensures l in AllLinks(t, r.items.Keys, s) <==>
        l.source in r.items && l.target in r.items && l.source != l.target
        && exists raw :: raw in s.relations && AsksFor(t, s, raw, l)
    {
      LinksAreAskedFor(t, r.items.Keys, s, l);
    }
  }

  // ----- repetition ----------------------------------------------------------

  predicate Stable(cfg: Config, st: Store, batch: seq<Snapshot>, p: Option<ProjectId>) {
    forall s :: s in batch ==> Ingest(cfg, st, BootstrapCall(s, p)) == st && Relink(cfg.tables, st, s) == st
  }

  lemma SettledIsStable(cfg: Config, st: Store, batch: seq<Snapshot>, p: Option<ProjectId>)
    requires DistinctIds(batch)
    ensures Stable(cfg, Import(cfg, st, batch, p), batch, p)
  {
    var t, m := cfg.tables, ById(batch);
    var r := Import(cfg, st, batch, p);
    ImportIsSettled(cfg, st, batch, p);
    ByIdIsBatch(batch);
    assert View(r).items == r.items && View(r).relations == r.relations && View(r).baselines == r.baselines;
    forall s | s in batch
      ensures Ingest(cfg, r, BootstrapCall(s, p)) == r && Relink(t, r, s) == r
    {
      SettledFixpoint(cfg, st, m, p, r, s);
    }
  }

  lemma SettledFixpoint(cfg: Config, st: Store, m: map<ExtId, Snapshot>, p: Option<ProjectId>, r: Store, s: Snapshot)
    requires Keyed(m) && s.externalId in m && m[s.externalId] == s
    requires r.projects == st.projects
    requires View(r) == Settled(cfg.tables, st, m, p)
    ensures Ingest(cfg, r, BootstrapCall(s, p)) == r && Relink(cfg.tables, r, s) == r
  {
    hide AllLinks, LinksOfBatch, ResolveProject, Apply, NewItem;
    var t, id := cfg.tables, s.externalId;
    var known := Known(st, m, p);
    assert View(r).items.Keys == known && r.items.Keys == known;
    assert r.baselines[id := s] == r.baselines;
    if id in known {
      SettledLinks(t, known, m, s);
      assert r.relations + AllLinks(t, known, s) == r.relations;
      assert known + {id} == known;
      var fields := Fields(t, st, m, p, id);
      assert r.items[id] == Parented(known, fields, s);
      assert Parented(known, r.items[id], s) == r.items[id];
      assert r.items[id := r.items[id]] == r.items;
      if ResolveProject(st.projects, s, p).Some? {
        SettledFields(t, known, if id in st.items then st.items[id]
                                else NewItem(s, ResolveProject(st.projects, s, p).value), s);
      }
    }
    assert r.events + [] == r.events;
  }

  lemma SettledLinks(t: Tables, known: set<ExtId>, m: map<ExtId, Snapshot>, s: Snapshot)
    requires s.externalId in m && m[s.externalId] == s && s.externalId in known
    ensures AllLinks(t, known, s) <= LinksOfBatch(t, known, m)
  {
  }

  /** Writing the same snapshot over its own result changes nothing. */
  lemma SettledFields(t: Tables, known: set<ExtId>, w: WorkItem, s: Snapshot)
    ensures
      var r := Parented(known, Apply(t, w, s), s);
      Parented(known, Apply(t, r, s), s) == r
  {
  }

  lemma {:induction false} StableUnderIngest(cfg: Config, st: Store, batch: seq<Snapshot>, p: Option<ProjectId>)
    requires Stable(cfg, st, batch, p)
    ensures IngestAll(cfg, st, Calls(batch, p)) == st
  {
    if batch != [] {
      assert Front(Calls(batch, p)) == Calls(Front(batch), p);
      assert forall s :: s in Front(batch) ==> s in batch;
      StableUnderIngest(cfg, st, Front(batch), p);
    }
  }

  lemma {:induction false} StableUnderRelink(cfg: Config, st: Store, batch: seq<Snapshot>, p: Option<ProjectId>)
    requires Stable(cfg, st, batch, p)
    ensures RelinkAll(cfg.tables, st, batch) == st
  {
    if batch != [] {
      assert forall s :: s in Front(batch) ==> s in batch;
      StableUnderRelink(cfg, st, Front(batch), p);
    }
  }

  /** Repeating the import, in any order, changes nothing at all and publishes nothing. */
  lemma ImportIdempotent(cfg: Config, st: Store, a: seq<Snapshot>, b: seq<Snapshot>, p: Option<ProjectId>)
    requires DistinctIds(a) && SameElements(a, b)
    ensures Import(cfg, Import(cfg, st, a, p), b, p) == Import(cfg, st, a, p)
  {
    var r := Import(cfg, st, a, p);
    SettledIsStable(cfg, st, a, p);
    assert Stable(cfg, r, b, p);
    StableUnderIngest(cfg, r, b, p);
    StableUnderRelink(cfg, r, b, p);
  }
}
