/** The store after any orderly actions of the bootstrap, and exactly when it is a whole import. */
module BootstrapLooks {
  import opened Prelude
  import opened Snapshots
  import opened Ingestion
  import opened Bootstrap
  import opened BootstrapRuns
  import TwoPass

  // ----- when each package was last looked at --------------------------------

  /** For each package ingested so far, how many packages were there when its parent and relations were last looked
      at. Ingesting a package looks at it, and relinking looks at every package from an index on. */
  function Look(looks: seq<nat>, a: Action): seq<nat> {
    match a
    case IngestPackage(i) =>
      if i < |looks| then looks[i := |looks|] else if i == |looks| then looks + [i + 1] else looks
    case RelinkFrom(n) => seq(|looks|, i requires 0 <= i < |looks| => if n <= i then |looks| else looks[i])
    case _ => looks
  }

  function LookAll(looks: seq<nat>, actions: seq<Action>): seq<nat> {
    if actions == [] then looks else Look(LookAll(looks, Front(actions)), Last(actions))
  }

  /** Packages are ingested without gaps, relinked or declared done only when all are there, and no cursor runs
      ahead. */
  predicate Orderly(count: nat, looks: seq<nat>, a: Action) {
    match a
    case IngestPackage(i) => i <= |looks| && i < count
    case RelinkFrom(_) => |looks| == count
    case Save(c) => c.lastPage <= |looks| + 1 && (BootstrapRuns.Done(c.status) ==> |looks| == count)
    case _ => true
  }

  predicate OrderlyAll(count: nat, looks: seq<nat>, actions: seq<Action>) {
    actions != [] ==>
      OrderlyAll(count, looks, Front(actions)) && Orderly(count, LookAll(looks, Front(actions)), Last(actions))
  }

  predicate Bounded(count: nat, looks: seq<nat>) {
    |looks| <= count && forall i :: 0 <= i < |looks| ==> i < looks[i] <= |looks|
  }

  lemma LookStep(count: nat, looks: seq<nat>, a: Action)
    requires Bounded(count, looks) && Orderly(count, looks, a)
    ensures Bounded(count, Look(looks, a)) && |looks| <= |Look(looks, a)|
  {
  }

  lemma {:induction false} LookConcat(count: nat, looks: seq<nat>, a: seq<Action>, b: seq<Action>)
    ensures LookAll(looks, a + b) == LookAll(LookAll(looks, a), b)
    ensures OrderlyAll(count, looks, a + b) <==>
      OrderlyAll(count, looks, a) && OrderlyAll(count, LookAll(looks, a), b)
  {
    hide Look, Orderly;
    if b == [] {
      assert a + b == a;
    } else {
      assert Front(a + b) == a + Front(b);
      LookConcat(count, looks, a, Front(b));
    }
  }

  lemma {:induction false} LooksBounded(count: nat, looks: seq<nat>, actions: seq<Action>)
    requires Bounded(count, looks) && OrderlyAll(count, looks, actions)
    ensures Bounded(count, LookAll(looks, actions)) && |looks| <= |LookAll(looks, actions)|
  {
    hide Look, Orderly, Bounded;
    if actions != [] {
      LooksBounded(count, looks, Front(actions));
      LookStep(count, LookAll(looks, Front(actions)), Last(actions));
    }
  }

  // ----- what the packages known at a time are -------------------------------

  /** Items known once the first `n` packages have been ingested. */
  function KnownAfter(st: Store, packages: seq<Snapshot>, n: nat): set<ExtId>
    requires n <= |packages|
  {
    st.items.Keys + set i | 0 <= i < n :: packages[i].externalId
  }

  lemma KnownStep(st: Store, packages: seq<Snapshot>, n: nat)
    requires n < |packages|
    ensures KnownAfter(st, packages, n + 1) == KnownAfter(st, packages, n) + {packages[n].externalId}
  {
  }

  lemma KnownNone(st: Store, packages: seq<Snapshot>)
    ensures KnownAfter(st, packages, 0) == st.items.Keys
  {
  }

  lemma KnownGrows(st: Store, packages: seq<Snapshot>, a: nat, b: nat)
    requires a <= b <= |packages|
    ensures KnownAfter(st, packages, a) <= KnownAfter(st, packages, b)
    ensures forall i :: 0 <= i < b ==> packages[i].externalId in KnownAfter(st, packages, b)
    ensures st.items.Keys <= KnownAfter(st, packages, b)
  {
  }

  /** The fields a package gives its item, before any parent is looked at. */
  function Base(t: Tables, st: Store, s: Snapshot, project: ProjectId): WorkItem {
    Apply(t, if s.externalId in st.items then st.items[s.externalId] else NewItem(s, project), s)
  }

  // ----- batches of the provider's packages ----------------------------------

  /** What the packages from `n` on are worth as a map, package by package. */
  lemma TailIsBatch(packages: seq<Snapshot>, n: nat)
    requires n <= |packages| && TwoPass.DistinctIds(packages)
    ensures TwoPass.DistinctIds(packages[n..]) && TwoPass.Keyed(TwoPass.ById(packages[n..]))
    ensures forall i :: n <= i < |packages| ==>
      packages[i].externalId in TwoPass.ById(packages[n..])
      && TwoPass.ById(packages[n..])[packages[i].externalId] == packages[i]
    ensures forall id :: id in TwoPass.ById(packages[n..]) ==>
      exists i :: n <= i < |packages| && packages[i].externalId == id
  {
    hide TwoPass.ById;
    var tail := packages[n..];
    TwoPass.ByIdIsBatch(tail);
    forall i | n <= i < |packages|
      ensures packages[i].externalId in TwoPass.ById(tail) && TwoPass.ById(tail)[packages[i].externalId] == packages[i]
    {
      assert tail[i - n] == packages[i];
    }
    forall id | id in TwoPass.ById(tail)
      ensures exists i :: n <= i < |packages| && packages[i].externalId == id
    {
      var j :| 0 <= j < |tail| && tail[j] == TwoPass.ById(tail)[id];
      assert packages[n + j].externalId == id;
    }
  }

  lemma InTail(packages: seq<Snapshot>, n: nat, i: nat)
    requires n <= |packages| && i < |packages| && TwoPass.DistinctIds(packages)
    ensures var m := TwoPass.ById(packages[n..]);
      if n <= i then packages[i].externalId in m && m[packages[i].externalId] == packages[i]
      else packages[i].externalId !in m
  {
    hide TwoPass.ById;
    TailIsBatch(packages, n);
    assert forall j :: n <= j < |packages| && i < n ==> packages[i].externalId != packages[j].externalId;
  }

  lemma TailLinks(t: Tables, known: set<ExtId>, packages: seq<Snapshot>, n: nat, l: Link)
    requires n <= |packages| && TwoPass.DistinctIds(packages)
    requires forall i :: n <= i < |packages| ==> packages[i].externalId in known
    ensures l in TwoPass.LinksOfBatch(t, known, TwoPass.ById(packages[n..]))
      <==> exists i :: n <= i < |packages| && l in AllLinks(t, known, packages[i])
  {
    hide AllLinks, TwoPass.ById;
    TailIsBatch(packages, n);
    var m := TwoPass.ById(packages[n..]);
    if l in TwoPass.LinksOfBatch(t, known, m) {
      var id :| id in m && id in known && l in AllLinks(t, known, m[id]);
      var i :| n <= i < |packages| && packages[i].externalId == id;
    }
  }

  lemma ByIdPrefix(packages: seq<Snapshot>, m: nat)
    requires m < |packages|
    ensures TwoPass.ById(packages[..m + 1]) == TwoPass.ById(packages[..m])[packages[m].externalId := packages[m]]
  {
    assert Front(packages[..m + 1]) == packages[..m];
  }

  lemma InPrefix(packages: seq<Snapshot>, m: nat, i: nat)
    requires i < m <= |packages| && TwoPass.DistinctIds(packages)
    ensures packages[i].externalId in TwoPass.ById(packages[..m])
    ensures TwoPass.ById(packages[..m])[packages[i].externalId] == packages[i]
  {
    TwoPass.ByIdIsBatch(packages[..m]);
    assert packages[..m][i] == packages[i];
  }

  lemma NoBatch()
    ensures TwoPass.ById([]) == map[]
  {
  }

  // ----- what one action writes ----------------------------------------------

  /** The work of a provider project that exists: the state, the packages and what has been looked at. */
  predicate Scene(src: Source, st: Store) {
    HasProject(st.projects, src.project) && TwoPass.DistinctIds(src.packages)
  }

  lemma IngestWrites(cfg: Config, src: Source, db: Db, i: nat)
    requires HasProject(db.store.projects, src.project) && i < |src.packages|
    ensures
      var before, r, s := db.store, Perform(cfg, src, db, IngestPackage(i)).store, src.packages[i];
      && r.projects == before.projects && r.events == before.events
      && r.baselines == before.baselines[s.externalId := s]
      && r.items == before.items[s.externalId := Upserted(cfg.tables, before, s, src.project)]
      && r.relations == before.relations + AllLinks(cfg.tables, before.items.Keys + {s.externalId}, s)
  {
    hide Ingest, HasProject;
    TwoPass.BootstrapEffect(cfg, db.store, src.packages[i], Some(src.project));
  }

  lemma RelinkWrites(cfg: Config, src: Source, db: Db, n: nat)
    requires TwoPass.DistinctIds(src.packages)
    ensures
      var tail := if n <= |src.packages| then src.packages[n..] else [];
      Perform(cfg, src, db, RelinkFrom(n)).store == TwoPass.Relinked(cfg.tables, db.store, TwoPass.ById(tail))
  {
    hide RelinkAll, TwoPass.Relinked, TwoPass.ById;
    if n <= |src.packages| {
      TailIsBatch(src.packages, n);
    }
    TwoPass.SecondPass(cfg.tables, db.store, Tail(src, n));
  }

  lemma OthersWriteNothing(cfg: Config, src: Source, db: Db, a: Action)
    requires !a.IngestPackage? && !a.RelinkFrom?
    ensures Perform(cfg, src, db, a).store == db.store
  {
  }

  // ----- the store after any orderly actions ---------------------------------

  lemma {:induction false} StoreKeys(cfg: Config, src: Source, db: Db, actions: seq<Action>)
    requires Scene(src, db.store) && OrderlyAll(|src.packages|, [], actions)
    ensures
      var looks, r := LookAll([], actions), PerformAll(cfg, src, db, actions).store;
      && Bounded(|src.packages|, looks)
      && r.projects == db.store.projects && r.events == db.store.events
      && r.items.Keys == KnownAfter(db.store, src.packages, |looks|)
  {
    hide Perform, HasProject, TwoPass.DistinctIds, AllLinks, Upserted, KnownAfter, TwoPass.ById, TwoPass.LinksOfBatch,
      Parented;
    LooksBounded(|src.packages|, [], actions);
    if actions == [] {
      KnownNone(db.store, src.packages);
    } else {
      var before, a := PerformAll(cfg, src, db, Front(actions)), Last(actions);
      var looks := LookAll([], Front(actions));
      StoreKeys(cfg, src, db, Front(actions));
      match a
      case IngestPackage(i) =>
        IngestWrites(cfg, src, before, i);
        KnownGrows(db.store, src.packages, |looks|, |looks|);
        if i == |looks| {
          KnownStep(db.store, src.packages, i);
        }
      case RelinkFrom(n) =>
        RelinkWrites(cfg, src, before, n);
      case _ =>
        OthersWriteNothing(cfg, src, before, a);
    }
  }

  /** Only an item's own package writes it. */
  lemma {:induction false} StoreUntouched(cfg: Config, src: Source, db: Db, actions: seq<Action>, id: ExtId)
    requires Scene(src, db.store) && OrderlyAll(|src.packages|, [], actions)
    requires |LookAll([], actions)| <= |src.packages|
    requires forall i :: 0 <= i < |LookAll([], actions)| ==> src.packages[i].externalId != id
    ensures
      var r := PerformAll(cfg, src, db, actions).store;
      (id in r.items <==> id in db.store.items) && (id in db.store.items ==> r.items[id] == db.store.items[id])
  {
    hide Perform, HasProject, TwoPass.DistinctIds, AllLinks, Upserted, KnownAfter, TwoPass.ById, TwoPass.LinksOfBatch,
      Parented;
    if actions != [] {
      var before, a := PerformAll(cfg, src, db, Front(actions)), Last(actions);
      var looks := LookAll([], Front(actions));
      StoreKeys(cfg, src, db, Front(actions));
      LookStep(|src.packages|, looks, a);
      StoreUntouched(cfg, src, db, Front(actions), id);
      match a
      case IngestPackage(i) =>
        IngestWrites(cfg, src, before, i);
      case RelinkFrom(n) =>
        RelinkWrites(cfg, src, before, n);
        if n <= |src.packages| {
          TailIsBatch(src.packages, n);
          assert id !in TwoPass.ById(src.packages[n..]);
        } else {
          NoBatch();
        }
      case _ =>
        OthersWriteNothing(cfg, src, before, a);
    }
  }

  lemma AgainOverItself(t: Tables, early: set<ExtId>, known: set<ExtId>, w: WorkItem, s: Snapshot)
    requires early <= known
    ensures
      var r := Parented(early, Apply(t, w, s), s);
      && Parented(known, Apply(t, r, s), s) == Parented(known, Apply(t, w, s), s)
      && Parented(known, r, s) == Parented(known, Apply(t, w, s), s)
  {
  }

  /** The item of every package ingested so far: its own fields, and the parent it names if that was known when the
      package was last looked at. */
  lemma {:induction false} StoreItem(cfg: Config, src: Source, db: Db, actions: seq<Action>, i: nat)
    requires Scene(src, db.store) && OrderlyAll(|src.packages|, [], actions) && i < |LookAll([], actions)|
    ensures Bounded(|src.packages|, LookAll([], actions))
    ensures
      var looks, r, s := LookAll([], actions), PerformAll(cfg, src, db, actions).store, src.packages[i];
      && s.externalId in r.items
      && r.items[s.externalId]
         == Parented(KnownAfter(db.store, src.packages, looks[i]), Base(cfg.tables, db.store, s, src.project), s)
  {
    hide Perform, HasProject, TwoPass.DistinctIds, AllLinks, KnownAfter, TwoPass.ById, TwoPass.LinksOfBatch,
      Parented, Apply, NewItem;
    StoreKeys(cfg, src, db, actions);
    var before, a := PerformAll(cfg, src, db, Front(actions)), Last(actions);
    var looks, s, t := LookAll([], Front(actions)), src.packages[i], cfg.tables;
    var w := if s.externalId in db.store.items then db.store.items[s.externalId] else NewItem(s, src.project);
    StoreKeys(cfg, src, db, Front(actions));
    KnownGrows(db.store, src.packages, |looks|, |looks|);
    if i < |looks| {
      assert KnownAfter(db.store, src.packages, |looks|) + {s.externalId}
        == KnownAfter(db.store, src.packages, |looks|);
      StoreItem(cfg, src, db, Front(actions), i);
      KnownGrows(db.store, src.packages, looks[i], |looks|);
      AgainOverItself(t, KnownAfter(db.store, src.packages, looks[i]), KnownAfter(db.store, src.packages, |looks|),
        w, s);
    } else {
      FirstLook(src, looks, a, i);
      KnownStep(db.store, src.packages, i);
      NotBefore(src, i);
      StoreUntouched(cfg, src, db, Front(actions), s.externalId);
    }
    match a
    case IngestPackage(j) =>
      IngestWrites(cfg, src, before, j);
      DistinctPair(src, i, j);
    case RelinkFrom(n) =>
      RelinkWrites(cfg, src, before, n);
      if n <= |src.packages| {
        InTail(src.packages, n, i);
      } else {
        NoBatch();
      }
    case _ =>
      OthersWriteNothing(cfg, src, before, a);
  }

  lemma FirstLook(src: Source, looks: seq<nat>, a: Action, i: nat)
    requires |looks| <= i < |Look(looks, a)|
    ensures i == |looks| && a == IngestPackage(i)
  {
  }

  lemma NotBefore(src: Source, i: nat)
    requires i < |src.packages| && TwoPass.DistinctIds(src.packages)
    ensures forall j :: 0 <= j < i ==> src.packages[j].externalId != src.packages[i].externalId
  {
  }

  lemma DistinctPair(src: Source, i: nat, j: nat)
    requires i < |src.packages| && j < |src.packages| && TwoPass.DistinctIds(src.packages)
    ensures i != j ==> src.packages[i].externalId != src.packages[j].externalId
  {
    assert i < j ==> src.packages[i].externalId != src.packages[j].externalId;
    assert j < i ==> src.packages[j].externalId != src.packages[i].externalId;
  }

  lemma {:induction false} StoreBaselines(cfg: Config, src: Source, db: Db, actions: seq<Action>)
    requires Scene(src, db.store) && OrderlyAll(|src.packages|, [], actions)
    requires |LookAll([], actions)| <= |src.packages|
    ensures PerformAll(cfg, src, db, actions).store.baselines
      == db.store.baselines + TwoPass.ById(src.packages[..|LookAll([], actions)|])
  {
    hide Perform, HasProject, TwoPass.DistinctIds, AllLinks, Upserted, KnownAfter, TwoPass.ById, TwoPass.LinksOfBatch,
      Parented;
    if actions == [] {
      NoBaselines(src, db.store);
    } else {
      var before, a := PerformAll(cfg, src, db, Front(actions)), Last(actions);
      var looks := LookAll([], Front(actions));
      StoreKeys(cfg, src, db, Front(actions));
      StoreBaselines(cfg, src, db, Front(actions));
      match a
      case IngestPackage(i) =>
        IngestWrites(cfg, src, before, i);
        if i == |looks| {
          ByIdPrefix(src.packages, i);
        } else {
          InPrefix(src.packages, |looks|, i);
        }
      case RelinkFrom(n) =>
        RelinkWrites(cfg, src, before, n);
      case _ =>
        OthersWriteNothing(cfg, src, before, a);
    }
  }

  lemma NoBaselines(src: Source, st: Store)
    ensures st.baselines + TwoPass.ById(src.packages[..0]) == st.baselines
  {
    assert TwoPass.ById(src.packages[..0]) == map[];
  }

  /** Some package makes the relation at its last look. */
  predicate LinkSeen(t: Tables, st: Store, packages: seq<Snapshot>, looks: seq<nat>, l: Link)
    requires Bounded(|packages|, looks)
  {
    exists i :: 0 <= i < |looks| && l in AllLinks(t, KnownAfter(st, packages, looks[i]), packages[i])
  }

  /** A look at one package, whenever it is taken, adds exactly its relations at that time. */
  lemma LinkSeenStep(t: Tables, st: Store, packages: seq<Snapshot>, looks: seq<nat>, i: nat, l: Link)
    requires Bounded(|packages|, looks) && i <= |looks| && i < |packages|
    ensures
      var now := if i < |looks| then |looks| else i + 1;
      var after := Look(looks, IngestPackage(i));
      && Bounded(|packages|, after)
      && (LinkSeen(t, st, packages, after, l)
          <==> LinkSeen(t, st, packages, looks, l) || l in AllLinks(t, KnownAfter(st, packages, now), packages[i]))
  {
    hide AllLinks, KnownAfter;
    var now := if i < |looks| then |looks| else i + 1;
    var after := Look(looks, IngestPackage(i));
    if i < |looks| {
      KnownGrows(st, packages, looks[i], |looks|);
      TwoPass.LinksMonotone(t, KnownAfter(st, packages, looks[i]), KnownAfter(st, packages, |looks|), packages[i]);
    }
    assert after[i] == now;
    assert forall j :: 0 <= j < |looks| && j != i ==> after[j] == looks[j];
  }

  lemma LinkSeenRelink(t: Tables, st: Store, packages: seq<Snapshot>, looks: seq<nat>, n: nat, l: Link)
    requires Bounded(|packages|, looks) && |looks| == |packages|
    ensures
      var after := Look(looks, RelinkFrom(n));
      && Bounded(|packages|, after)
      && (LinkSeen(t, st, packages, after, l)
          <==> LinkSeen(t, st, packages, looks, l)
               || exists i :: n <= i < |packages|
                    && l in AllLinks(t, KnownAfter(st, packages, |packages|), packages[i]))
  {
    hide AllLinks, KnownAfter;
    var after := Look(looks, RelinkFrom(n));
    forall i | n <= i < |packages| && l in AllLinks(t, KnownAfter(st, packages, looks[i]), packages[i])
      ensures l in AllLinks(t, KnownAfter(st, packages, |packages|), packages[i])
    {
      KnownGrows(st, packages, looks[i], |packages|);
      TwoPass.LinksMonotone(t, KnownAfter(st, packages, looks[i]), KnownAfter(st, packages, |packages|), packages[i]);
    }
    assert forall i :: 0 <= i < |packages| ==> after[i] == if n <= i then |packages| else looks[i];
  }

  /** A relation exists exactly when it did before or some package makes it at its last look. */
  lemma {:induction false} StoreRelation(cfg: Config, src: Source, db: Db, actions: seq<Action>, l: Link)
    requires Scene(src, db.store) && OrderlyAll(|src.packages|, [], actions)
    ensures Bounded(|src.packages|, LookAll([], actions))
    ensures l in PerformAll(cfg, src, db, actions).store.relations
      <==> l in db.store.relations || LinkSeen(cfg.tables, db.store, src.packages, LookAll([], actions), l)
  {
    hide Perform, HasProject, TwoPass.DistinctIds, AllLinks, Upserted, KnownAfter, TwoPass.ById, TwoPass.LinksOfBatch,
      Parented, Bounded, Look;
    StoreKeys(cfg, src, db, actions);
    if actions == [] {
      NothingSeen(cfg.tables, db.store, src.packages, l);
    } else {
      hide LinkSeen;
      var before, a := PerformAll(cfg, src, db, Front(actions)), Last(actions);
      var looks := LookAll([], Front(actions));
      StoreKeys(cfg, src, db, Front(actions));
      StoreRelation(cfg, src, db, Front(actions), l);
      match a
      case IngestPackage(i) =>
        IngestWrites(cfg, src, before, i);
        LinkSeenStep(cfg.tables, db.store, src.packages, looks, i, l);
        KnownThen(src, db.store, looks, i);
      case RelinkFrom(n) =>
        RelinkWrites(cfg, src, before, n);
        LinkSeenRelink(cfg.tables, db.store, src.packages, looks, n, l);
        KnownGrows(db.store, src.packages, |src.packages|, |src.packages|);
        if n <= |src.packages| {
          TailLinks(cfg.tables, KnownAfter(db.store, src.packages, |src.packages|), src.packages, n, l);
        } else {
          NoLinks(cfg.tables, KnownAfter(db.store, src.packages, |src.packages|));
        }
      case _ =>
        OthersWriteNothing(cfg, src, before, a);
        SameLooks(looks, a);
    }
  }

  lemma KnownThen(src: Source, st: Store, looks: seq<nat>, i: nat)
    requires Bounded(|src.packages|, looks) && i <= |looks| && i < |src.packages|
    ensures KnownAfter(st, src.packages, |looks|) + {src.packages[i].externalId}
      == KnownAfter(st, src.packages, if i < |looks| then |looks| else i + 1)
  {
    if i == |looks| {
      KnownStep(st, src.packages, i);
    }
  }

  lemma NothingSeen(t: Tables, st: Store, packages: seq<Snapshot>, l: Link)
    ensures Bounded(|packages|, []) && !LinkSeen(t, st, packages, [], l)
  {
  }

  lemma NoLinks(t: Tables, known: set<ExtId>)
    ensures TwoPass.LinksOfBatch(t, known, TwoPass.ById([])) == {}
  {
    TwoPass.LinksOfNothing(t, known);
  }

  lemma SameLooks(looks: seq<nat>, a: Action)
    requires !a.IngestPackage? && !a.RelinkFrom?
    ensures Look(looks, a) == looks
  {
  }

  // ----- when nothing is missing ---------------------------------------------

  /** Every package's last look came late enough: the parent it names was known by then, if it is known at all, and
      each of its relations is made by some last look. */
  predicate Timely(t: Tables, st: Store, packages: seq<Snapshot>, looks: seq<nat>)
    requires Bounded(|packages|, looks) && |looks| == |packages|
  {
    && (forall i :: 0 <= i < |packages| ==>
          var p := ParentRef(packages[i]);
          p.Some? && p.value in KnownAfter(st, packages, |packages|) ==> p.value in KnownAfter(st, packages, looks[i]))
    && (forall i, l :: 0 <= i < |packages| && l in AllLinks(t, KnownAfter(st, packages, |packages|), packages[i]) ==>
          l in st.relations || LinkSeen(t, st, packages, looks, l))
  }

  lemma WholeKnown(src: Source, st: Store)
    requires Scene(src, st)
    ensures TwoPass.Known(st, TwoPass.ById(src.packages), Some(src.project))
      == KnownAfter(st, src.packages, |src.packages|)
  {
    hide HasProject, TwoPass.ById;
    assert src.packages[0..] == src.packages;
    TailIsBatch(src.packages, 0);
  }

  /** The order-free form of the whole import, read package by package. */
  lemma WholeItem(t: Tables, src: Source, st: Store, i: nat)
    requires Scene(src, st) && i < |src.packages|
    ensures
      var g, s := TwoPass.Settled(t, st, TwoPass.ById(src.packages), Some(src.project)), src.packages[i];
      && s.externalId in g.items
      && g.items[s.externalId]
         == Parented(KnownAfter(st, src.packages, |src.packages|), Base(t, st, s, src.project), s)
  {
    hide HasProject, TwoPass.ById, TwoPass.LinksOfBatch, Parented, Apply, NewItem, TwoPass.Known, KnownAfter;
    assert src.packages[0..] == src.packages;
    InTail(src.packages, 0, i);
    WholeKnown(src, st);
    KnownGrows(st, src.packages, |src.packages|, |src.packages|);
  }

  lemma WholeOther(t: Tables, src: Source, st: Store, id: ExtId)
    requires Scene(src, st) && id in st.items
    requires forall i :: 0 <= i < |src.packages| ==> src.packages[i].externalId != id
    ensures
      var g := TwoPass.Settled(t, st, TwoPass.ById(src.packages), Some(src.project));
      id in g.items && g.items[id] == st.items[id]
  {
    hide HasProject, TwoPass.ById, TwoPass.LinksOfBatch;
    assert src.packages[0..] == src.packages;
    TailIsBatch(src.packages, 0);
  }

  lemma WholeKeys(t: Tables, src: Source, st: Store)
    requires Scene(src, st)
    ensures TwoPass.Settled(t, st, TwoPass.ById(src.packages), Some(src.project)).items.Keys
      == KnownAfter(st, src.packages, |src.packages|)
  {
    hide HasProject, TwoPass.ById, TwoPass.LinksOfBatch, TwoPass.Known, KnownAfter;
    WholeKnown(src, st);
  }

  lemma WholeRelation(t: Tables, src: Source, st: Store, l: Link)
    requires Scene(src, st)
    ensures
      l in TwoPass.Settled(t, st, TwoPass.ById(src.packages), Some(src.project)).relations
      <==> l in st.relations
           || exists i :: 0 <= i < |src.packages|
                && l in AllLinks(t, KnownAfter(st, src.packages, |src.packages|), src.packages[i])
  {
    hide HasProject, AllLinks, TwoPass.LinksOfBatch, TwoPass.ById, TwoPass.Known, KnownAfter;
    assert src.packages[0..] == src.packages;
    WholeKnown(src, st);
    KnownGrows(st, src.packages, |src.packages|, |src.packages|);
    TailLinks(t, KnownAfter(st, src.packages, |src.packages|), src.packages, 0, l);
  }

  lemma SameParentIff(early: set<ExtId>, known: set<ExtId>, w: WorkItem, s: Snapshot)
    requires early <= known && (w.parent.Some? ==> w.parent.value in early)
    ensures Parented(early, w, s) == Parented(known, w, s)
      <==> (ParentRef(s).Some? && ParentRef(s).value in known ==> ParentRef(s).value in early)
  {
    hide ParentRef;
  }

  lemma BaseParent(t: Tables, st: Store, s: Snapshot, project: ProjectId, known: set<ExtId>)
    requires ParentsExist(st) && st.items.Keys <= known
    ensures var w := Base(t, st, s, project); w.parent.Some? ==> w.parent.value in known
  {
  }

  lemma SameItemIff(cfg: Config, src: Source, db: Db, actions: seq<Action>, i: nat)
    requires Scene(src, db.store) && OrderlyAll(|src.packages|, [], actions) && ParentsExist(db.store)
    requires i < |LookAll([], actions)| == |src.packages|
    ensures Bounded(|src.packages|, LookAll([], actions))
    ensures
      var r, s := PerformAll(cfg, src, db, actions).store, src.packages[i];
      var g := TwoPass.Settled(cfg.tables, db.store, TwoPass.ById(src.packages), Some(src.project));
      var p := ParentRef(s);
      && s.externalId in r.items && s.externalId in g.items
      && (r.items[s.externalId] == g.items[s.externalId]
          <==> (p.Some? && p.value in KnownAfter(db.store, src.packages, |src.packages|) ==>
                  p.value in KnownAfter(db.store, src.packages, LookAll([], actions)[i])))
  {
    hide HasProject, PerformAll, TwoPass.Settled, TwoPass.ById, Parented, Base, ParentRef, ParentsExist,
      KnownAfter, LookAll, OrderlyAll;
    var packages, st := src.packages, db.store;
    StoreItem(cfg, src, db, actions, i);
    WholeItem(cfg.tables, src, st, i);
    var look := LookAll([], actions)[i];
    KnownGrows(st, packages, look, |packages|);
    KnownGrows(st, packages, look, look);
    BaseParent(cfg.tables, st, packages[i], src.project, KnownAfter(st, packages, look));
    SameParentIff(KnownAfter(st, packages, look), KnownAfter(st, packages, |packages|),
      Base(cfg.tables, st, packages[i], src.project), packages[i]);
  }

  lemma SameItemsIff(cfg: Config, src: Source, db: Db, actions: seq<Action>)
    requires Scene(src, db.store) && OrderlyAll(|src.packages|, [], actions) && ParentsExist(db.store)
    requires |LookAll([], actions)| == |src.packages|
    ensures Bounded(|src.packages|, LookAll([], actions))
    ensures
      PerformAll(cfg, src, db, actions).store.items
        == TwoPass.Settled(cfg.tables, db.store, TwoPass.ById(src.packages), Some(src.project)).items
      <==> forall i :: 0 <= i < |src.packages| ==>
             var p := ParentRef(src.packages[i]);
             p.Some? && p.value in KnownAfter(db.store, src.packages, |src.packages|) ==>
               p.value in KnownAfter(db.store, src.packages, LookAll([], actions)[i])
  {
    hide HasProject, PerformAll, TwoPass.Settled, TwoPass.ById, ParentRef, ParentsExist, LookAll,
      OrderlyAll, KnownAfter;
    var looks := LookAll([], actions);
    var a := PerformAll(cfg, src, db, actions).store.items;
    var b := TwoPass.Settled(cfg.tables, db.store, TwoPass.ById(src.packages), Some(src.project)).items;
    StoreKeys(cfg, src, db, actions);
    WholeKeys(cfg.tables, src, db.store);
    forall i | 0 <= i < |src.packages|
      ensures
        var p, id := ParentRef(src.packages[i]), src.packages[i].externalId;
        && id in a && id in b
        && (a[id] == b[id] <==>
              (p.Some? && p.value in KnownAfter(db.store, src.packages, |src.packages|) ==>
                 p.value in KnownAfter(db.store, src.packages, looks[i])))
    {
      SameItemIff(cfg, src, db, actions, i);
    }
    if forall i :: 0 <= i < |src.packages| ==> a[src.packages[i].externalId] == b[src.packages[i].externalId] {
      forall id | id in a
        ensures a[id] == b[id]
      {
        if forall i :: 0 <= i < |src.packages| ==> src.packages[i].externalId != id {
          OtherWasThere(src, db.store, id);
          StoreUntouched(cfg, src, db, actions, id);
          WholeOther(cfg.tables, src, db.store, id);
        }
      }
      assert a == b;
    }
  }

  lemma OtherWasThere(src: Source, st: Store, id: ExtId)
    requires id in KnownAfter(st, src.packages, |src.packages|)
    requires forall i :: 0 <= i < |src.packages| ==> src.packages[i].externalId != id
    ensures id in st.items
  {
  }

  lemma SeenInTheEnd(t: Tables, st: Store, packages: seq<Snapshot>, looks: seq<nat>, l: Link)
    requires Bounded(|packages|, looks) && LinkSeen(t, st, packages, looks, l)
    ensures exists i :: 0 <= i < |packages| && l in AllLinks(t, KnownAfter(st, packages, |packages|), packages[i])
  {
    hide AllLinks, KnownAfter;
    var i :| 0 <= i < |looks| && l in AllLinks(t, KnownAfter(st, packages, looks[i]), packages[i]);
    KnownGrows(st, packages, looks[i], |packages|);
    TwoPass.LinksMonotone(t, KnownAfter(st, packages, looks[i]), KnownAfter(st, packages, |packages|), packages[i]);
  }

  lemma SameRelationsIff(cfg: Config, src: Source, db: Db, actions: seq<Action>)
    requires Scene(src, db.store) && OrderlyAll(|src.packages|, [], actions)
    ensures Bounded(|src.packages|, LookAll([], actions))
    ensures
      var t, packages := cfg.tables, src.packages;
      PerformAll(cfg, src, db, actions).store.relations
        == TwoPass.Settled(t, db.store, TwoPass.ById(packages), Some(src.project)).relations
      <==> forall i, l ::
             0 <= i < |packages| && l in AllLinks(t, KnownAfter(db.store, packages, |packages|), packages[i]) ==>
               l in db.store.relations || LinkSeen(t, db.store, packages, LookAll([], actions), l)
  {
    hide HasProject, PerformAll, TwoPass.Settled, TwoPass.ById, LookAll, OrderlyAll, KnownAfter, AllLinks,
      LinkSeen, Bounded;
    var t, packages, looks := cfg.tables, src.packages, LookAll([], actions);
    var known := KnownAfter(db.store, packages, |packages|);
    var a := PerformAll(cfg, src, db, actions).store.relations;
    var b := TwoPass.Settled(t, db.store, TwoPass.ById(packages), Some(src.project)).relations;
    StoreKeys(cfg, src, db, actions);
    forall l
      ensures l in a <==> l in db.store.relations || LinkSeen(t, db.store, packages, looks, l)
      ensures l in b
        <==> l in db.store.relations || exists i :: 0 <= i < |packages| && l in AllLinks(t, known, packages[i])
      ensures l in a ==> l in b
    {
      StoreRelation(cfg, src, db, actions, l);
      WholeRelation(t, src, db.store, l);
      if LinkSeen(t, db.store, packages, looks, l) {
        SeenInTheEnd(t, db.store, packages, looks, l);
      }
    }
    assert a == b <==> forall l :: l in b ==> l in a;
  }

  /** Whatever orderly actions were taken, once all packages are ingested the store is the whole import if and only
      if every last look came late enough. */
  lemma SettledIffTimely(cfg: Config, src: Source, db: Db, actions: seq<Action>)
    requires Scene(src, db.store) && OrderlyAll(|src.packages|, [], actions) && ParentsExist(db.store)
    requires |LookAll([], actions)| == |src.packages|
    ensures Bounded(|src.packages|, LookAll([], actions))
    ensures
      TwoPass.View(PerformAll(cfg, src, db, actions).store)
        == TwoPass.Settled(cfg.tables, db.store, TwoPass.ById(src.packages), Some(src.project))
      <==> Timely(cfg.tables, db.store, src.packages, LookAll([], actions))
  {
    hide HasProject, PerformAll, TwoPass.ById, LookAll, OrderlyAll, KnownAfter, AllLinks, LinkSeen, Bounded, ParentRef,
      ParentsExist, TwoPass.LinksOfBatch, TwoPass.Known, TwoPass.Fields, Parented;
    SameItemsIff(cfg, src, db, actions);
    SameRelationsIff(cfg, src, db, actions);
    StoreBaselines(cfg, src, db, actions);
    assert src.packages[..|src.packages|] == src.packages;
  }
}
