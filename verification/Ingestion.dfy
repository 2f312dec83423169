/** The canonical ingestion path shared by webhook, bootstrap and pull
    (openproject_ingestion.py), as a function on the durable state and as the
    service that updates that state in place. */
module Ingestion {
  import opened Prelude
  import opened Snapshots

  type ProjectId = int

  datatype Project = Project(id: ProjectId, externalId: Option<string>)

  datatype HumanStatus = New | InProgress | OnHold | Done | Cancelled

  datatype Verification = NotVerified | Passed | Partial | Failed | Blocked

  datatype RelationKind = ParentOf | Blocks | RelatesTo | Precedes | Follows

  datatype Link = Link(source: ExtId, target: ExtId, kind: RelationKind)

  datatype WorkItem = WorkItem(
    project: ProjectId,
    title: string,
    description: string,
    kind: string,
    status: HumanStatus,
    priority: Option<string>,
    assignee: Option<int>,
    parent: Option<ExtId>,
    verification: Verification)

  datatype Mode = Bootstrap | Live

  datatype Event =
    | ItemEvent(created: bool, id: ExtId, item: WorkItem, changes: seq<Change>, snapshot: Snapshot)
    | ProviderFact(created: bool, id: ExtId, changes: seq<Change>, snapshot: Snapshot)
    | Assigned(id: ExtId, actor: string)

  /** The name tables and the assignee identity; every result holds for all of them. */
  datatype Tables = Tables(
    workItemType: string -> string,
    status: string -> HumanStatus,
    priority: string -> Option<string>,
    relationKind: string -> Option<RelationKind>,
    actor: string -> int)

  datatype Config = Config(tables: Tables, brainActor: Option<string>)

  /** Work items are keyed by their provider id; `listing` is the order in which they were created. */
  datatype Store = Store(
    projects: seq<Project>,
    items: map<ExtId, WorkItem>,
    listing: seq<ExtId>,
    relations: set<Link>,
    baselines: map<ExtId, Snapshot>,
    events: seq<Event>)

  /** Every parent names an item that exists. */
  predicate ParentsExist(st: Store) {
    forall id :: id in st.items && st.items[id].parent.Some? ==> st.items[id].parent.value in st.items
  }

  datatype Call = Call(
    snapshot: Snapshot,
    mode: Mode,
    project: Option<ProjectId>,
    action: Option<string>,
    publishUnchanged: bool)

  datatype IngestionResult = IngestionResult(
    item: Option<WorkItem>,
    created: bool,
    changes: seq<Change>,
    eventCreated: Option<bool>,
    assignmentTriggered: bool,
    relationsIngested: nat)

  // ----- project, fields, parent, relations ---------------------------------

  function FirstProject(projects: seq<Project>, externalId: string): Option<ProjectId> {
    if projects == [] then None
    else if projects[0].externalId == Some(externalId) then Some(projects[0].id)
    else FirstProject(projects[1..], externalId)
  }

  predicate HasProject(projects: seq<Project>, id: ProjectId) {
    exists p :: p in projects && p.id == id
  }

  function ResolveProject(projects: seq<Project>, s: Snapshot, requested: Option<ProjectId>): Option<ProjectId> {
    if requested.Some? then
      if HasProject(projects, requested.value) then requested else None
    else
      var byRef :=
        if s.projectId.Some? && s.projectId.value != "" then FirstProject(projects, s.projectId.value) else None;
      if byRef.Some? then byRef
      else if projects == [] then None
      else Some(projects[0].id)
  }

  function NewItem(s: Snapshot, project: ProjectId): WorkItem {
    WorkItem(project, if s.summary != "" then s.summary else "OpenProject " + s.externalId,
      s.description, "task", New, None, None, None, NotVerified)
  }

  function Apply(t: Tables, w: WorkItem, s: Snapshot): WorkItem {
    w.(title := if s.summary != "" then s.summary else w.title,
      description := if s.description != "" then s.description else w.description,
      kind := t.workItemType(s.typeName),
      status := t.status(s.state),
      priority := t.priority(s.priority),
      assignee :=
        if s.assigneeId.Some? && s.assigneeId.value != "" then Some(t.actor(s.assigneeId.value)) else w.assignee)
  }

  /** The provider id named by the snapshot's parent field, if it names another item. */
  function ParentRef(s: Snapshot): Option<ExtId> {
    if s.parentId.None? || s.parentId.value == 0 then None
    else
      var p := Decimal(s.parentId.value);
      if p == s.externalId then None else Some(p)
  }

  function Parented(known: set<ExtId>, w: WorkItem, s: Snapshot): WorkItem {
    var p := ParentRef(s);
    if p.Some? && p.value in known then w.(parent := p) else w
  }

  /** The relation a raw entry asks for, before looking at what exists. */
  function LinkOf(t: Tables, s: Snapshot, raw: RawRelation): Option<Link> {
    var target := Or(raw.targetId, raw.toKey);
    var kind := Or(raw.relationType, raw.typeKey);
    if !Truthy(target) || !Truthy(kind) then None
    else
      match t.relationKind(Render(kind))
      case None => None
      case Some(k) =>
        var source := Or(raw.sourceId, raw.fromKey);
        Some(Link(if source.Missing? then s.externalId else Render(source), Render(target), k))
  }

  predicate Resolvable(known: set<ExtId>, l: Link) {
    l.source in known && l.target in known && l.source != l.target
  }

  predicate Wanted(t: Tables, known: set<ExtId>, s: Snapshot, raw: RawRelation) {
    var l := LinkOf(t, s, raw);
    l.Some? && Resolvable(known, l.value)
  }

  /** The relations of a snapshot whose two ends both exist. */
  function Links(t: Tables, known: set<ExtId>, s: Snapshot, upTo: nat): set<Link>
    requires upTo <= |s.relations|
  {
    set i | 0 <= i < upTo && Wanted(t, known, s, s.relations[i]) :: LinkOf(t, s, s.relations[i]).value
  }

  function AllLinks(t: Tables, known: set<ExtId>, s: Snapshot): set<Link> {
    Links(t, known, s, |s.relations|)
  }

  function CountWanted(t: Tables, known: set<ExtId>, s: Snapshot, upTo: nat): nat
    requires upTo <= |s.relations|
  {
    if upTo == 0 then 0
    else CountWanted(t, known, s, upTo - 1) + (if Wanted(t, known, s, s.relations[upTo - 1]) then 1 else 0)
  }

  // ----- what a relation entry asks for ---------------------------------------

  /** The provider left the field out, or wrote zero or an empty text. */
  predicate Blank(v: Scalar) {
    v == Missing || v == Number(0) || v == Text("")
  }

  /** The field holds this text, or the number that is written this way. */
  predicate Reads(v: Scalar, text: string) {
    v == Text(text) || (v.Number? && Decimal(v.n) == text)
  }

  /** The first spelling of a field decides unless it is blank; then the second one does. */
  predicate Spells(first: Scalar, second: Scalar, text: string) {
    (!Blank(first) && Reads(first, text)) || (Blank(first) && Reads(second, text))
  }

  /** The entry asks for this relation: target and kind must not be blank, the kind must be one of the table, and
      an entry without a source belongs to the snapshot's own item. */
  ghost predicate AsksFor(t: Tables, s: Snapshot, raw: RawRelation, l: Link) {
    && Spells(raw.targetId, raw.toKey, l.target)
    && !(Blank(raw.targetId) && Blank(raw.toKey))
    && (exists kind ::
         && Spells(raw.relationType, raw.typeKey, kind)
         && !(Blank(raw.relationType) && Blank(raw.typeKey))
         && t.relationKind(kind) == Some(l.kind))
    && if Blank(raw.sourceId) && raw.fromKey.Missing? then l.source == s.externalId
       else Spells(raw.sourceId, raw.fromKey, l.source)
  }

  lemma LinkIsAskedFor(t: Tables, s: Snapshot, raw: RawRelation, l: Link)
    ensures LinkOf(t, s, raw) == Some(l) <==> AsksFor(t, s, raw, l)
  {
    hide Decimal;
    var kind := Or(raw.relationType, raw.typeKey);
    if LinkOf(t, s, raw) == Some(l) {
      assert Spells(raw.relationType, raw.typeKey, Render(kind));
    }
    if AsksFor(t, s, raw, l) {
      var text :| Spells(raw.relationType, raw.typeKey, text)
        && !(Blank(raw.relationType) && Blank(raw.typeKey))
        && t.relationKind(text) == Some(l.kind);
      assert text == Render(kind);
    }
  }

  /** The relations of a snapshot: what its entries ask for, as far as both ends are known and differ. */
  lemma LinksAreAskedFor(t: Tables, known: set<ExtId>, s: Snapshot, l: Link)
    ensures l in AllLinks(t, known, s) <==>
      l.source in known && l.target in known && l.source != l.target
      && exists raw :: raw in s.relations && AsksFor(t, s, raw, l)
  {
    hide LinkOf, AsksFor;
    forall raw
      ensures LinkOf(t, s, raw) == Some(l) <==> AsksFor(t, s, raw, l)
    {
      LinkIsAskedFor(t, s, raw, l);
    }
    if l in AllLinks(t, known, s) {
      var i :| 0 <= i < |s.relations| && Wanted(t, known, s, s.relations[i]) && LinkOf(t, s, s.relations[i]).value == l;
      assert s.relations[i] in s.relations;
    }
    if raw :| raw in s.relations && AsksFor(t, s, raw, l) && Resolvable(known, l) {
      var i :| 0 <= i < |s.relations| && s.relations[i] == raw;
      assert Wanted(t, known, s, s.relations[i]);
    }
  }

  // ----- one ingestion step --------------------------------------------------

  function Baseline(st: Store, id: ExtId): Option<Snapshot> {
    if id in st.baselines then Some(st.baselines[id]) else None
  }

  function ChangesOf(st: Store, s: Snapshot): seq<Change> {
    Diff(Baseline(st, s.externalId), s)
  }

  predicate IsNew(st: Store, c: Call) {
    ResolveProject(st.projects, c.snapshot, c.project).Some? && c.snapshot.externalId !in st.items
  }

  /** The work item an ingestion writes. */
  function Upserted(t: Tables, st: Store, s: Snapshot, project: ProjectId): WorkItem {
    var known := st.items.Keys + {s.externalId};
    var w := if s.externalId in st.items then st.items[s.externalId] else NewItem(s, project);
    Parented(known, Apply(t, w, s), s)
  }

  /** The durable rows after one ingestion, whatever its mode. */
  function Persist(t: Tables, st: Store, c: Call): Store {
    var s := c.snapshot;
    var project := ResolveProject(st.projects, s, c.project);
    var kept := st.(baselines := st.baselines[s.externalId := s]);
    if project.None? then kept
    else
      kept.(
      items := st.items[s.externalId := Upserted(t, st, s, project.value)],
      listing := if s.externalId in st.items then st.listing else st.listing + [s.externalId],
      relations := st.relations + AllLinks(t, st.items.Keys + {s.externalId}, s))
  }

  predicate EventIsCreated(created: bool, action: Option<string>) {
    if action.Some? then action.value == "work_package:created" else created
  }

  predicate TriggersAssignment(cfg: Config, s: Snapshot, changes: seq<Change>, created: bool, action: Option<string>) {
    && cfg.brainActor.Some? && cfg.brainActor.value != ""
    && s.assigneeId == cfg.brainActor
    && (EventIsCreated(created, action) || AssigneeChanged in changes)
  }

  /** The events of a live snapshot, given what the ingestion found and wrote. */
  function Announce(cfg: Config, c: Call, project: Option<ProjectId>, created: bool, changes: seq<Change>,
                    items: map<ExtId, WorkItem>): seq<Event>
    requires project.Some? ==> c.snapshot.externalId in items
  {
    var s := c.snapshot;
    if project.None? then [ProviderFact(EventIsCreated(created, c.action), s.externalId, changes, s)]
    else if !c.publishUnchanged && !created && changes == [] then []
    else
      [ItemEvent(EventIsCreated(created, c.action), s.externalId, items[s.externalId], changes, s)]
      + if TriggersAssignment(cfg, s, changes, created, c.action)
        then [Assigned(s.externalId, s.assigneeId.value)] else []
  }

  /** What one ingestion publishes; historical state publishes nothing. */
  function Published(cfg: Config, st: Store, c: Call): seq<Event> {
    if c.mode.Bootstrap? then []
    else
      Announce(cfg, c, ResolveProject(st.projects, c.snapshot, c.project), IsNew(st, c),
        ChangesOf(st, c.snapshot), Persist(cfg.tables, st, c).items)
  }

  function Ingest(cfg: Config, st: Store, c: Call): Store {
    Persist(cfg.tables, st, c).(events := st.events + Published(cfg, st, c))
  }

  function IngestAll(cfg: Config, st: Store, calls: seq<Call>): Store {
    if calls == [] then st else Ingest(cfg, IngestAll(cfg, st, Front(calls)), Last(calls))
  }

  // ----- second pass ---------------------------------------------------------

  function Relink(t: Tables, st: Store, s: Snapshot): Store {
    if s.externalId !in st.items then st
    else
      st.(items := st.items[s.externalId := Parented(st.items.Keys, st.items[s.externalId], s)],
      relations := st.relations + AllLinks(t, st.items.Keys, s))
  }

  function RelinkAll(t: Tables, st: Store, batch: seq<Snapshot>): Store {
    if batch == [] then st else Relink(t, RelinkAll(t, st, Front(batch)), Last(batch))
  }

  lemma LinksStep(t: Tables, known: set<ExtId>, s: Snapshot, i: nat)
    requires i < |s.relations|
    ensures Links(t, known, s, i + 1) == Links(t, known, s, i)
      + if Wanted(t, known, s, s.relations[i]) then {LinkOf(t, s, s.relations[i]).value} else {}
  {
  }

  // ----- the service ---------------------------------------------------------

  class IngestionService {
    const cfg: Config
    var projects: seq<Project>
    var items: map<ExtId, WorkItem>
    var listing: seq<ExtId>
    var relations: set<Link>
    var baselines: map<ExtId, Snapshot>
    var events: seq<Event>

    function State(): Store
      reads this
    {
      Store(projects, items, listing, relations, baselines, events)
    }

    constructor (cfg: Config, initial: Store)
      ensures this.cfg == cfg && State() == initial
    {
      this.cfg := cfg;
      projects, items, listing := initial.projects, initial.items, initial.listing;
      relations, baselines, events := initial.relations, initial.baselines, initial.events;
    }

    /** Writes the item's parent when the named parent exists and is another item. */
    method LinkParent(s: Snapshot)
      requires s.externalId in items
      modifies this`items
      ensures items == old(items)[s.externalId := Parented(old(items).Keys, old(items)[s.externalId], s)]
    {
      if s.parentId.None? || s.parentId.value == 0 {
        return;
      }
      var parent := Decimal(s.parentId.value);
      if parent in items && parent != s.externalId {
        items := items[s.externalId := items[s.externalId].(parent := Some(parent))];
      }
    }

    /** Creates every relation of the snapshot whose two ends exist. */
    method LinkRelations(s: Snapshot) returns (ingested: nat)
      requires s.externalId in items
      modifies this`relations
      ensures relations == old(relations) + AllLinks(cfg.tables, items.Keys, s)
      ensures ingested == CountWanted(cfg.tables, items.Keys, s, |s.relations|)
    {
      ingested := 0;
      var i := 0;
      while i < |s.relations|
        invariant i <= |s.relations|
        invariant relations == old(relations) + Links(cfg.tables, items.Keys, s, i)
        invariant ingested == CountWanted(cfg.tables, items.Keys, s, i)
      {
        LinksStep(cfg.tables, items.Keys, s, i);
        var raw := s.relations[i];
        i := i + 1;
        var target := Or(raw.targetId, raw.toKey);
        var kind := Or(raw.relationType, raw.typeKey);
        if !Truthy(target) || !Truthy(kind) {
          continue;
        }
        var mapped := cfg.tables.relationKind(Render(kind));
        if mapped.None? {
          continue;
        }
        var source := Or(raw.sourceId, raw.fromKey);
        var sourceKey := s.externalId;
        if !source.Missing? && Render(source) != s.externalId {
          if Render(source) !in items {
            continue;
          }
          sourceKey := Render(source);
        }
        if Render(target) !in items || Render(target) == sourceKey {
          continue;
        }
        relations := relations + {Link(sourceKey, Render(target), mapped.value)};
        ingested := ingested + 1;
      }
    }

    method FindOrCreate(s: Snapshot, project: ProjectId) returns (created: bool)
      modifies this`items, this`listing
      ensures created <==> s.externalId !in old(items)
      ensures items == if created then old(items)[s.externalId := NewItem(s, project)] else old(items)
      ensures listing == if created then old(listing) + [s.externalId] else old(listing)
    {
      created := s.externalId !in items;
      if created {
        items := items[s.externalId := NewItem(s, project)];
        listing := listing + [s.externalId];
      }
    }

    /** The canonical writes of a snapshot whose project is known. */
    method Upsert(s: Snapshot, project: ProjectId) returns (created: bool, linked: nat)
      modifies this`items, this`listing, this`relations
      ensures created <==> s.externalId !in old(items)
      ensures items == old(items)[s.externalId := Upserted(cfg.tables, old(State()), s, project)]
      ensures listing == if created then old(listing) + [s.externalId] else old(listing)
      ensures relations == old(relations) + AllLinks(cfg.tables, old(items).Keys + {s.externalId}, s)
      ensures linked == CountWanted(cfg.tables, items.Keys, s, |s.relations|)
    {
      created := FindOrCreate(s, project);
      items := items[s.externalId := Apply(cfg.tables, items[s.externalId], s)];
      assert items.Keys == old(items).Keys + {s.externalId};
      LinkParent(s);
      assert items.Keys == old(items).Keys + {s.externalId};
      linked := LinkRelations(s);
    }

    /** The live half of an ingestion: decides and publishes, in this order. */
    method Publish(c: Call, project: Option<ProjectId>, created: bool, changes: seq<Change>)
      returns (eventCreated: Option<bool>, triggered: bool)
      requires project.Some? ==> c.snapshot.externalId in items
      modifies this`events
      ensures events == old(events) + Announce(cfg, c, project, created, changes, items)
      ensures eventCreated.Some? <==> Announce(cfg, c, project, created, changes, items) != []
      ensures eventCreated.Some? ==> eventCreated.value == EventIsCreated(created, c.action)
      ensures triggered <==>
        Assigned(c.snapshot.externalId, c.snapshot.assigneeId.GetOr("")) in
        Announce(cfg, c, project, created, changes, items)
    {
      var s := c.snapshot;
      eventCreated, triggered := None, false;
      var createdEvent := EventIsCreated(created, c.action);
      if project.Some? {
        if !c.publishUnchanged && !created && changes == [] {
          return;
        }
        events := events + [ItemEvent(createdEvent, s.externalId, items[s.externalId], changes, s)];
        eventCreated := Some(createdEvent);
        if TriggersAssignment(cfg, s, changes, created, c.action) {
          events := events + [Assigned(s.externalId, s.assigneeId.value)];
          triggered := true;
        }
      } else {
        events := events + [ProviderFact(createdEvent, s.externalId, changes, s)];
        eventCreated := Some(createdEvent);
      }
    }

    method IngestSnapshot(c: Call) returns (r: IngestionResult)
      modifies this
      ensures State() == Ingest(cfg, old(State()), c)
      ensures r.created == IsNew(old(State()), c)
      ensures r.item == if ResolveProject(old(projects), c.snapshot, c.project).Some?
        then Some(Ingest(cfg, old(State()), c).items[c.snapshot.externalId]) else None
      ensures r.item.Some? ==> r.changes == ChangesOf(old(State()), c.snapshot)
      ensures r.item.Some? ==>
        r.relationsIngested == CountWanted(cfg.tables, items.Keys, c.snapshot, |c.snapshot.relations|)
      ensures r.eventCreated.Some? <==> Published(cfg, old(State()), c) != []
      ensures r.assignmentTriggered <==>
        Assigned(c.snapshot.externalId, c.snapshot.assigneeId.GetOr("")) in Published(cfg, old(State()), c)
    {
      var s := c.snapshot;
      var previous := if s.externalId in baselines then Some(baselines[s.externalId]) else None;
      var changes := CompareSnapshots(previous, s);
      var project := ResolveProject(projects, s, c.project);
      r := IngestionResult(None, false, [], None, false, 0);
      if project.Some? {
        var created, linked := Upsert(s, project.value);
        r := IngestionResult(Some(items[s.externalId]), created, changes, None, false, linked);
      }
      baselines := baselines[s.externalId := s];
      assert State().(events := []) == Persist(cfg.tables, old(State()), c).(events := []);
      if c.mode.Live? {
        var eventCreated, triggered := Publish(c, project, r.created, changes);
        r := r.(eventCreated := eventCreated, assignmentTriggered := triggered);
      }
    }

    method ResolveRelationships(batch: seq<Snapshot>)
      modifies this`items, this`relations
      ensures State() == RelinkAll(cfg.tables, old(State()), batch)
    {
      var i := 0;
      while i < |batch|
        invariant i <= |batch|
        invariant State() == RelinkAll(cfg.tables, old(State()), batch[..i])
      {
        assert Front(batch[..i + 1]) == batch[..i];
        var s := batch[i];
        i := i + 1;
        if s.externalId !in items {
          continue;
        }
        LinkParent(s);
        var _ := LinkRelations(s);
      }
      assert batch[..|batch|] == batch;
    }
  }
}
