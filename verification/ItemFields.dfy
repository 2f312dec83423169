/** What a snapshot, a run of them and a whole import make of a work item and its relations, field by field and
    read off the snapshots alone (openproject_ingestion.py). */
module ItemFields {
  import opened Prelude
  import opened Snapshots
  import opened Ingestion
  import opened TwoPass

  // ----- the project -----------------------------------------------------------

  /** The project carries the reference that the snapshot names. */
  predicate Carries(p: Project, s: Snapshot) {
    s.projectId.Some? && s.projectId.value != "" && p.externalId == s.projectId
  }

  predicate FirstCarrier(projects: seq<Project>, s: Snapshot, i: int) {
    0 <= i < |projects| && Carries(projects[i], s) && forall j :: 0 <= j < i ==> !Carries(projects[j], s)
  }

  /** A requested project is taken if it exists and nothing else is; without a request it is the first project that
      carries the snapshot's reference, else the first of all. */
  lemma ProjectOfSnapshot(projects: seq<Project>, s: Snapshot, requested: Option<ProjectId>)
    ensures requested.Some? ==>
      ResolveProject(projects, s, requested)
      == if exists p :: p in projects && p.id == requested.value then requested else None
    ensures requested.None? ==>
      forall i :: FirstCarrier(projects, s, i) ==> ResolveProject(projects, s, requested) == Some(projects[i].id)
    ensures requested.None? && (forall p :: p in projects ==> !Carries(p, s)) ==>
      ResolveProject(projects, s, requested) == if projects == [] then None else Some(projects[0].id)
  {
    if s.projectId.Some? && s.projectId.value != "" {
      ReferenceFinds(projects, s);
    }
  }

  lemma {:induction false} ReferenceFinds(projects: seq<Project>, s: Snapshot)
    requires s.projectId.Some? && s.projectId.value != ""
    ensures forall i ::
      FirstCarrier(projects, s, i) ==> FirstProject(projects, s.projectId.value) == Some(projects[i].id)
    ensures (forall p :: p in projects ==> !Carries(p, s)) ==> FirstProject(projects, s.projectId.value) == None
  {
    if projects != [] {
      ReferenceFinds(projects[1..], s);
      forall i | FirstCarrier(projects, s, i)
        ensures FirstProject(projects, s.projectId.value) == Some(projects[i].id)
      {
        if i > 0 {
          assert !Carries(projects[0], s);
          assert forall j :: 0 <= j < i - 1 ==> projects[1..][j] == projects[j + 1];
          assert FirstCarrier(projects[1..], s, i - 1);
        }
      }
      if forall p :: p in projects ==> !Carries(p, s) {
        assert projects[0] in projects;
        assert forall p :: p in projects[1..] ==> p in projects;
      }
    }
  }

  // ----- one ingestion ---------------------------------------------------------

  /** The parent field of a snapshot names this item. */
  predicate NamesParent(s: Snapshot, id: ExtId) {
    s.parentId.Some? && s.parentId.value != 0 && Decimal(s.parentId.value) == id
  }

  /** The parent is the item that the snapshot names, if that item is known and another one; else it stays. */
  ghost predicate ParentFollows(known: set<ExtId>, s: Snapshot, was: Option<ExtId>, parent: Option<ExtId>) {
    && (forall id :: id in known && id != s.externalId && NamesParent(s, id) ==> parent == Some(id))
    && ((forall id :: id in known && id != s.externalId ==> !NamesParent(s, id)) ==> parent == was)
  }

  /** Every field of an item that a snapshot has been written to; `was` is the item before, if it existed. */
  ghost predicate Written(
      t: Tables, known: set<ExtId>, s: Snapshot, was: Option<WorkItem>, project: ProjectId, w: WorkItem)
  {
    && w.title == (if s.summary != "" then s.summary
                   else if was.Some? then was.value.title else "OpenProject " + s.externalId)
    && w.description == (if s.description != "" then s.description
                         else if was.Some? then was.value.description else "")
    && w.kind == t.workItemType(s.typeName)
    && w.status == t.status(s.state)
    && w.priority == t.priority(s.priority)
    && (s.assigneeId.None? || s.assigneeId == Some("") ==>
         w.assignee == if was.Some? then was.value.assignee else None)
    && (s.assigneeId.Some? && s.assigneeId.value != "" ==> w.assignee == Some(t.actor(s.assigneeId.value)))
    && ParentFollows(known, s, if was.Some? then was.value.parent else None, w.parent)
    && w.project == (if was.Some? then was.value.project else project)
    && w.verification == (if was.Some? then was.value.verification else NotVerified)
  }

  function Stored(st: Store, id: ExtId): Option<WorkItem> {
    if id in st.items then Some(st.items[id]) else None
  }

  lemma ParentedFollows(known: set<ExtId>, s: Snapshot, w: WorkItem)
    ensures
      var r := Parented(known, w, s);
      r == w.(parent := r.parent) && ParentFollows(known, s, w.parent, r.parent)
  {
  }

  lemma AppliedIsWritten(t: Tables, known: set<ExtId>, s: Snapshot, was: Option<WorkItem>, project: ProjectId)
    ensures Written(t, known, s, was, project, Parented(known, Apply(t, was.GetOr(NewItem(s, project)), s), s))
  {
    hide Parented, ParentFollows;
    ParentedFollows(known, s, Apply(t, was.GetOr(NewItem(s, project)), s));
  }

  /** One ingestion, in any mode: the snapshot's own item gets these fields, and no other item changes. */
  lemma IngestedFields(cfg: Config, st: Store, c: Call)
    ensures
      var s := c.snapshot;
      var project := ResolveProject(st.projects, s, c.project);
      var r := Ingest(cfg, st, c);
      && r.projects == st.projects
      && (project.None? ==> r.items == st.items && r.listing == st.listing && r.relations == st.relations)
      && (project.Some? ==>
           && r.items.Keys == st.items.Keys + {s.externalId}
           && Written(cfg.tables, r.items.Keys, s, Stored(st, s.externalId), project.value, r.items[s.externalId])
           && r.listing == st.listing + if s.externalId in st.items then [] else [s.externalId])
      && (forall id :: id != s.externalId ==> Stored(r, id) == Stored(st, id))
      && r.baselines == st.baselines[s.externalId := s]
  {
    hide ResolveProject, AllLinks, Announce, Apply, NewItem, Parented, Written;
    var s := c.snapshot;
    var project := ResolveProject(st.projects, s, c.project);
    if project.Some? {
      AppliedIsWritten(cfg.tables, st.items.Keys + {s.externalId}, s, Stored(st, s.externalId), project.value);
    }
    assert st.listing + [] == st.listing;
  }

  /** What one ingestion publishes: nothing, or the item's event first and the assignment, if any, after it. */
  lemma IngestedEvents(cfg: Config, st: Store, c: Call)
    ensures
      var s := c.snapshot;
      var found := ResolveProject(st.projects, s, c.project).Some?;
      var known := s.externalId in st.items;
      var flag := if c.action == Some("work_package:created") then true
                  else c.action.None? && found && !known;
      var r := Ingest(cfg, st, c);
      && |st.events| <= |r.events| <= |st.events| + 2
      && r.events[..|st.events|] == st.events
      && (r.events == st.events <==>
           c.mode.Bootstrap? || (found && known && !c.publishUnchanged && ChangesOf(st, s) == []))
      && (|r.events| > |st.events| ==>
           r.events[|st.events|]
           == if found then ItemEvent(flag, s.externalId, r.items[s.externalId], ChangesOf(st, s), s)
              else ProviderFact(flag, s.externalId, ChangesOf(st, s), s))
      && (|r.events| == |st.events| + 2 ==> Last(r.events) == Assigned(s.externalId, s.assigneeId.GetOr("")))
  {
    hide ResolveProject, AllLinks, Upserted, ChangesOf;
    assert st.events + [] == st.events;
  }

  // ----- relations ---------------------------------------------------------------

  /** One ingestion adds exactly the relations its snapshot asks for whose two ends exist and differ. */
  lemma IngestedRelations(cfg: Config, st: Store, c: Call, l: Link)
    ensures
      var s := c.snapshot;
      var r := Ingest(cfg, st, c);
      l in r.relations <==>
        || l in st.relations
        || (ResolveProject(st.projects, s, c.project).Some? && l.source in r.items && l.target in r.items
            && l.source != l.target && exists raw :: raw in s.relations && AsksFor(cfg.tables, s, raw, l))
  {
    hide ResolveProject, AllLinks, AsksFor, Announce, Upserted;
    var s, r := c.snapshot, Ingest(cfg, st, c);
    if ResolveProject(st.projects, s, c.project).Some? {
      assert r.items.Keys == st.items.Keys + {s.externalId};
      LinksAreAskedFor(cfg.tables, r.items.Keys, s, l);
    }
  }

  // ----- runs ----------------------------------------------------------------------

  /** The call writes the item: it carries its id and finds a project. */
  predicate Writes(projects: seq<Project>, c: Call, id: ExtId) {
    c.snapshot.externalId == id && ResolveProject(projects, c.snapshot, c.project).Some?
  }

  /** The last call of the run that writes the item with a snapshot of this kind. */
  predicate Latest(projects: seq<Project>, calls: seq<Call>, id: ExtId, wanted: Snapshot -> bool, k: int) {
    && 0 <= k < |calls| && Writes(projects, calls[k], id) && wanted(calls[k].snapshot)
    && forall j :: k < j < |calls| && Writes(projects, calls[j], id) ==> !wanted(calls[j].snapshot)
  }

  predicate Never(projects: seq<Project>, calls: seq<Call>, id: ExtId, wanted: Snapshot -> bool) {
    forall j :: 0 <= j < |calls| && Writes(projects, calls[j], id) ==> !wanted(calls[j].snapshot)
  }

  /** The first call of the run that writes the item. */
  predicate Earliest(projects: seq<Project>, calls: seq<Call>, id: ExtId, k: int) {
    && 0 <= k < |calls| && Writes(projects, calls[k], id)
    && forall j :: 0 <= j < k ==> !Writes(projects, calls[j], id)
  }

  predicate Any(s: Snapshot) { true }

  predicate HasSummary(s: Snapshot) { s.summary != "" }

  predicate HasDescription(s: Snapshot) { s.description != "" }

  predicate HasAssignee(s: Snapshot) { s.assigneeId.Some? && s.assigneeId.value != "" }

  lemma LatestStep(projects: seq<Project>, calls: seq<Call>, id: ExtId, wanted: Snapshot -> bool)
    requires calls != []
    ensures
      var now := Writes(projects, Last(calls), id) && wanted(Last(calls).snapshot);
      && (forall k :: Latest(projects, calls, id, wanted, k) ==>
           if now then k == |calls| - 1
           else 0 <= k < |calls| - 1 && Latest(projects, Front(calls), id, wanted, k))
      && (Never(projects, calls, id, wanted) <==> !now && Never(projects, Front(calls), id, wanted))
      && (Never(projects, Front(calls), id, Any) ==> Never(projects, Front(calls), id, wanted))
      && forall k :: Never(projects, Front(calls), id, wanted) ==> !Latest(projects, Front(calls), id, wanted, k)
  {
    hide ResolveProject;
    var n := |calls| - 1;
    forall k | Latest(projects, calls, id, wanted, k)
      ensures if Writes(projects, calls[n], id) && wanted(calls[n].snapshot) then k == n
              else 0 <= k < n && Latest(projects, Front(calls), id, wanted, k)
    {
      assert forall j :: 0 <= j < n ==> Front(calls)[j] == calls[j];
    }
    if Never(projects, calls, id, wanted) {
      assert forall j :: 0 <= j < n ==> Front(calls)[j] == calls[j];
    }
    if Never(projects, Front(calls), id, wanted) {
      assert forall j :: 0 <= j < n ==> calls[j] == Front(calls)[j];
    }
  }

  /** What a run leaves of an item, if anything, and what was there before it. Each field comes from the last snapshot
      that had something to say about it, else from the item as it was; a new item starts with the defaults. */
  ghost predicate Follows(t: Tables, ps: seq<Project>, calls: seq<Call>, id: ExtId,
                          was: Option<WorkItem>, now: Option<WorkItem>) {
    && (now.Some? <==> was.Some? || !Never(ps, calls, id, Any))
    && (Never(ps, calls, id, Any) ==> now == was)
    && (now.Some? ==>
         var w := now.value;
         && (forall k :: Latest(ps, calls, id, Any, k) ==>
              && w.kind == t.workItemType(calls[k].snapshot.typeName)
              && w.status == t.status(calls[k].snapshot.state)
              && w.priority == t.priority(calls[k].snapshot.priority))
         && (forall k :: Latest(ps, calls, id, HasSummary, k) ==> w.title == calls[k].snapshot.summary)
         && (Never(ps, calls, id, HasSummary) ==>
              w.title == if was.Some? then was.value.title else "OpenProject " + id)
         && (forall k :: Latest(ps, calls, id, HasDescription, k) ==> w.description == calls[k].snapshot.description)
         && (Never(ps, calls, id, HasDescription) ==>
              w.description == if was.Some? then was.value.description else "")
         && (forall k :: Latest(ps, calls, id, HasAssignee, k) ==>
              w.assignee == Some(t.actor(calls[k].snapshot.assigneeId.value)))
         && (Never(ps, calls, id, HasAssignee) ==> w.assignee == if was.Some? then was.value.assignee else None)
         && (was.Some? ==> w.project == was.value.project)
         && (was.None? ==> forall k ::
              Earliest(ps, calls, id, k) ==> Some(w.project) == ResolveProject(ps, calls[k].snapshot, calls[k].project))
         && w.verification == if was.Some? then was.value.verification else NotVerified)
  }

  lemma FollowsNothing(t: Tables, ps: seq<Project>, id: ExtId, was: Option<WorkItem>)
    ensures Follows(t, ps, [], id, was, was)
  {
    NothingLatest(ps, id, Any);
    NothingLatest(ps, id, HasSummary);
    NothingLatest(ps, id, HasDescription);
    NothingLatest(ps, id, HasAssignee);
    hide Latest, Never;
  }

  lemma EarliestStep(ps: seq<Project>, calls: seq<Call>, id: ExtId)
    requires calls != []
    ensures
      var n, before := |calls| - 1, Front(calls);
      && (forall k :: Earliest(ps, calls, id, k) ==>
           (k == n && Writes(ps, calls[n], id) && Never(ps, before, id, Any))
           || (0 <= k < n && Earliest(ps, before, id, k) && !Never(ps, before, id, Any)))
  {
    hide ResolveProject;
    var n, before := |calls| - 1, Front(calls);
    assert forall j :: 0 <= j < n ==> before[j] == calls[j];
    forall k | Earliest(ps, calls, id, k)
      ensures (k == n && Writes(ps, calls[n], id) && Never(ps, before, id, Any))
        || (0 <= k < n && Earliest(ps, before, id, k) && !Never(ps, before, id, Any))
    {
      if k < n {
        assert Writes(ps, before[k], id) && Any(before[k].snapshot);
      }
    }
  }

  lemma NothingLatest(ps: seq<Project>, id: ExtId, wanted: Snapshot -> bool)
    ensures Never(ps, [], id, wanted) && forall k :: !Latest(ps, [], id, wanted, k)
  {
  }

  lemma FollowsStep(t: Tables, ps: seq<Project>, calls: seq<Call>, id: ExtId, known: set<ExtId>, project: ProjectId,
                    was: Option<WorkItem>, before: Option<WorkItem>, now: Option<WorkItem>)
    requires calls != [] && Follows(t, ps, Front(calls), id, was, before)
    requires if Writes(ps, Last(calls), id)
             then
               && ResolveProject(ps, Last(calls).snapshot, Last(calls).project) == Some(project)
               && now.Some? && Written(t, known, Last(calls).snapshot, before, project, now.value)
             else now == before
    ensures Follows(t, ps, calls, id, was, now)
  {
    hide ResolveProject, Latest, Earliest, Never, ParentFollows;
    EarliestStep(ps, calls, id);
    LatestStep(ps, calls, id, Any);
    LatestStep(ps, calls, id, HasSummary);
    LatestStep(ps, calls, id, HasDescription);
    LatestStep(ps, calls, id, HasAssignee);
    assert Any(Last(calls).snapshot);
    assert forall k :: 0 <= k < |calls| - 1 ==> Front(calls)[k] == calls[k];
  }

  /** After any run from any store, every item follows the calls that wrote it. */
  lemma {:induction false} RunFields(cfg: Config, st: Store, calls: seq<Call>, id: ExtId)
    ensures IngestAll(cfg, st, calls).projects == st.projects
    ensures Follows(cfg.tables, st.projects, calls, id, Stored(st, id), Stored(IngestAll(cfg, st, calls), id))
  {
    hide ResolveProject, Ingest, Follows, Written;
    if calls == [] {
      FollowsNothing(cfg.tables, st.projects, id, Stored(st, id));
    } else {
      var r, c := IngestAll(cfg, st, Front(calls)), Last(calls);
      RunFields(cfg, st, Front(calls), id);
      IngestedFields(cfg, r, c);
      var next, project := Ingest(cfg, r, c), ResolveProject(st.projects, c.snapshot, c.project);
      FollowsStep(cfg.tables, st.projects, calls, id, next.items.Keys, project.GetOr(0),
        Stored(st, id), Stored(r, id), Stored(next, id));
    }
  }

  // ----- a whole import --------------------------------------------------------------

  lemma KnownIff(st: Store, m: map<ExtId, Snapshot>, p: Option<ProjectId>, id: ExtId)
    ensures id in Known(st, m, p) <==>
      id in st.items || (id in m && ResolveProject(st.projects, m[id], p).Some?)
  {
  }

  /** After an import each item of the batch carries its own snapshot's fields, whatever the order, with its parent
      looked up among all items the import leaves. Without a project only the parent of an item that was already
      there is looked up. */
  lemma ImportedFields(cfg: Config, st: Store, batch: seq<Snapshot>, p: Option<ProjectId>, s: Snapshot)
    requires DistinctIds(batch) && s in batch
    ensures
      var r := Import(cfg, st, batch, p);
      var project := ResolveProject(st.projects, s, p);
      if project.Some? then
        s.externalId in r.items
        && Written(cfg.tables, r.items.Keys, s, Stored(st, s.externalId), project.value, r.items[s.externalId])
      else
        (s.externalId in r.items <==> s.externalId in st.items)
        && (s.externalId in r.items ==>
             var w, was := r.items[s.externalId], st.items[s.externalId];
             w == was.(parent := w.parent) && ParentFollows(r.items.Keys, s, was.parent, w.parent))
  {
    ImportIsSettled(cfg, st, batch, p);
    ByIdIsBatch(batch);
    hide Import, ById, ResolveProject, LinksOfBatch, DistinctIds, Apply, NewItem, Parented, Known, Written;
    var r, m := Import(cfg, st, batch, p), ById(batch);
    assert r.items == View(r).items;
    var id, known := s.externalId, Known(st, m, p);
    assert r.items.Keys == known;
    KnownIff(st, m, p, id);
    if id in known {
      assert r.items[id] == Parented(known, Fields(cfg.tables, st, m, p, id), s);
      var project := ResolveProject(st.projects, s, p);
      if project.Some? {
        AppliedIsWritten(cfg.tables, known, s, Stored(st, id), project.value);
      } else {
        ParentedFollows(known, s, st.items[id]);
      }
    }
  }

  /** The items outside the batch stay as they were. */
  lemma ImportLeavesOthers(cfg: Config, st: Store, batch: seq<Snapshot>, p: Option<ProjectId>, id: ExtId)
    requires DistinctIds(batch) && forall s :: s in batch ==> s.externalId != id
    ensures Stored(Import(cfg, st, batch, p), id) == Stored(st, id)
  {
    ImportIsSettled(cfg, st, batch, p);
    ByIdIsBatch(batch);
    hide Import, ById, ResolveProject, LinksOfBatch, DistinctIds, Apply, NewItem;
    var r := Import(cfg, st, batch, p);
    assert r.items == View(r).items;
    assert id !in ById(batch);
  }
}
