/** Assignment events over whole runs: they fire on the edge to the brain actor and nowhere else. */
module Assignment {
  import opened Prelude
  import opened Snapshots
  import opened Ingestion

  function Assignments(events: seq<Event>): seq<Event> {
    if events == [] then []
    else Assignments(Front(events)) + if Last(events).Assigned? then [Last(events)] else []
  }

  /** The latest snapshot of an item among the calls of a run, else its stored baseline. */
  function Previous(st: Store, calls: seq<Call>, id: ExtId): Option<Snapshot> {
    if calls == [] then Baseline(st, id)
    else if Last(calls).snapshot.externalId == id then Some(Last(calls).snapshot)
    else Previous(st, Front(calls), id)
  }

  /** The brain actor holds the item now and did not in the item's previous snapshot. */
  predicate Edge(cfg: Config, previous: Option<Snapshot>, s: Snapshot) {
    && cfg.brainActor.Some? && cfg.brainActor.value != ""
    && s.assigneeId == cfg.brainActor
    && (previous.None? || previous.value.assigneeId != cfg.brainActor)
  }

  /** The assignments a run should publish, read off the snapshots alone. */
  function Expected(cfg: Config, st: Store, calls: seq<Call>): seq<Event> {
    if calls == [] then []
    else
      var c := Last(calls);
      Expected(cfg, st, Front(calls))
      + if c.mode.Live? && Edge(cfg, Previous(st, Front(calls), c.snapshot.externalId), c.snapshot)
        then [Assigned(c.snapshot.externalId, c.snapshot.assigneeId.value)] else []
  }

  /** Every stored item has a baseline and conversely. */
  predicate Aligned(st: Store) {
    st.items.Keys == st.baselines.Keys
  }

  /** Each call finds a project and reports no provider action. */
  predicate Plain(st: Store, calls: seq<Call>) {
    forall c :: c in calls ==> c.action.None? && ResolveProject(st.projects, c.snapshot, c.project).Some?
  }

  lemma {:induction false} AssignmentsConcat(a: seq<Event>, b: seq<Event>)
    ensures Assignments(a + b) == Assignments(a) + Assignments(b)
  {
    if b == [] {
      assert a + b == a;
    } else {
      AssignmentsConcat(a, Front(b));
      assert Front(a + b) == a + Front(b);
    }
  }

  /** One step, in full: when an assignment is published, whatever the call. */
  lemma AssignmentStep(cfg: Config, st: Store, c: Call)
    ensures
      var s := c.snapshot;
      var known := s.externalId in st.items;
      var previous := Baseline(st, s.externalId);
      Assignments(Published(cfg, st, c)) ==
      if c.mode.Live? && ResolveProject(st.projects, s, c.project).Some?
        && cfg.brainActor.Some? && cfg.brainActor.value != "" && s.assigneeId == cfg.brainActor
        && ((if c.action.Some? then c.action.value == "work_package:created" else !known)
            || (previous.Some? && previous.value.assigneeId != s.assigneeId))
        && (c.publishUnchanged || !known || ChangesOf(st, s) != [])
      then [Assigned(s.externalId, s.assigneeId.value)] else []
  {
    hide Persist, ResolveProject;
    var s := c.snapshot;
    var events := Published(cfg, st, c);
    var previous := Baseline(st, s.externalId);
    if previous.Some? {
      DiffReportsExactly(previous.value, s, AssigneeChanged);
    }
    if |events| == 2 {
      assert events == [events[0]] + [events[1]];
      AssignmentsConcat([events[0]], [events[1]]);
    }
    if events != [] {
      assert Assignments([events[0]]) == [];
      assert |events| == 1 ==> events == [events[0]];
    }
  }

  // ----- runs from any store -------------------------------------------------

  /** The item exists: it did before the run, or a call that found a project has created it since. */
  predicate Known(st: Store, calls: seq<Call>, id: ExtId) {
    id in st.items
    || exists c :: c in calls && c.snapshot.externalId == id && ResolveProject(st.projects, c.snapshot, c.project).Some?
  }

  /** The trigger of one call, given whether its item existed and what its latest snapshot was. */
  predicate Fires(cfg: Config, projects: seq<Project>, c: Call, known: bool, previous: Option<Snapshot>) {
    var s := c.snapshot;
    && c.mode.Live? && ResolveProject(projects, s, c.project).Some?
    && cfg.brainActor.Some? && cfg.brainActor.value != "" && s.assigneeId == cfg.brainActor
    && ((if c.action.Some? then c.action.value == "work_package:created" else !known)
        || (previous.Some? && previous.value.assigneeId != s.assigneeId))
    && (c.publishUnchanged || !known || Diff(previous, s) != [])
  }

  /** The assignments of any run, read off its calls and the store it started from. */
  function Fired(cfg: Config, st: Store, calls: seq<Call>): seq<Event> {
    if calls == [] then []
    else
      var before, c := Front(calls), Last(calls);
      var id := c.snapshot.externalId;
      Fired(cfg, st, before)
      + if Fires(cfg, st.projects, c, Known(st, before, id), Previous(st, before, id))
        then [Assigned(id, c.snapshot.assigneeId.value)] else []
  }

  lemma {:induction false} RunKeepsPrevious(cfg: Config, st: Store, calls: seq<Call>, id: ExtId)
    ensures
      var r := IngestAll(cfg, st, calls);
      && r.projects == st.projects
      && Baseline(r, id) == Previous(st, calls, id)
      && (id in r.items <==> Known(st, calls, id))
  {
    hide ResolveProject, AllLinks, Upserted, Published;
    if calls != [] {
      RunKeepsPrevious(cfg, st, Front(calls), id);
      assert forall c :: c in calls <==> c in Front(calls) || c == Last(calls);
    }
  }

  /** Over any run from any store, with any calls: the published assignments are exactly those of the calls that
      fire, in order. */
  lemma {:induction false} RunPublishesFired(cfg: Config, st: Store, calls: seq<Call>)
    ensures Assignments(IngestAll(cfg, st, calls).events) == Assignments(st.events) + Fired(cfg, st, calls)
  {
    hide Ingest, Published, ResolveProject, Diff, Known, Previous, Baseline;
    if calls != [] {
      var r, c := IngestAll(cfg, st, Front(calls)), Last(calls);
      RunPublishesFired(cfg, st, Front(calls));
      RunKeepsPrevious(cfg, st, Front(calls), c.snapshot.externalId);
      AssignmentStep(cfg, r, c);
      AssignmentsConcat(r.events, Published(cfg, r, c));
      IngestEvents(cfg, r, c);
    }
  }

  // ----- runs that always find a project -------------------------------------

  lemma AlignedStep(cfg: Config, st: Store, c: Call)
    requires Aligned(st) && ResolveProject(st.projects, c.snapshot, c.project).Some?
    ensures Aligned(Ingest(cfg, st, c))
    ensures Ingest(cfg, st, c).projects == st.projects
    ensures forall id ::
      Baseline(Ingest(cfg, st, c), id)
      == (if id == c.snapshot.externalId then Some(c.snapshot) else Baseline(st, id))
  {
  }

  lemma {:induction false} RunKeepsBaselines(cfg: Config, st: Store, calls: seq<Call>)
    requires Aligned(st) && Plain(st, calls)
    ensures
      var r := IngestAll(cfg, st, calls);
      && Aligned(r)
      && r.projects == st.projects
      && forall id :: Baseline(r, id) == Previous(st, calls, id)
  {
    if calls != [] {
      RunKeepsBaselines(cfg, st, Front(calls));
      AlignedStep(cfg, IngestAll(cfg, st, Front(calls)), Last(calls));
    }
  }

  /** Over any run mixing historical and live snapshots, the published assignments are exactly
      the edges, in order, whatever the calls say about unchanged snapshots. */
  lemma {:induction false} AssignmentIsEdgeTriggered(cfg: Config, st: Store, calls: seq<Call>)
    requires Aligned(st) && Plain(st, calls)
    ensures Assignments(IngestAll(cfg, st, calls).events) == Assignments(st.events) + Expected(cfg, st, calls)
  {
    hide Ingest, Published, Edge, Aligned, ResolveProject;
    if calls != [] {
      AssignmentIsEdgeTriggered(cfg, st, Front(calls));
      RunKeepsBaselines(cfg, st, Front(calls));
      var r, c := IngestAll(cfg, st, Front(calls)), Last(calls);
      AssignmentStep(cfg, r, c);
      AssignmentsConcat(r.events, Published(cfg, r, c));
      EdgeIsTrigger(cfg, r, c);
      IngestEvents(cfg, r, c);
    }
  }

  lemma IngestEvents(cfg: Config, st: Store, c: Call)
    ensures Ingest(cfg, st, c).events == st.events + Published(cfg, st, c)
  {
  }

  /** In an aligned state, the trigger of the code is the edge. */
  lemma EdgeIsTrigger(cfg: Config, st: Store, c: Call)
    requires Aligned(st) && c.action.None? && ResolveProject(st.projects, c.snapshot, c.project).Some?
    ensures Assignments(Published(cfg, st, c)) ==
      if c.mode.Live? && Edge(cfg, Baseline(st, c.snapshot.externalId), c.snapshot)
      then [Assigned(c.snapshot.externalId, c.snapshot.assigneeId.value)] else []
  {
    hide Published, ResolveProject;
    AssignmentStep(cfg, st, c);
    var previous := Baseline(st, c.snapshot.externalId);
    if previous.Some? {
      DiffReportsExactly(previous.value, c.snapshot, AssigneeChanged);
    }
  }

  /** Historical snapshots publish nothing at all, in any state. */
  lemma {:induction false} HistoryIsSilent(cfg: Config, st: Store, calls: seq<Call>)
    requires forall c :: c in calls ==> c.mode.Bootstrap?
    ensures IngestAll(cfg, st, calls).events == st.events
  {
    if calls != [] {
      HistoryIsSilent(cfg, st, Front(calls));
    }
  }
}
