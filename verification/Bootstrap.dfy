/** The resumable import of an existing provider project (openproject_bootstrap.py). */
module Bootstrap {
  import opened Prelude
  import opened Snapshots
  import opened Ingestion
  import PullSync
  import TwoPass

  datatype Status =
    Connected | Discovering | Ingesting | BuildingGraph | EstablishingBaseline | Ready | LiveSync | Failed

  datatype Stage =
    | DiscoverProjects
    | FetchWorkItems
    | ResolveRelations
    | IngestComments
    | BuildGraph
    | EstablishBaseline
    | Complete

  datatype Checkpoint = Checkpoint(status: Status, stage: Stage, lastPage: nat, lastError: Option<string>)

  /** The provider project held fixed during the import. */
  datatype Source = Source(packages: seq<Snapshot>, pageSize: nat, project: ProjectId, visible: bool)

  datatype Db = Db(store: Store, saved: Option<Checkpoint>, watermark: PullSync.Watermark)

  /** The steps of a run, in the order in which they take effect. */
  datatype Action =
    | FetchPage(offset: nat)
    | IngestPackage(index: nat)
    | Save(state: Checkpoint)
    | RelinkFrom(index: nat)
    | Establish(index: nat, at: PullSync.Time)

  function Tail(src: Source, index: nat): seq<Snapshot> {
    if index <= |src.packages| then src.packages[index..] else []
  }

  function Perform(cfg: Config, src: Source, db: Db, a: Action): Db {
    match a
    case FetchPage(_) => db
    case IngestPackage(i) =>
      if i < |src.packages| then
        db.(store := Ingest(cfg, db.store, TwoPass.BootstrapCall(src.packages[i], Some(src.project))))
      else db
    case Save(state) => db.(saved := Some(state))
    case RelinkFrom(i) => db.(store := RelinkAll(cfg.tables, db.store, Tail(src, i)))
    case Establish(i, at) =>
      db.(watermark := PullSync.Watermark(Some(at), Some(at),
        if Tail(src, i) == [] then None else Some(Last(Tail(src, i)).externalId)))
  }

  function PerformAll(cfg: Config, src: Source, db: Db, actions: seq<Action>): Db {
    if actions == [] then db
    else Perform(cfg, src, PerformAll(cfg, src, db, Front(actions)), Last(actions))
  }

  // ----- the actions of a run ------------------------------------------------

  function PageEnd(src: Source, offset: nat): nat
    requires offset >= 1
  {
    if offset - 1 + src.pageSize < |src.packages| then offset - 1 + src.pageSize else |src.packages|
  }

  predicate ShortPage(src: Source, offset: nat)
    requires offset >= 1
  {
    PageEnd(src, offset) - (offset - 1) < src.pageSize
  }

  function Ingests(lo: int, hi: int): seq<Action>
    requires 0 <= lo
  {
    if lo >= hi then [] else seq(hi - lo, i requires 0 <= i < hi - lo => IngestPackage(lo + i))
  }

  function Page(src: Source, offset: nat, fetching: Checkpoint): seq<Action>
    requires offset >= 1
  {
    [FetchPage(offset)] + Ingests(offset - 1, PageEnd(src, offset)) + [Save(fetching.(lastPage := offset))]
  }

  /** A fault `n` fetches away is one fetch closer after a fetch. */
  function Less(fails: Option<nat>): Option<nat> {
    if fails.Some? && fails.value > 0 then Some(fails.value - 1) else None
  }

  /** The paging loop from an offset on, up to a fetch that raises, if one does. */
  function Pages(src: Source, offset: nat, fetching: Checkpoint, fails: Option<nat>): seq<Action>
    requires offset >= 1 && src.pageSize >= 1
    decreases |src.packages| - offset
  {
    if fails == Some(0) then []
    else
      Page(src, offset, fetching)
      + if ShortPage(src, offset) then []
        else Pages(src, offset + src.pageSize, fetching, Less(fails))
  }

  predicate PagesFail(src: Source, offset: nat, fails: Option<nat>)
    requires offset >= 1 && src.pageSize >= 1
    decreases |src.packages| - offset
  {
    fails.Some?
    && (fails.value == 0 || (!ShortPage(src, offset) && PagesFail(src, offset + src.pageSize, Some(fails.value - 1))))
  }

  const FRESH := Checkpoint(Connected, DiscoverProjects, 0, None)

  function Opening(saved: Option<Checkpoint>): seq<Action> {
    if saved.None? then [Save(FRESH)] else []
  }

  function Started(saved: Option<Checkpoint>): Checkpoint {
    if saved.None? then FRESH else saved.value
  }

  function Offset(saved: Option<Checkpoint>): nat {
    if Started(saved).lastPage > 1 then Started(saved).lastPage else 1
  }

  function Discovery(saved: Option<Checkpoint>): Checkpoint {
    Started(saved).(status := Discovering, stage := DiscoverProjects, lastError := None)
  }

  function Fetching(saved: Option<Checkpoint>): Checkpoint {
    Discovery(saved).(status := Ingesting, stage := FetchWorkItems)
  }

  predicate AlreadyDone(saved: Option<Checkpoint>, force: bool) {
    !force && (Started(saved).status.Ready? || Started(saved).status.LiveSync?)
  }

  /** What follows the paging loop; every save carries the cursor the run started from. */
  function Closing(saved: Option<Checkpoint>, at: PullSync.Time): seq<Action> {
    var s := Fetching(saved);
    [Save(s.(stage := ResolveRelations)),
     RelinkFrom(Offset(saved) - 1),
     Save(s.(stage := IngestComments)),
     Save(s.(status := BuildingGraph, stage := BuildGraph)),
     Save(s.(status := EstablishingBaseline, stage := EstablishBaseline)),
     Establish(Offset(saved) - 1, at),
     Save(s.(status := Ready, stage := Complete, lastError := None))]
  }

  function Importing(src: Source, saved: Option<Checkpoint>, fails: Option<nat>): seq<Action>
    requires src.pageSize >= 1
  {
    [Save(Fetching(saved))] + Pages(src, Offset(saved), Fetching(saved), fails)
  }

  /** All actions of a run that meets no fault. */
  function Actions(src: Source, saved: Option<Checkpoint>, force: bool, at: PullSync.Time): seq<Action>
    requires src.pageSize >= 1
  {
    if AlreadyDone(saved, force) then Opening(saved)
    else if !src.visible then
      Opening(saved) + [Save(Discovery(saved))]
      + [Save(Discovery(saved).(status := Status.Failed, lastError := Some("provider project does not exist")))]
    else
      Opening(saved) + [Save(Discovery(saved))] + (Importing(src, saved, None) + Closing(saved, at))
  }

  /** The actions of a run in which a page fetch raises: the paging so far, then the failure save. */
  function FailingActions(src: Source, saved: Option<Checkpoint>, fails: nat, error: string): seq<Action>
    requires src.pageSize >= 1
  {
    Opening(saved) + [Save(Discovery(saved))]
    + (Importing(src, saved, Some(fails)) + [Save(Fetching(saved).(status := Status.Failed, lastError := Some(error)))])
  }

  predicate FetchRaises(src: Source, saved: Option<Checkpoint>, force: bool, fails: Option<nat>)
    requires src.pageSize >= 1
  {
    !AlreadyDone(saved, force) && src.visible && PagesFail(src, Offset(saved), fails)
  }

  /** Every save and step of a run outside its paging. A completed import is left alone unless it is forced; any other
      run starts its paging at the saved page, and the saves around the paging carry that page. */
  lemma RunStages(src: Source, saved: Option<Checkpoint>, force: bool, at: PullSync.Time, fails: nat, error: string)
    requires src.pageSize >= 1
    ensures
      var page := if saved.Some? then saved.value.lastPage else 0;
      var from := if page == 0 then 1 else page;
      var opening := if saved.Some? then [] else [Save(Checkpoint(Connected, DiscoverProjects, 0, None))];
      var discovery := opening + [Save(Checkpoint(Discovering, DiscoverProjects, page, None))];
      var fetching := Checkpoint(Ingesting, FetchWorkItems, page, None);
      if !force && saved.Some? && saved.value.status in {Ready, LiveSync} then
        Actions(src, saved, force, at) == []
      else if !src.visible then
        Actions(src, saved, force, at) == discovery
          + [Save(Checkpoint(Status.Failed, DiscoverProjects, page, Some("provider project does not exist")))]
      else
        && Actions(src, saved, force, at) == discovery + [Save(fetching)] + Pages(src, from, fetching, None)
             + [Save(Checkpoint(Ingesting, ResolveRelations, page, None)),
                RelinkFrom(from - 1),
                Save(Checkpoint(Ingesting, IngestComments, page, None)),
                Save(Checkpoint(BuildingGraph, BuildGraph, page, None)),
                Save(Checkpoint(EstablishingBaseline, EstablishBaseline, page, None)),
                Establish(from - 1, at),
                Save(Checkpoint(Ready, Complete, page, None))]
        && FailingActions(src, saved, fails, error) == discovery + [Save(fetching)]
             + Pages(src, from, fetching, Some(fails))
             + [Save(Checkpoint(Status.Failed, FetchWorkItems, page, Some(error)))]
  {
    hide Pages;
  }

  // ----- facts about action sequences ----------------------------------------

  lemma PerformNone(cfg: Config, src: Source, db: Db)
    ensures PerformAll(cfg, src, db, []) == db
  {
  }

  lemma PerformOne(cfg: Config, src: Source, db: Db, a: Action)
    ensures PerformAll(cfg, src, db, [a]) == Perform(cfg, src, db, a)
  {
    hide Perform;
    assert Front([a]) == [];
  }

  lemma {:induction false} PerformConcat(cfg: Config, src: Source, db: Db, a: seq<Action>, b: seq<Action>)
    ensures PerformAll(cfg, src, db, a + b) == PerformAll(cfg, src, PerformAll(cfg, src, db, a), b)
  {
    hide Perform;
    if b == [] {
      assert a + b == a;
    } else {
      assert Front(a + b) == a + Front(b);
      PerformConcat(cfg, src, db, a, Front(b));
    }
  }

  lemma ClosingEffect(cfg: Config, src: Source, db: Db, before: Option<Checkpoint>, at: PullSync.Time)
    ensures
      var snapshots := Tail(src, Offset(before) - 1);
      PerformAll(cfg, src, db, Closing(before, at)) ==
      Db(RelinkAll(cfg.tables, db.store, snapshots),
        Some(Fetching(before).(status := Ready, stage := Complete, lastError := None)),
        PullSync.Watermark(Some(at), Some(at), if snapshots == [] then None else Some(Last(snapshots).externalId)))
  {
    hide RelinkAll, Tail;
    var actions := Closing(before, at);
    assert Front(actions) == actions[..6];
    assert Front(actions[..6]) == actions[..5];
    assert Front(actions[..5]) == actions[..4];
    assert Front(actions[..4]) == actions[..3];
    assert Front(actions[..3]) == actions[..2];
    assert Front(actions[..2]) == actions[..1];
    PerformOne(cfg, src, db, actions[0]);
    assert actions[..1] == [actions[0]];
    assert PerformAll(cfg, src, db, actions[..2]).store
      == RelinkAll(cfg.tables, db.store, Tail(src, Offset(before) - 1));
    assert PerformAll(cfg, src, db, actions[..4]).store == PerformAll(cfg, src, db, actions[..2]).store;
    assert PerformAll(cfg, src, db, actions[..6]).store == PerformAll(cfg, src, db, actions[..4]).store;
  }

  lemma PagesStep(src: Source, offset: nat, fetching: Checkpoint, fails: Option<nat>)
    requires offset >= 1 && src.pageSize >= 1
    ensures fails == Some(0) ==> Pages(src, offset, fetching, fails) == [] && PagesFail(src, offset, fails)
    ensures fails != Some(0) && ShortPage(src, offset) ==>
      Pages(src, offset, fetching, fails) == Page(src, offset, fetching) && !PagesFail(src, offset, fails)
    ensures fails != Some(0) && !ShortPage(src, offset) ==>
      && Pages(src, offset, fetching, fails)
         == Page(src, offset, fetching) + Pages(src, offset + src.pageSize, fetching, Less(fails))
      && PagesFail(src, offset, fails) == PagesFail(src, offset + src.pageSize, Less(fails))
  {
    assert Page(src, offset, fetching) + [] == Page(src, offset, fetching);
  }

  lemma LastPage(src: Source, from: nat, offset: nat, pages: nat)
    requires 1 <= from && src.pageSize >= 1
    requires offset == from + pages * src.pageSize && (pages == 0 || offset - 1 <= |src.packages|)
    requires ShortPage(src, offset)
    ensures
      var size := if offset - 1 < PageEnd(src, offset) then PageEnd(src, offset) - (offset - 1) else 0;
      && |Tail(src, from - 1)| == offset - from + size
      && |Tail(src, from - 1)| / src.pageSize + 1 == pages + 1
  {
    assert (pages + 1) * src.pageSize == pages * src.pageSize + src.pageSize;
    PullSync.PageCount(|Tail(src, from - 1)|, src.pageSize, pages + 1);
  }

  /** A fault that the paging never reaches leaves the paging as it is. */
  lemma {:induction false} UnreachedFault(src: Source, offset: nat, fetching: Checkpoint, fails: Option<nat>)
    requires offset >= 1 && src.pageSize >= 1
    requires !PagesFail(src, offset, fails)
    ensures Pages(src, offset, fetching, fails) == Pages(src, offset, fetching, None)
    decreases |src.packages| - offset
  {
    hide Page, Pages, PagesFail;
    PagesStep(src, offset, fetching, fails);
    PagesStep(src, offset, fetching, None);
    if fails.Some? && !ShortPage(src, offset) {
      UnreachedFault(src, offset + src.pageSize, fetching, Some(fails.value - 1));
    }
  }

  // ----- the service ---------------------------------------------------------

  datatype BootstrapResult =
    BootstrapResult(status: Status, resumed: bool, raised: bool, pagesFetched: nat, itemsIngested: nat)

  class BootstrapService {
    const ingestion: IngestionService
    var saved: Option<Checkpoint>
    var watermark: PullSync.Watermark
    /** Everything done so far, in order; a process killed after `k` actions has done the first `k`. */
    var journal: seq<Action>

    function State(): Db
      reads this, ingestion
    {
      Db(ingestion.State(), saved, watermark)
    }

    constructor (ingestion: IngestionService, saved: Option<Checkpoint>, watermark: PullSync.Watermark)
      ensures this.ingestion == ingestion && journal == []
      ensures State() == Db(ingestion.State(), saved, watermark)
    {
      this.ingestion, this.saved, this.watermark, this.journal := ingestion, saved, watermark, [];
    }

    method SaveState(src: Source, state: Checkpoint)
      modifies this`saved, this`journal
      ensures saved == Some(state)
      ensures journal == old(journal) + [Save(state)]
      ensures State() == PerformAll(ingestion.cfg, src, old(State()), [Save(state)])
    {
      saved := Some(state);
      journal := journal + [Save(state)];
      PerformOne(ingestion.cfg, src, old(State()), Save(state));
    }

    method IngestPage(src: Source, offset: nat)
      requires offset >= 1
      modifies this`journal, ingestion
      ensures journal == old(journal) + Ingests(offset - 1, PageEnd(src, offset))
      ensures State() == PerformAll(ingestion.cfg, src, old(State()), Ingests(offset - 1, PageEnd(src, offset)))
    {
      hide Ingest;
      var i := offset - 1;
      while i < PageEnd(src, offset)
        invariant offset - 1 <= i && (i == offset - 1 || i <= PageEnd(src, offset))
        invariant journal == old(journal) + Ingests(offset - 1, i)
        invariant State() == PerformAll(ingestion.cfg, src, old(State()), Ingests(offset - 1, i))
      {
        var _ := ingestion.IngestSnapshot(TwoPass.BootstrapCall(src.packages[i], Some(src.project)));
        journal := journal + [IngestPackage(i)];
        assert Ingests(offset - 1, i + 1) == Ingests(offset - 1, i) + [IngestPackage(i)];
        assert Front(Ingests(offset - 1, i + 1)) == Ingests(offset - 1, i);
        i := i + 1;
      }
    }

    /** The paging loop: fetch, ingest, save the page cursor, until a short page or a fetch that raises. */
    method FetchAll(src: Source, from: nat, fetching: Checkpoint, fails: Option<nat>)
      returns (raised: bool, pages: nat, items: nat)
      requires from >= 1 && src.pageSize >= 1
      modifies this`saved, this`journal, ingestion
      ensures journal == old(journal) + Pages(src, from, fetching, fails)
      ensures State() == PerformAll(ingestion.cfg, src, old(State()), Pages(src, from, fetching, fails))
      ensures raised == PagesFail(src, from, fails)
      ensures !raised ==> items == |Tail(src, from - 1)|
      ensures !raised ==> pages == |Tail(src, from - 1)| / src.pageSize + 1
      ensures raised ==> fails.Some? && pages == fails.value
    {
      hide PerformAll, Page, Pages, PagesFail, Ingests, Tail;
      var offset := from;
      var left: Option<nat> := fails;
      ghost var done: seq<Action> := [];
      PerformNone(ingestion.cfg, src, State());
      raised, pages, items := false, 0, 0;
      while true
        invariant offset >= 1 && !raised
        invariant offset == from + pages * src.pageSize && (pages == 0 || offset - 1 <= |src.packages|)
        invariant items == offset - from
        invariant fails == (if left.Some? then Some(left.value + pages) else None)
        invariant journal == old(journal) + done
        invariant State() == PerformAll(ingestion.cfg, src, old(State()), done)
        invariant done + Pages(src, offset, fetching, left) == Pages(src, from, fetching, fails)
        invariant PagesFail(src, offset, left) == PagesFail(src, from, fails)
        decreases |src.packages| - offset
      {
        PagesStep(src, offset, fetching, left);
        if left == Some(0) {
          raised := true;
          assert done + [] == done;
          return;
        }
        ghost var rest := Pages(src, offset + src.pageSize, fetching, Less(left));
        FetchPageOf(src, offset, fetching);
        PerformConcat(ingestion.cfg, src, old(State()), done, Page(src, offset, fetching));
        assert done + (Page(src, offset, fetching) + rest) == (done + Page(src, offset, fetching)) + rest;
        done := done + Page(src, offset, fetching);
        pages := pages + 1;
        var size := if offset - 1 < PageEnd(src, offset) then PageEnd(src, offset) - (offset - 1) else 0;
        items := items + size;
        if size < src.pageSize {
          LastPage(src, from, offset, pages - 1);
          assert Page(src, offset, fetching) + [] == Page(src, offset, fetching);
          return;
        }
        offset := offset + src.pageSize;
        left := Less(left);
      }
    }

    /** One turn of the loop: the page is ingested before its cursor is saved. */
    method FetchPageOf(src: Source, offset: nat, fetching: Checkpoint)
      requires offset >= 1
      modifies this`saved, this`journal, ingestion
      ensures journal == old(journal) + Page(src, offset, fetching)
      ensures State() == PerformAll(ingestion.cfg, src, old(State()), Page(src, offset, fetching))
    {
      hide PerformAll, Ingests;
      journal := journal + [FetchPage(offset)];
      PerformOne(ingestion.cfg, src, old(State()), FetchPage(offset));
      IngestPage(src, offset);
      PerformConcat(ingestion.cfg, src, old(State()), [FetchPage(offset)], Ingests(offset - 1, PageEnd(src, offset)));
      SaveState(src, fetching.(lastPage := offset));
      PerformConcat(ingestion.cfg, src, old(State()), [FetchPage(offset)] + Ingests(offset - 1, PageEnd(src, offset)),
        [Save(fetching.(lastPage := offset))]);
    }

    method ResolveFetched(src: Source, state: Checkpoint, from: nat)
      modifies this`saved, this`journal, ingestion`items, ingestion`relations
      ensures journal == old(journal) + [Save(state), RelinkFrom(from)]
      ensures ingestion.State() == RelinkAll(ingestion.cfg.tables, old(ingestion.State()), Tail(src, from))
    {
      hide PerformAll, RelinkAll;
      SaveState(src, state);
      ingestion.ResolveRelationships(Tail(src, from));
      journal := journal + [RelinkFrom(from)];
    }

    /** Resolves relationships and establishes the baseline over the snapshots of this run. */
    method Finish(src: Source, before: Option<Checkpoint>, at: PullSync.Time)
      modifies this`saved, this`watermark, this`journal, ingestion`items, ingestion`relations
      ensures journal == old(journal) + Closing(before, at)
      ensures State() == PerformAll(ingestion.cfg, src, old(State()), Closing(before, at))
    {
      hide RelinkAll, PerformAll, Tail;
      ghost var start := State();
      var s := Fetching(before);
      var snapshots := Tail(src, Offset(before) - 1);
      ResolveFetched(src, s.(stage := ResolveRelations), Offset(before) - 1);
      SaveState(src, s.(stage := IngestComments));
      SaveState(src, s.(status := BuildingGraph, stage := BuildGraph));
      SaveState(src, s.(status := EstablishingBaseline, stage := EstablishBaseline));
      watermark := PullSync.Watermark(Some(at), Some(at),
        if snapshots == [] then None else Some(Last(snapshots).externalId));
      journal := journal + [Establish(Offset(before) - 1, at)];
      SaveState(src, s.(status := Ready, stage := Complete, lastError := None));
      ClosingEffect(ingestion.cfg, src, start, before, at);
    }

    /** Fetches, resolves and establishes the baseline; a fetch that raises is recorded instead. */
    method ImportPackages(src: Source, before: Option<Checkpoint>, fails: Option<nat>, error: string, at: PullSync.Time)
      returns (r: BootstrapResult)
      requires src.pageSize >= 1
      modifies this`saved, this`watermark, this`journal, ingestion
      ensures !r.resumed && r.raised == PagesFail(src, Offset(before), fails)
      ensures r.raised ==> fails.Some?
      ensures r.status == if r.raised then Status.Failed else Ready
      ensures
        var actions := Importing(src, before, if r.raised then fails else None)
          + if r.raised then [Save(Fetching(before).(status := Status.Failed, lastError := Some(error)))]
            else Closing(before, at);
        && journal == old(journal) + actions
        && State() == PerformAll(ingestion.cfg, src, old(State()), actions)
      ensures !r.raised ==>
        && r.itemsIngested == |Tail(src, Offset(before) - 1)|
        && r.pagesFetched == r.itemsIngested / src.pageSize + 1
    {
      hide PerformAll, Pages, PagesFail, Closing, Perform, Tail;
      ghost var start := State();
      SaveState(src, Fetching(before));
      var raised, pages, items := FetchAll(src, Offset(before), Fetching(before), fails);
      PerformConcat(ingestion.cfg, src, start, [Save(Fetching(before))],
        Pages(src, Offset(before), Fetching(before), fails));
      if raised {
        var failed := Fetching(before).(status := Status.Failed, lastError := Some(error));
        SaveState(src, failed);
        PerformConcat(ingestion.cfg, src, start, Importing(src, before, fails), [Save(failed)]);
        return BootstrapResult(Status.Failed, false, true, pages, items);
      }
      UnreachedFault(src, Offset(before), Fetching(before), fails);
      Finish(src, before, at);
      PerformConcat(ingestion.cfg, src, start, Importing(src, before, None), Closing(before, at));
      return BootstrapResult(Ready, false, false, pages, items);
    }

    /** Runs, or resumes, the import; `fails` is the page fetch that raises, if one does. */
    method Run(
        src: Source, force: bool, fails: Option<nat>, error: string, at: PullSync.Time)
      returns (r: BootstrapResult)
      requires src.pageSize >= 1
      modifies this`saved, this`watermark, this`journal, ingestion
      ensures r.raised == FetchRaises(src, old(saved), force, fails)
      ensures
        var actions := if r.raised then FailingActions(src, old(saved), fails.value, error)
                       else Actions(src, old(saved), force, at);
        && journal == old(journal) + actions
        && State() == PerformAll(ingestion.cfg, src, old(State()), actions)
      ensures r.resumed <==> !force && old(saved).Some? && old(saved).value.status in {Ready, LiveSync}
      ensures !r.raised && !r.resumed && src.visible ==>
        && r.status.Ready?
        && r.itemsIngested == |Tail(src, Offset(old(saved)) - 1)|
        && r.pagesFetched == r.itemsIngested / src.pageSize + 1
    {
      hide PerformAll, Importing, Closing, Perform, Tail, PagesFail;
      var before := saved;
      ghost var start := State();
      PerformNone(ingestion.cfg, src, start);
      if saved.None? {
        SaveState(src, FRESH);
      }
      if AlreadyDone(before, force) {
        return BootstrapResult(saved.value.status, true, false, 0, 0);
      }
      SaveState(src, Discovery(before));
      PerformConcat(ingestion.cfg, src, start, Opening(before), [Save(Discovery(before))]);
      ghost var done := Opening(before) + [Save(Discovery(before))];
      if !src.visible {
        var failed := Discovery(before).(status := Status.Failed, lastError := Some("provider project does not exist"));
        SaveState(src, failed);
        PerformConcat(ingestion.cfg, src, start, done, [Save(failed)]);
        return BootstrapResult(Status.Failed, false, false, 0, 0);
      }
      r := ImportPackages(src, before, fails, error, at);
      var last := Save(Fetching(before).(status := Status.Failed, lastError := Some(error)));
      ghost var rest := Importing(src, before, if r.raised then fails else None)
        + if r.raised then [last] else Closing(before, at);
      PerformConcat(ingestion.cfg, src, start, done, rest);
      assert old(journal) + done + rest == old(journal) + (done + rest);
      assert done + rest == if r.raised then FailingActions(src, before, fails.value, error)
                            else Actions(src, before, force, at);
    }
  }
}
