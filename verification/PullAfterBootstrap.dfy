/** The first pull after an import: where it starts, and that the overlap meant for it is never taken. */
module PullAfterBootstrap {
  import opened Prelude
  import opened Snapshots
  import opened Ingestion
  import opened PullSync
  import opened PullWindows
  import Bootstrap
  import BootstrapRuns

  /** One thing that happens to a project: an import run that ends in any way, or a pull cycle. */
  datatype Phase = Imported(src: Bootstrap.Source, attempt: BootstrapRuns.Attempt) | Pulled(turn: Turn)

  datatype World = World(db: Bootstrap.Db, conflicts: seq<Conflict>)

  function PullStateOf(w: World): PullState {
    PullState(w.db.store, w.conflicts, w.db.watermark)
  }

  function Happens(cfg: Config, o: Options, project: ProjectId, w: World, phase: Phase): World
    requires phase.Imported? ==> phase.src.pageSize >= 1
  {
    match phase
    case Imported(src, attempt) =>
      w.(db := Bootstrap.PerformAll(cfg, src, w.db, BootstrapRuns.Effects(src, w.db.saved, attempt)))
    case Pulled(turn) =>
      var r := Pull(cfg, o, turn.provider, project, PullStateOf(w), turn.started, turn.finished, turn.fault);
      World(w.db.(store := r.store, watermark := r.watermark), r.conflicts)
  }

  function History(cfg: Config, o: Options, project: ProjectId, w: World, phases: seq<Phase>): World
    requires forall phase :: phase in phases && phase.Imported? ==> phase.src.pageSize >= 1
  {
    if phases == [] then w
    else
      assert forall phase :: phase in Front(phases) ==> phase in phases;
      Happens(cfg, o, project, History(cfg, o, project, w, Front(phases)), Last(phases))
  }

  /** The one watermark that makes a pull start five seconds early: bootstrapped, and never synced. */
  predicate Overlaps(w: Watermark) {
    w.lastSynced.None? && w.bootstrapCompleted.Some?
  }

  lemma {:induction false} ActionsNeverOverlap(
      cfg: Config, src: Bootstrap.Source, db: Bootstrap.Db, actions: seq<Bootstrap.Action>)
    requires !Overlaps(db.watermark)
    ensures !Overlaps(Bootstrap.PerformAll(cfg, src, db, actions).watermark)
  {
    hide Ingest, RelinkAll;
    if actions != [] {
      ActionsNeverOverlap(cfg, src, db, Front(actions));
    }
  }

  lemma CycleNeverOverlaps(cfg: Config, o: Options, project: ProjectId, st: PullState, turn: Turn)
    requires !Overlaps(st.watermark)
    ensures !Overlaps(
      Pull(cfg, o, turn.provider, project, st, turn.started, turn.finished, turn.fault).watermark)
  {
    hide Pull, Completes;
    assert Front([turn]) == [] && After(cfg, o, project, st, []) == st;
    TurnMoves(cfg, o, project, st, [turn]);
  }

  /** Over any history of imports, finished, killed or failed, and of pull cycles, interrupted or not: a pull never
      starts with the overlap, because a finished import records itself as a sync, too. */
  lemma {:induction false} OverlapIsNeverTaken(cfg: Config, o: Options, project: ProjectId, w: World,
                                               phases: seq<Phase>)
    requires forall phase :: phase in phases && phase.Imported? ==> phase.src.pageSize >= 1
    requires !Overlaps(w.db.watermark)
    ensures !Overlaps(History(cfg, o, project, w, phases).db.watermark)
  {
    if phases != [] {
      assert forall phase :: phase in Front(phases) ==> phase in phases;
      OverlapIsNeverTaken(cfg, o, project, w, Front(phases));
      var before := History(cfg, o, project, w, Front(phases));
      match Last(phases)
      case Imported(src, attempt) =>
        ActionsNeverOverlap(cfg, src, before.db, BootstrapRuns.Effects(src, before.db.saved, attempt));
      case Pulled(turn) => CycleNeverOverlaps(cfg, o, project, PullStateOf(before), turn);
      hide Bootstrap.PerformAll, Pull, BootstrapRuns.Effects;
    }
  }

  /** A finished import leaves its own end as the time of the last sync. */
  lemma FinishedImport(cfg: Config, src: Bootstrap.Source, db: Bootstrap.Db, force: bool, at: Time)
    requires src.pageSize >= 1 && src.visible
    requires force || db.saved.None? || db.saved.value.status !in {Bootstrap.Ready, Bootstrap.LiveSync}
    ensures
      var r := Bootstrap.PerformAll(cfg, src, db, Bootstrap.Actions(src, db.saved, force, at));
      r.watermark.lastSynced == Some(at) && r.watermark.bootstrapCompleted == Some(at)
  {
    hide Bootstrap.PerformAll, Bootstrap.Pages, Bootstrap.Closing;
    var opening := Bootstrap.Opening(db.saved) + [Bootstrap.Save(Bootstrap.Discovery(db.saved))];
    var before := opening + Bootstrap.Importing(src, db.saved, None);
    var closing := Bootstrap.Closing(db.saved, at);
    assert Bootstrap.Actions(src, db.saved, force, at) == before + closing;
    Bootstrap.PerformConcat(cfg, src, db, before, closing);
    Bootstrap.ClosingEffect(cfg, src, Bootstrap.PerformAll(cfg, src, db, before), db.saved, at);
  }

  /** The first pull after an import that ended at `at` processes exactly what the provider lists since `at`, and then
      its sweep; so nothing that was recorded while the import ran is in its window. */
  lemma FirstPullAfterImport(cfg: Config, o: Options, project: ProjectId, src: Bootstrap.Source, w: World,
                             force: bool, at: Time, turn: Turn)
    requires src.pageSize >= 1 && src.visible && turn.fault.NoFault?
    requires force || w.db.saved.None? || w.db.saved.value.status !in {Bootstrap.Ready, Bootstrap.LiveSync}
    ensures
      var phases := [Imported(src, BootstrapRuns.Attempt(force, at, BootstrapRuns.Finishes)), Pulled(turn)];
      var imported := PullStateOf(History(cfg, o, project, w, phases[..1]));
      var window := turn.provider.changed(at);
      var pulled := Run(cfg, project, imported, FromWindow(window));
      var missing := NotShown(pulled.store, project, window, pulled.store.listing);
      var swept := Run(cfg, project, pulled, UpTo(o.sweepLimit, Shown(turn.provider.current, missing)));
      History(cfg, o, project, w, phases).db.store == swept.store
  {
    var attempt := BootstrapRuns.Attempt(force, at, BootstrapRuns.Finishes);
    var phases := [Imported(src, attempt), Pulled(turn)];
    FinishedImport(cfg, src, w.db, force, at);
    assert phases[..1] == [Imported(src, attempt)] && Front(phases) == phases[..1] && Front(phases[..1]) == [];
    assert History(cfg, o, project, w, []) == w;
    var imported := History(cfg, o, project, w, phases[..1]);
    assert imported == Happens(cfg, o, project, w, phases[0]);
    hide Run, NotShown, Shown, UpTo, Pull, Bootstrap.PerformAll, Bootstrap.Actions, FromWindow;
    CompleteCycle(cfg, o, turn.provider, project, PullStateOf(imported), turn.started, turn.finished, NoFault, at);
  }

  /** A package created at time 105, while an import runs that has read the provider before and ends at 110: neither
      the import nor the pull after it brings it in. */
  lemma CreatedDuringImport(cfg: Config, o: Options)
    ensures
      var src := Bootstrap.Source([], 100, 1, true);
      var empty := World(Bootstrap.Db(Store([Project(1, None)], map[], [], {}, map[], []), None,
                             Watermark(None, None, None)), []);
      var phases := [Imported(src, BootstrapRuns.Attempt(false, 110, BootstrapRuns.Finishes)),
                     Pulled(Turn(CreatedAt105(200), 200, 210, NoFault))];
      && ListsUpdates(CreatedAt105(200), [Update(105, Created())], 200)
      && History(cfg, o, 1, empty, phases).db.store == empty.db.store
  {
    var src := Bootstrap.Source([], 100, 1, true);
    var w := World(Bootstrap.Db(Store([Project(1, None)], map[], [], {}, map[], []), None,
                     Watermark(None, None, None)), []);
    var attempt := BootstrapRuns.Attempt(false, 110, BootstrapRuns.Finishes);
    var turn := Turn(CreatedAt105(200), 200, 210, NoFault);
    var phases := [Imported(src, attempt), Pulled(turn)];
    BootstrapRuns.CompletedRunIsImport(cfg, src, w.db, false, 110);
    FinishedImport(cfg, src, w.db, false, 110);
    assert History(cfg, o, 1, w, []) == w && Front(phases[..1]) == [] && Front(phases) == phases[..1];
    var imported := History(cfg, o, 1, w, phases[..1]);
    assert imported == Happens(cfg, o, 1, w, phases[0]);
    assert imported.db.store == w.db.store;
    EmptyWindow(cfg, o, PullStateOf(imported), turn, 110);
    var log := [Update(105, Created())];
    assert forall u :: u in log <==> u == Update(105, Created());
  }
}
