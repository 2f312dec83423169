/** Imports over any history of kills, exceptions and completed runs. */
module BootstrapRuns {
  import opened Prelude
  import opened Snapshots
  import opened Ingestion
  import opened Bootstrap
  import PullSync
  import TwoPass

  /** How a run ends: by itself, killed after some actions, or by an exception its handler records. */
  datatype Ending = Finishes | Killed(after: nat) | Raises(after: nat, stage: Stage, error: string)

  datatype Attempt = Attempt(force: bool, at: PullSync.Time, ending: Ending)

  function Cut(actions: seq<Action>, k: nat): seq<Action> {
    if k <= |actions| then actions[..k] else actions
  }

  /** What reaches the database in one run. The handler covers everything after the opening save and
      records the failure with the cursor the run started from. */
  function Effects(src: Source, saved: Option<Checkpoint>, a: Attempt): seq<Action>
    requires src.pageSize >= 1
  {
    var actions := Actions(src, saved, a.force, a.at);
    match a.ending
    case Finishes => actions
    case Killed(k) => Cut(actions, k)
    case Raises(k, stage, error) =>
      if k < |Opening(saved)| || AlreadyDone(saved, a.force) then Cut(actions, k)
      else Cut(actions, k) + [Save(Checkpoint(Status.Failed, stage, Started(saved).lastPage, Some(error)))]
  }

  function History(cfg: Config, src: Source, db: Db, attempts: seq<Attempt>): Db
    requires src.pageSize >= 1
  {
    if attempts == [] then db
    else
      var before := History(cfg, src, db, Front(attempts));
      PerformAll(cfg, src, before, Effects(src, before.saved, Last(attempts)))
  }

  // ----- coverage ------------------------------------------------------------

  /** The first `n` packages have a work item and a baseline. */
  predicate Has(src: Source, st: Store, n: int) {
    forall i :: 0 <= i < n && i < |src.packages| ==>
      src.packages[i].externalId in st.items && src.packages[i].externalId in st.baselines
  }

  /** How many packages a saved cursor stands for: none yet, or everything through its page. */
  function Reach(src: Source, cursor: nat): nat {
    if cursor == 0 then 0 else PageEnd(src, cursor)
  }

  predicate Done(status: Status) {
    status.Ready? || status.LiveSync?
  }

  predicate Honored(src: Source, st: Store, c: Checkpoint) {
    && c.lastPage <= |src.packages| + 1
    && Has(src, st, Reach(src, c.lastPage))
    && (Done(c.status) ==> Has(src, st, |src.packages|))
  }

  /** The saved checkpoint never runs ahead of what has been ingested. */
  predicate Good(src: Source, db: Db) {
    HasProject(db.store.projects, src.project) && (db.saved.Some? ==> Honored(src, db.store, db.saved.value))
  }

  predicate Grows(a: Store, b: Store) {
    a.projects == b.projects && a.items.Keys <= b.items.Keys && a.baselines.Keys <= b.baselines.Keys
  }

  /** Every state the sequence passes through is good. */
  predicate Safe(cfg: Config, src: Source, db: Db, actions: seq<Action>) {
    forall k :: 0 <= k <= |actions| ==> Good(src, PerformAll(cfg, src, db, actions[..k]))
  }

  lemma SafeConcat(cfg: Config, src: Source, db: Db, a: seq<Action>, b: seq<Action>)
    requires Safe(cfg, src, db, a) && Safe(cfg, src, PerformAll(cfg, src, db, a), b)
    ensures Safe(cfg, src, db, a + b)
  {
    hide PerformAll, Good;
    forall k | 0 <= k <= |a + b|
      ensures Good(src, PerformAll(cfg, src, db, (a + b)[..k]))
    {
      if k <= |a| {
        assert (a + b)[..k] == a[..k];
      } else {
        assert (a + b)[..k] == a + b[..k - |a|];
        PerformConcat(cfg, src, db, a, b[..k - |a|]);
      }
    }
  }

  lemma SafeEnd(cfg: Config, src: Source, db: Db, a: seq<Action>)
    requires Safe(cfg, src, db, a)
    ensures Good(src, db) && Good(src, PerformAll(cfg, src, db, a))
  {
    hide PerformAll, Good;
    assert a[..0] == [] && a[..|a|] == a;
    PerformNone(cfg, src, db);
  }

  lemma SafeOne(cfg: Config, src: Source, db: Db, a: Action)
    requires Good(src, db) && Good(src, Perform(cfg, src, db, a))
    ensures Safe(cfg, src, db, [a])
  {
    hide PerformAll, Good, Perform;
    PerformNone(cfg, src, db);
    PerformOne(cfg, src, db, a);
    assert [a][..0] == [] && [a][..1] == [a];
  }

  lemma IngestGrows(cfg: Config, src: Source, st: Store, s: Snapshot)
    requires HasProject(st.projects, src.project)
    ensures
      var r := Ingest(cfg, st, TwoPass.BootstrapCall(s, Some(src.project)));
      Grows(st, r) && s.externalId in r.items && s.externalId in r.baselines
  {
    hide AllLinks, Upserted, Published;
  }

  lemma {:induction false} RelinkGrows(t: Tables, st: Store, batch: seq<Snapshot>)
    ensures Grows(st, RelinkAll(t, st, batch))
  {
    hide AllLinks, Parented;
    if batch != [] {
      RelinkGrows(t, st, Front(batch));
    }
  }

  /** Any action but a save keeps a good state good. */
  lemma PerformGood(cfg: Config, src: Source, db: Db, a: Action)
    requires Good(src, db) && !a.Save?
    ensures Good(src, Perform(cfg, src, db, a)) && Grows(db.store, Perform(cfg, src, db, a).store)
    ensures Perform(cfg, src, db, a).saved == db.saved
    ensures a.IngestPackage? && Has(src, db.store, a.index) ==> Has(src, Perform(cfg, src, db, a).store, a.index + 1)
  {
    hide Ingest, RelinkAll;
    match a
    case FetchPage(_) =>
    case IngestPackage(i) =>
      if i < |src.packages| {
        IngestGrows(cfg, src, db.store, src.packages[i]);
      }
    case RelinkFrom(i) =>
      RelinkGrows(cfg.tables, db.store, Tail(src, i));
    case Establish(_, _) =>
  }

  lemma {:induction false} IngestsSafe(cfg: Config, src: Source, db: Db, lo: nat, hi: int)
    requires Good(src, db) && Has(src, db.store, lo)
    ensures
      var r := PerformAll(cfg, src, db, Ingests(lo, hi));
      && Safe(cfg, src, db, Ingests(lo, hi))
      && r.saved == db.saved && Grows(db.store, r.store)
      && Has(src, r.store, if lo < hi then hi else lo)
    decreases hi - lo
  {
    hide Perform, Good;
    if lo >= hi {
      assert Ingests(lo, hi)[..0] == [];
    } else {
      IngestsSafe(cfg, src, db, lo, hi - 1);
      var r := PerformAll(cfg, src, db, Ingests(lo, hi - 1));
      SafeEnd(cfg, src, db, Ingests(lo, hi - 1));
      PerformGood(cfg, src, r, IngestPackage(hi - 1));
      SafeOne(cfg, src, r, IngestPackage(hi - 1));
      SafeConcat(cfg, src, db, Ingests(lo, hi - 1), [IngestPackage(hi - 1)]);
      assert Ingests(lo, hi) == Ingests(lo, hi - 1) + [IngestPackage(hi - 1)];
      assert Front(Ingests(lo, hi)) == Ingests(lo, hi - 1);
    }
  }

  lemma PageSafe(cfg: Config, src: Source, db: Db, offset: nat, fetching: Checkpoint)
    requires 1 <= offset <= |src.packages| + 1 && !Done(fetching.status)
    requires Good(src, db) && Has(src, db.store, offset - 1)
    ensures
      var r := PerformAll(cfg, src, db, Page(src, offset, fetching));
      && Safe(cfg, src, db, Page(src, offset, fetching))
      && Grows(db.store, r.store)
      && Has(src, r.store, PageEnd(src, offset))
  {
    hide PerformAll, Perform, Safe;
    var ingests, save := Ingests(offset - 1, PageEnd(src, offset)), Save(fetching.(lastPage := offset));
    PerformOne(cfg, src, db, FetchPage(offset));
    PerformGood(cfg, src, db, FetchPage(offset));
    SafeOne(cfg, src, db, FetchPage(offset));
    var d1 := Perform(cfg, src, db, FetchPage(offset));
    assert Has(src, d1.store, offset - 1);
    IngestsSafe(cfg, src, d1, offset - 1, PageEnd(src, offset));
    SafeConcat(cfg, src, db, [FetchPage(offset)], ingests);
    PerformConcat(cfg, src, db, [FetchPage(offset)], ingests);
    var d2 := PerformAll(cfg, src, d1, ingests);
    SafeEnd(cfg, src, d1, ingests);
    assert Has(src, d2.store, PageEnd(src, offset));
    SaveGood(cfg, src, d2, fetching.(lastPage := offset));
    SafeOne(cfg, src, d2, save);
    SafeConcat(cfg, src, db, [FetchPage(offset)] + ingests, [save]);
    PerformConcat(cfg, src, db, [FetchPage(offset)] + ingests, [save]);
    PerformOne(cfg, src, d2, save);
  }

  lemma SaveGood(cfg: Config, src: Source, db: Db, c: Checkpoint)
    requires Good(src, db) && Honored(src, db.store, c)
    ensures Good(src, Perform(cfg, src, db, Save(c)))
    ensures Perform(cfg, src, db, Save(c)) == db.(saved := Some(c))
  {
  }

  lemma {:induction false} PagesSafe(cfg: Config, src: Source, db: Db, offset: nat, fetching: Checkpoint)
    requires 1 <= offset <= |src.packages| + 1 && src.pageSize >= 1 && !Done(fetching.status)
    requires Good(src, db) && Has(src, db.store, offset - 1)
    ensures
      var r := PerformAll(cfg, src, db, Pages(src, offset, fetching, None));
      && Safe(cfg, src, db, Pages(src, offset, fetching, None))
      && Grows(db.store, r.store)
      && Has(src, r.store, |src.packages|)
    decreases |src.packages| - offset
  {
    hide PerformAll, Page, Safe, Pages, Good;
    PageSafe(cfg, src, db, offset, fetching);
    PagesStep(src, offset, fetching, None);
    if !ShortPage(src, offset) {
      var page, next := Page(src, offset, fetching), offset + src.pageSize;
      var d := PerformAll(cfg, src, db, page);
      SafeEnd(cfg, src, db, page);
      PagesSafe(cfg, src, d, next, fetching);
      SafeConcat(cfg, src, db, page, Pages(src, next, fetching, None));
      PerformConcat(cfg, src, db, page, Pages(src, next, fetching, None));
    }
  }

  lemma ClosingSafe(cfg: Config, src: Source, db: Db, saved: Option<Checkpoint>, at: PullSync.Time)
    requires src.pageSize >= 1
    requires Good(src, db) && Has(src, db.store, |src.packages|)
    requires Started(saved).lastPage <= |src.packages| + 1
    ensures Safe(cfg, src, db, Closing(saved, at))
    ensures Has(src, PerformAll(cfg, src, db, Closing(saved, at)).store, |src.packages|)
  {
    hide PerformAll, RelinkAll, Tail, Safe;
    var s := Fetching(saved);
    var c := Closing(saved, at);
    StepsSafe(cfg, src, db, c, 7);
    assert c[..7] == c;
  }

  /** With every package present, any further actions are safe, given cursors within the provider. */
  lemma {:induction false} StepsSafe(cfg: Config, src: Source, db: Db, actions: seq<Action>, n: nat)
    requires n <= |actions|
    requires forall a :: a in actions && a.Save? ==> a.state.lastPage <= |src.packages| + 1
    requires Good(src, db) && Has(src, db.store, |src.packages|)
    ensures Safe(cfg, src, db, actions[..n])
    ensures Has(src, PerformAll(cfg, src, db, actions[..n]).store, |src.packages|)
  {
    hide Perform;
    if n == 0 {
      assert actions[..0] == [];
    } else {
      StepsSafe(cfg, src, db, actions, n - 1);
      var d, a := PerformAll(cfg, src, db, actions[..n - 1]), actions[n - 1];
      SafeEnd(cfg, src, db, actions[..n - 1]);
      if a.Save? {
        SaveGood(cfg, src, d, a.state);
      } else {
        PerformGood(cfg, src, d, a);
      }
      SafeOne(cfg, src, d, a);
      SafeConcat(cfg, src, db, actions[..n - 1], [a]);
      assert actions[..n] == actions[..n - 1] + [a];
      assert Front(actions[..n]) == actions[..n - 1];
    }
  }

  /** Saves that keep the cursor a good state already honors. */
  lemma SameCursorSafe(cfg: Config, src: Source, db: Db, c: Checkpoint)
    requires Good(src, db) && !Done(c.status)
    requires c.lastPage <= |src.packages| + 1 && Has(src, db.store, Reach(src, c.lastPage))
    ensures Safe(cfg, src, db, [Save(c)])
    ensures PerformAll(cfg, src, db, [Save(c)]) == db.(saved := Some(c))
  {
    hide Perform, PerformAll, Good;
    SaveGood(cfg, src, db, c);
    SafeOne(cfg, src, db, Save(c));
    PerformOne(cfg, src, db, Save(c));
  }

  lemma OpeningSafe(cfg: Config, src: Source, db: Db)
    requires Good(src, db)
    ensures Safe(cfg, src, db, Opening(db.saved))
    ensures PerformAll(cfg, src, db, Opening(db.saved)) == db.(saved := Some(Started(db.saved)))
  {
    hide PerformAll, Good, Safe;
    if db.saved.None? {
      SameCursorSafe(cfg, src, db, FRESH);
    } else {
      PerformNone(cfg, src, db);
      NothingSafe(cfg, src, db);
    }
  }

  lemma NothingSafe(cfg: Config, src: Source, db: Db)
    requires Good(src, db)
    ensures Safe(cfg, src, db, [])
  {
    PerformNone(cfg, src, db);
    var none: seq<Action> := [];
    assert none[..0] == none;
  }

  /** Every state a fault-free run passes through is good, so a kill anywhere leaves a good state. */
  lemma ActionsSafe(cfg: Config, src: Source, db: Db, force: bool, at: PullSync.Time)
    requires src.pageSize >= 1 && Good(src, db)
    ensures Safe(cfg, src, db, Actions(src, db.saved, force, at))
    ensures !AlreadyDone(db.saved, force) && src.visible ==>
      Has(src, PerformAll(cfg, src, db, Actions(src, db.saved, force, at)).store, |src.packages|)
  {
    hide PerformAll, Safe, Pages, Closing, PageEnd;
    var saved := db.saved;
    OpeningSafe(cfg, src, db);
    if !AlreadyDone(saved, force) {
      var d0 := db.(saved := Some(Started(saved)));
      SafeEnd(cfg, src, db, Opening(saved));
      SameCursorSafe(cfg, src, d0, Discovery(saved));
      SafeConcat(cfg, src, db, Opening(saved), [Save(Discovery(saved))]);
      PerformConcat(cfg, src, db, Opening(saved), [Save(Discovery(saved))]);
      var begun := Opening(saved) + [Save(Discovery(saved))];
      var d1 := d0.(saved := Some(Discovery(saved)));
      SafeEnd(cfg, src, db, begun);
      if !src.visible {
        var c := Discovery(saved).(status := Status.Failed, lastError := Some("provider project does not exist"));
        SameCursorSafe(cfg, src, d1, c);
        SafeConcat(cfg, src, db, begun, [Save(c)]);
      } else {
        ImportSafe(cfg, src, d1, saved, at);
        SafeConcat(cfg, src, db, begun, Importing(src, saved, None) + Closing(saved, at));
        PerformConcat(cfg, src, db, begun, Importing(src, saved, None) + Closing(saved, at));
      }
    }
  }

  lemma ImportSafe(cfg: Config, src: Source, db: Db, saved: Option<Checkpoint>, at: PullSync.Time)
    requires src.pageSize >= 1 && Good(src, db)
    requires Started(saved).lastPage <= |src.packages| + 1
    requires Has(src, db.store, Reach(src, Started(saved).lastPage))
    ensures
      var actions := Importing(src, saved, None) + Closing(saved, at);
      Safe(cfg, src, db, actions) && Has(src, PerformAll(cfg, src, db, actions).store, |src.packages|)
  {
    hide PerformAll, Safe, Pages, Closing, Good;
    var pages := Pages(src, Offset(saved), Fetching(saved), None);
    SameCursorSafe(cfg, src, db, Fetching(saved));
    SafeEnd(cfg, src, db, [Save(Fetching(saved))]);
    var d2 := db.(saved := Some(Fetching(saved)));
    assert Has(src, d2.store, Offset(saved) - 1);
    PagesSafe(cfg, src, d2, Offset(saved), Fetching(saved));
    SafeConcat(cfg, src, db, [Save(Fetching(saved))], pages);
    PerformConcat(cfg, src, db, [Save(Fetching(saved))], pages);
    var d3 := PerformAll(cfg, src, d2, pages);
    SafeEnd(cfg, src, d2, pages);
    ClosingSafe(cfg, src, d3, saved, at);
    SafeConcat(cfg, src, db, Importing(src, saved, None), Closing(saved, at));
    PerformConcat(cfg, src, db, Importing(src, saved, None), Closing(saved, at));
  }

  lemma EffectsGood(cfg: Config, src: Source, db: Db, a: Attempt)
    requires src.pageSize >= 1 && Good(src, db)
    ensures Good(src, PerformAll(cfg, src, db, Effects(src, db.saved, a)))
  {
    hide PerformAll, Actions, Good, PageEnd;
    var actions := Actions(src, db.saved, a.force, a.at);
    ActionsSafe(cfg, src, db, a.force, a.at);
    SafeEnd(cfg, src, db, actions);
    match a.ending
    case Finishes =>
    case Killed(k) =>
    case Raises(k, stage, error) =>
      var d := PerformAll(cfg, src, db, Cut(actions, k));
      var c := Checkpoint(Status.Failed, stage, Started(db.saved).lastPage, Some(error));
      StartedHonored(src, db);
      StoreGrows(cfg, src, db, Cut(actions, k));
      HasStays(src, db.store, d.store, Reach(src, c.lastPage));
      SaveGood(cfg, src, d, c);
      PerformConcat(cfg, src, db, Cut(actions, k), [Save(c)]);
      PerformOne(cfg, src, d, Save(c));
  }

  lemma StartedHonored(src: Source, db: Db)
    requires Good(src, db)
    ensures Has(src, db.store, Reach(src, Started(db.saved).lastPage))
    ensures Started(db.saved).lastPage <= |src.packages| + 1
    ensures HasProject(db.store.projects, src.project)
  {
  }

  lemma HasStays(src: Source, a: Store, b: Store, n: nat)
    requires Has(src, a, n) && Grows(a, b)
    ensures Has(src, b, n)
  {
  }

  lemma {:induction false} StoreGrows(cfg: Config, src: Source, db: Db, actions: seq<Action>)
    requires HasProject(db.store.projects, src.project)
    ensures Grows(db.store, PerformAll(cfg, src, db, actions).store)
  {
    hide Ingest, RelinkAll, HasProject;
    if actions != [] {
      StoreGrows(cfg, src, db, Front(actions));
      var d := PerformAll(cfg, src, db, Front(actions));
      match Last(actions)
      case FetchPage(_) =>
      case IngestPackage(i) =>
        if i < |src.packages| {
          IngestGrows(cfg, src, d.store, src.packages[i]);
        }
      case Save(_) =>
      case RelinkFrom(i) =>
        RelinkGrows(cfg.tables, d.store, Tail(src, i));
      case Establish(_, _) =>
    }
  }

  /** Over any history of kills, exceptions and completed runs, the saved cursor covers only
      packages that have been ingested, and READY is only ever saved with all of them present. */
  lemma {:induction false} CursorNeverRunsAhead(cfg: Config, src: Source, db: Db, attempts: seq<Attempt>)
    requires src.pageSize >= 1 && Good(src, db)
    ensures Good(src, History(cfg, src, db, attempts))
  {
    hide PerformAll, Effects, Good;
    if attempts != [] {
      CursorNeverRunsAhead(cfg, src, db, Front(attempts));
      EffectsGood(cfg, src, History(cfg, src, db, Front(attempts)), Last(attempts));
    }
  }

  /** Whatever happened before, a run that completes leaves every provider package in the store. */
  lemma CompletionCoversAll(cfg: Config, src: Source, db: Db, attempts: seq<Attempt>)
    requires src.pageSize >= 1 && Good(src, db) && src.visible
    requires attempts != [] && Last(attempts).ending.Finishes?
    ensures
      var r := History(cfg, src, db, attempts).store;
      forall s :: s in src.packages ==> s.externalId in r.items && s.externalId in r.baselines
  {
    hide PerformAll, Actions;
    var before, a := History(cfg, src, db, Front(attempts)), Last(attempts);
    CursorNeverRunsAhead(cfg, src, db, Front(attempts));
    ActionsSafe(cfg, src, before, a.force, a.at);
    StoreGrows(cfg, src, before, Actions(src, before.saved, a.force, a.at));
    var r := History(cfg, src, db, attempts);
    if AlreadyDone(before.saved, a.force) {
      HasStays(src, before.store, r.store, |src.packages|);
    }
    forall s | s in src.packages
      ensures s.externalId in r.store.items && s.externalId in r.store.baselines
    {
      var i :| 0 <= i < |src.packages| && src.packages[i] == s;
    }
  }

  // ----- what a completed run computes ---------------------------------------

  lemma {:induction false} IngestAllConcat(cfg: Config, st: Store, a: seq<Call>, b: seq<Call>)
    ensures IngestAll(cfg, st, a + b) == IngestAll(cfg, IngestAll(cfg, st, a), b)
  {
    hide Ingest;
    if b == [] {
      assert a + b == a;
    } else {
      assert Front(a + b) == a + Front(b);
      IngestAllConcat(cfg, st, a, Front(b));
    }
  }

  function Calls(src: Source, lo: nat, hi: nat): seq<Call>
    requires lo <= hi <= |src.packages|
  {
    TwoPass.Calls(src.packages[lo..hi], Some(src.project))
  }

  lemma {:induction false} IngestsCompute(cfg: Config, src: Source, db: Db, lo: nat, hi: nat)
    requires lo <= hi <= |src.packages|
    ensures PerformAll(cfg, src, db, Ingests(lo, hi)) == db.(store := IngestAll(cfg, db.store, Calls(src, lo, hi)))
    decreases hi
  {
    hide Ingest;
    if lo < hi {
      IngestsCompute(cfg, src, db, lo, hi - 1);
      assert Front(Ingests(lo, hi)) == Ingests(lo, hi - 1);
      assert Front(Calls(src, lo, hi)) == Calls(src, lo, hi - 1);
    }
  }

  /** The paging loop ingests the packages from its offset on, each once, in provider order. */
  lemma {:induction false} PagesCompute(cfg: Config, src: Source, db: Db, offset: nat, fetching: Checkpoint)
    requires 1 <= offset <= |src.packages| + 1 && src.pageSize >= 1
    ensures PerformAll(cfg, src, db, Pages(src, offset, fetching, None)).store
      == IngestAll(cfg, db.store, Calls(src, offset - 1, |src.packages|))
    decreases |src.packages| - offset
  {
    hide PerformAll, Perform, IngestAll, Pages;
    var end, n := PageEnd(src, offset), |src.packages|;
    var ingests, save := Ingests(offset - 1, end), Save(fetching.(lastPage := offset));
    PerformOne(cfg, src, db, FetchPage(offset));
    IngestsCompute(cfg, src, db, offset - 1, end);
    PerformConcat(cfg, src, db, [FetchPage(offset)], ingests);
    PerformConcat(cfg, src, db, [FetchPage(offset)] + ingests, [save]);
    var d := PerformAll(cfg, src, db, Page(src, offset, fetching));
    FetchesAndSavesKeepStore(cfg, src, db, offset, fetching.(lastPage := offset));
    FetchesAndSavesKeepStore(cfg, src, db.(store := IngestAll(cfg, db.store, Calls(src, offset - 1, end))), offset,
      fetching.(lastPage := offset));
    assert d.store == IngestAll(cfg, db.store, Calls(src, offset - 1, end));
    PagesStep(src, offset, fetching, None);
    if !ShortPage(src, offset) {
      PagesCompute(cfg, src, d, offset + src.pageSize, fetching);
      PerformConcat(cfg, src, db, Page(src, offset, fetching), Pages(src, offset + src.pageSize, fetching, None));
      assert Calls(src, offset - 1, n) == Calls(src, offset - 1, end) + Calls(src, end, n);
      IngestAllConcat(cfg, db.store, Calls(src, offset - 1, end), Calls(src, end, n));
    }
  }

  lemma FetchesAndSavesKeepStore(cfg: Config, src: Source, db: Db, offset: nat, c: Checkpoint)
    ensures Perform(cfg, src, db, FetchPage(offset)) == db
    ensures PerformAll(cfg, src, db, [Save(c)]) == db.(saved := Some(c))
  {
    PerformOne(cfg, src, db, Save(c));
  }

  /** A run that completes imports, in two passes, exactly the packages from its starting offset on;
      its cursor then falls back to where the run started. */
  lemma CompletedRunIsImport(cfg: Config, src: Source, db: Db, force: bool, at: PullSync.Time)
    requires src.pageSize >= 1 && src.visible && !AlreadyDone(db.saved, force)
    requires Good(src, db)
    ensures
      var tail := Tail(src, Offset(db.saved) - 1);
      var r := PerformAll(cfg, src, db, Actions(src, db.saved, force, at));
      && r.store == TwoPass.Import(cfg, db.store, tail, Some(src.project))
      && r.saved == Some(Checkpoint(Ready, Complete, Started(db.saved).lastPage, None))
  {
    hide PerformAll, Pages, Closing, RelinkAll, IngestAll, Opening, Good;
    var saved := db.saved;
    StartedHonored(src, db);
    var begun := Opening(saved) + [Save(Discovery(saved))];
    var importing, pages := Importing(src, saved, None), Pages(src, Offset(saved), Fetching(saved), None);
    OpeningEffect(cfg, src, db);
    var d0 := db.(saved := Some(Started(saved)));
    FetchesAndSavesKeepStore(cfg, src, d0, 0, Discovery(saved));
    PerformConcat(cfg, src, db, Opening(saved), [Save(Discovery(saved))]);
    var d1 := d0.(saved := Some(Discovery(saved)));
    FetchesAndSavesKeepStore(cfg, src, d1, 0, Fetching(saved));
    PerformConcat(cfg, src, db, begun, importing + Closing(saved, at));
    PerformConcat(cfg, src, d1, importing, Closing(saved, at));
    PerformConcat(cfg, src, d1, [Save(Fetching(saved))], pages);
    PagesCompute(cfg, src, d1.(saved := Some(Fetching(saved))), Offset(saved), Fetching(saved));
    ClosingEffect(cfg, src, PerformAll(cfg, src, d1, importing), saved, at);
    assert src.packages[Offset(saved) - 1..|src.packages|] == Tail(src, Offset(saved) - 1);
  }

  lemma OpeningEffect(cfg: Config, src: Source, db: Db)
    ensures PerformAll(cfg, src, db, Opening(db.saved)) == db.(saved := Some(Started(db.saved)))
  {
    if db.saved.None? {
      FetchesAndSavesKeepStore(cfg, src, db, 0, FRESH);
    }
  }

  /** An uninterrupted first import: every item, parent and relation of the project, in the
      order-free form, with nothing published. */
  lemma FreshImportIsComplete(cfg: Config, src: Source, db: Db, at: PullSync.Time)
    requires src.pageSize >= 1 && src.visible && db.saved.None? && HasProject(db.store.projects, src.project)
    requires TwoPass.DistinctIds(src.packages)
    ensures
      var r := PerformAll(cfg, src, db, Actions(src, None, false, at));
      && TwoPass.View(r.store) == TwoPass.Settled(cfg.tables, db.store, TwoPass.ById(src.packages), Some(src.project))
      && r.store.events == db.store.events
  {
    hide PerformAll, Actions, TwoPass.Settled, TwoPass.Import;
    CompletedRunIsImport(cfg, src, db, false, at);
    assert Tail(src, 0) == src.packages;
    TwoPass.ImportIsSettled(cfg, db.store, src.packages, Some(src.project));
  }

  // ----- pages ---------------------------------------------------------------

  function Fetched(actions: seq<Action>): seq<nat> {
    if actions == [] then []
    else Fetched(Front(actions)) + if Last(actions).FetchPage? then [Last(actions).offset] else []
  }

  lemma {:induction false} FetchedConcat(a: seq<Action>, b: seq<Action>)
    ensures Fetched(a + b) == Fetched(a) + Fetched(b)
  {
    if b == [] {
      assert a + b == a;
    } else {
      assert Front(a + b) == a + Front(b);
      FetchedConcat(a, Front(b));
    }
  }

  lemma {:induction false} FetchedInIngests(lo: nat, hi: int)
    ensures Fetched(Ingests(lo, hi)) == []
    decreases hi - lo
  {
    if lo < hi {
      FetchedInIngests(lo, hi - 1);
      assert Front(Ingests(lo, hi)) == Ingests(lo, hi - 1);
    }
  }

  lemma FetchedInPage(src: Source, offset: nat, fetching: Checkpoint)
    requires offset >= 1
    ensures Fetched(Page(src, offset, fetching)) == [offset]
  {
    var ingests := Ingests(offset - 1, PageEnd(src, offset));
    FetchedInIngests(offset - 1, PageEnd(src, offset));
    FetchedConcat([FetchPage(offset)], ingests);
    FetchedConcat([FetchPage(offset)] + ingests, [Save(fetching.(lastPage := offset))]);
    assert Front([FetchPage(offset)]) == [];
    assert Front([Save(fetching.(lastPage := offset))]) == [];
  }

  /** The loop fetches `count / pageSize + 1` pages, at offsets one page apart, without gaps. */
  lemma {:induction false} PagesFetched(src: Source, offset: nat, fetching: Checkpoint)
    requires 1 <= offset <= |src.packages| + 1 && src.pageSize >= 1
    ensures
      var fetched := Fetched(Pages(src, offset, fetching, None));
      && |fetched| == (|src.packages| - (offset - 1)) / src.pageSize + 1
      && forall i :: 0 <= i < |fetched| ==> fetched[i] == offset + i * src.pageSize
    decreases |src.packages| - offset
  {
    hide Page, Pages, Fetched;
    var n := |src.packages| - (offset - 1);
    PagesStep(src, offset, fetching, None);
    FetchedInPage(src, offset, fetching);
    if ShortPage(src, offset) {
      PullSync.PageCount(n, src.pageSize, 1);
    } else {
      var next := offset + src.pageSize;
      PagesFetched(src, next, fetching);
      var later := Fetched(Pages(src, next, fetching, None));
      FetchedConcat(Page(src, offset, fetching), Pages(src, next, fetching, None));
      NextPage(n, src.pageSize);
      forall i | 0 <= i < |[offset] + later|
        ensures ([offset] + later)[i] == offset + i * src.pageSize
      {
        if i > 0 {
          assert later[i - 1] == next + (i - 1) * src.pageSize;
          assert i * src.pageSize == (i - 1) * src.pageSize + src.pageSize;
        }
      }
    }
  }

  lemma NextPage(n: nat, size: nat)
    requires n >= size >= 1
    ensures n / size == (n - size) / size + 1
  {
    var q, r := (n - size) / size, (n - size) % size;
    assert (q + 2) * size == q * size + size + size;
    assert (q + 1) * size == q * size + size;
    PullSync.PageCount(n, size, q + 2);
  }

  // ----- exceptions ----------------------------------------------------------

  /** Whenever an exception is raised, the checkpoint it leaves carries the cursor its run started with. */
  lemma ExceptionSavesStart(cfg: Config, src: Source, db: Db, a: Attempt)
    requires src.pageSize >= 1 && a.ending.Raises? && !AlreadyDone(db.saved, a.force)
    requires a.ending.after >= |Opening(db.saved)|
    ensures
      var r := PerformAll(cfg, src, db, Effects(src, db.saved, a));
      && r.saved.Some?
      && r.saved.value.lastPage == Started(db.saved).lastPage
      && Offset(r.saved) == Offset(db.saved)
  {
    hide PerformAll, Actions;
    var done := Cut(Actions(src, db.saved, a.force, a.at), a.ending.after);
    var c := Checkpoint(Status.Failed, a.ending.stage, Started(db.saved).lastPage, Some(a.ending.error));
    PerformConcat(cfg, src, db, done, [Save(c)]);
    PerformOne(cfg, src, PerformAll(cfg, src, db, done), Save(c));
  }

  lemma PageCursor(cfg: Config, src: Source, db: Db, offset: nat, fetching: Checkpoint)
    requires offset >= 1
    ensures PerformAll(cfg, src, db, Page(src, offset, fetching)).saved == Some(fetching.(lastPage := offset))
  {
    hide PerformAll;
    var work := [FetchPage(offset)] + Ingests(offset - 1, PageEnd(src, offset));
    var save := Save(fetching.(lastPage := offset));
    PerformConcat(cfg, src, db, work, [save]);
    PerformOne(cfg, src, PerformAll(cfg, src, db, work), save);
  }

  /** When the fetch numbered `fails` raises, the cursor saved last is that of the page before it. */
  lemma {:induction false} PagesCursor(cfg: Config, src: Source, db: Db, offset: nat, fetching: Checkpoint, fails: nat)
    requires offset >= 1 && src.pageSize >= 1 && PagesFail(src, offset, Some(fails))
    ensures PerformAll(cfg, src, db, Pages(src, offset, fetching, Some(fails))).saved
      == if fails == 0 then db.saved else Some(fetching.(lastPage := offset + (fails - 1) * src.pageSize))
    decreases fails
  {
    hide Page, Pages, PerformAll;
    PagesStep(src, offset, fetching, Some(fails));
    if fails == 0 {
      PerformNone(cfg, src, db);
    } else {
      var page, next := Page(src, offset, fetching), offset + src.pageSize;
      var d := PerformAll(cfg, src, db, page);
      PageCursor(cfg, src, db, offset, fetching);
      PagesCursor(cfg, src, d, next, fetching, fails - 1);
      PerformConcat(cfg, src, db, page, Pages(src, next, fetching, Some(fails - 1)));
      assert fails > 1 ==> (fails - 1) * src.pageSize == (fails - 2) * src.pageSize + src.pageSize;
    }
  }

  /** What the service's own failing run has saved just before its handler, and after it: the handler sends the
      cursor back to the start of the run. The next run starts where a kill at that moment would have let it start
      if and only if no page beyond the first was saved, and otherwise repeats all pages but the last saved one. */
  lemma ExceptionLosesProgress(cfg: Config, src: Source, db: Db, force: bool, fails: nat, error: string)
    requires src.pageSize >= 1 && FetchRaises(src, db.saved, force, Some(fails))
    ensures
      var actions := FailingActions(src, db.saved, fails, error);
      var before, after := PerformAll(cfg, src, db, Front(actions)).saved, PerformAll(cfg, src, db, actions).saved;
      && before.Some? && after.Some?
      && before.value.lastPage
         == (if fails == 0 then Started(db.saved).lastPage else Offset(db.saved) + (fails - 1) * src.pageSize)
      && after.value.lastPage == Started(db.saved).lastPage
      && (Offset(after) == Offset(before) <==> fails <= 1)
      && Offset(before) == Offset(after) + if fails == 0 then 0 else (fails - 1) * src.pageSize
  {
    hide PerformAll, Pages, PagesFail;
    var saved := db.saved;
    var begun := Opening(saved) + [Save(Discovery(saved))];
    var pages := Pages(src, Offset(saved), Fetching(saved), Some(fails));
    var actions := FailingActions(src, saved, fails, error);
    var failed := Save(Fetching(saved).(status := Status.Failed, lastError := Some(error)));
    assert actions == begun + [Save(Fetching(saved))] + pages + [failed];
    assert Front(actions) == begun + [Save(Fetching(saved))] + pages;
    PerformConcat(cfg, src, db, begun, [Save(Fetching(saved))]);
    PerformOne(cfg, src, PerformAll(cfg, src, db, begun), Save(Fetching(saved)));
    var d := PerformAll(cfg, src, db, begun + [Save(Fetching(saved))]);
    assert d.saved == Some(Fetching(saved));
    PerformConcat(cfg, src, db, begun + [Save(Fetching(saved))], pages);
    PagesCursor(cfg, src, d, Offset(saved), Fetching(saved), fails);
    PerformConcat(cfg, src, db, Front(actions), [failed]);
    PerformOne(cfg, src, PerformAll(cfg, src, db, Front(actions)), failed);
    assert fails > 1 ==> (fails - 1) * src.pageSize >= src.pageSize;
  }

  /** Two saved pages and then a raise: the cursor falls from the second page to none. */
  lemma TwoPagesLost(cfg: Config, db: Db, a: Snapshot, b: Snapshot, project: ProjectId, error: string)
    requires db.saved.None?
    ensures
      var src := Source([a, b], 1, project, true);
      var actions := FailingActions(src, None, 2, error);
      && FetchRaises(src, None, false, Some(2))
      && Offset(PerformAll(cfg, src, db, Front(actions)).saved) == 2
      && Offset(PerformAll(cfg, src, db, actions).saved) == 1
  {
    hide PerformAll, Pages;
    var src := Source([a, b], 1, project, true);
    assert PagesFail(src, 3, Some(0)) && PagesFail(src, 2, Some(1)) && PagesFail(src, 1, Some(2));
    ExceptionLosesProgress(cfg, src, db, false, 2, error);
  }

  /** The service's own failing run is one of the endings above. */
  lemma FailingIsRaise(
      src: Source, saved: Option<Checkpoint>, force: bool, fails: nat, error: string, at: PullSync.Time)
    returns (k: nat)
    requires src.pageSize >= 1 && FetchRaises(src, saved, force, Some(fails))
    ensures FailingActions(src, saved, fails, error)
      == Effects(src, saved, Attempt(force, at, Raises(k, FetchWorkItems, error)))
  {
    hide Pages, PagesFail, Closing;
    var part := Pages(src, Offset(saved), Fetching(saved), Some(fails));
    PagesPrefix(src, Offset(saved), Fetching(saved), Some(fails));
    var actions := Actions(src, saved, force, at);
    var before := Opening(saved) + [Save(Discovery(saved))] + ([Save(Fetching(saved))] + part);
    k := |before|;
    var whole := Pages(src, Offset(saved), Fetching(saved), None);
    assert whole == part + whole[|part|..];
    assert actions == before + (whole[|part|..] + Closing(saved, at));
    assert actions[..k] == before;
  }

  lemma {:induction false} PagesPrefix(src: Source, offset: nat, fetching: Checkpoint, fails: Option<nat>)
    requires offset >= 1 && src.pageSize >= 1
    ensures Pages(src, offset, fetching, fails) <= Pages(src, offset, fetching, None)
    decreases |src.packages| - offset
  {
    hide Page, Pages;
    PagesStep(src, offset, fetching, fails);
    PagesStep(src, offset, fetching, None);
    if fails != Some(0) && !ShortPage(src, offset) {
      PagesPrefix(src, offset + src.pageSize, fetching, Less(fails));
    }
  }
}
