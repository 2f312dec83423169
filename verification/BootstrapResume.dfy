/** Parents and relations after any history of the bootstrap: exactly when nothing is missing. */
module BootstrapResume {
  import opened Prelude
  import opened Snapshots
  import opened Ingestion
  import opened Bootstrap
  import opened BootstrapRuns
  import opened BootstrapLooks
  import PullCycles
  import PullSync
  import TwoPass

  // ----- what a run looks at -------------------------------------------------

  function Max(a: int, b: int): int {
    if a < b then b else a
  }

  /** A first look at each of `m` packages, in order. */
  function Upto(m: nat): (r: seq<nat>)
    ensures |r| == m
  {
    seq(m, i requires 0 <= i < m => i + 1)
  }

  /** What a stretch of a run leaves of the looks before it: packages before `lo` keep theirs, and a run that only ever
      went forward still does. */
  predicate Advances(looks: seq<nat>, after: seq<nat>, lo: nat, hi: nat) {
    && |after| == Max(|looks|, hi)
    && (forall i :: 0 <= i < lo && i < |looks| ==> after[i] == looks[i])
    && (looks == Upto(lo) && lo <= hi ==> after == Upto(hi))
  }

  lemma {:induction false} IngestsLook(count: nat, looks: seq<nat>, lo: nat, hi: nat)
    requires Bounded(count, looks) && lo <= |looks| && hi <= count
    ensures OrderlyAll(count, looks, Ingests(lo, hi))
    ensures Bounded(count, LookAll(looks, Ingests(lo, hi)))
    ensures Advances(looks, LookAll(looks, Ingests(lo, hi)), lo, Max(lo, hi))
    decreases hi
  {
    if lo < hi {
      IngestsLook(count, looks, lo, hi - 1);
      assert Front(Ingests(lo, hi)) == Ingests(lo, hi - 1);
      var before := LookAll(looks, Ingests(lo, hi - 1));
      assert Last(Ingests(lo, hi)) == IngestPackage(hi - 1);
      LookStep(count, before, IngestPackage(hi - 1));
      assert Upto(hi - 1) + [hi] == Upto(hi);
    }
  }

  lemma PageLooks(src: Source, looks: seq<nat>, offset: nat, fetching: Checkpoint)
    requires 1 <= offset <= |src.packages| + 1 && offset - 1 <= |looks| && Bounded(|src.packages|, looks)
    requires !BootstrapRuns.Done(fetching.status)
    ensures
      var page := Page(src, offset, fetching);
      && OrderlyAll(|src.packages|, looks, page)
      && Bounded(|src.packages|, LookAll(looks, page))
      && Advances(looks, LookAll(looks, page), offset - 1, PageEnd(src, offset))
  {
    hide Ingests, Bounded, Advances;
    var count, ingests := |src.packages|, Ingests(offset - 1, PageEnd(src, offset));
    var save := Save(fetching.(lastPage := offset));
    IngestsLook(count, looks, offset - 1, PageEnd(src, offset));
    LookOne(count, looks, FetchPage(offset));
    LookConcat(count, looks, [FetchPage(offset)], ingests);
    LookConcat(count, looks, [FetchPage(offset)] + ingests, [save]);
    LookOne(count, LookAll(looks, ingests), save);
    LooksBounded(count, looks, ingests);
  }

  lemma LookOne(count: nat, looks: seq<nat>, a: Action)
    ensures LookAll(looks, [a]) == Look(looks, a)
    ensures OrderlyAll(count, looks, [a]) <==> Orderly(count, looks, a)
  {
    assert Front([a]) == [];
  }

  lemma {:induction false} PagesLook(src: Source, looks: seq<nat>, offset: nat, fetching: Checkpoint)
    requires 1 <= offset <= |src.packages| + 1 && src.pageSize >= 1
    requires offset - 1 <= |looks| && Bounded(|src.packages|, looks) && !BootstrapRuns.Done(fetching.status)
    ensures
      var pages := Pages(src, offset, fetching, None);
      && OrderlyAll(|src.packages|, looks, pages)
      && Bounded(|src.packages|, LookAll(looks, pages))
      && Advances(looks, LookAll(looks, pages), offset - 1, |src.packages|)
    decreases |src.packages| - offset
  {
    hide Page, Pages, LookAll, OrderlyAll, Upto;
    PagesStep(src, offset, fetching, None);
    PageLooks(src, looks, offset, fetching);
    if !ShortPage(src, offset) {
      var page, next := Page(src, offset, fetching), offset + src.pageSize;
      PagesLook(src, LookAll(looks, page), next, fetching);
      LookConcat(|src.packages|, looks, page, Pages(src, next, fetching, None));
    }
  }

  /** After the paging, a run looks again at the packages from its start on. */
  lemma ClosingLooks(src: Source, looks: seq<nat>, saved: Option<Checkpoint>, at: PullSync.Time)
    requires |looks| == |src.packages| && Started(saved).lastPage <= |looks| + 1
    ensures OrderlyAll(|src.packages|, looks, Closing(saved, at))
    ensures LookAll(looks, Closing(saved, at)) == Look(looks, RelinkFrom(Offset(saved) - 1))
  {
    hide LookAll, OrderlyAll, Look;
    var c, n := Closing(saved, at), |src.packages|;
    var relink, rest := c[1], c[2..];
    var after := Look(looks, relink);
    SizeStays(looks, Offset(saved) - 1);
    QuietLooks(n, looks, [c[0]]);
    LookOne(n, looks, relink);
    QuietLooks(n, after, rest);
    LookConcat(n, looks, [c[0]], [relink]);
    LookConcat(n, looks, [c[0]] + [relink], rest);
    assert c == [c[0]] + [relink] + rest;
  }

  /** Actions that neither ingest nor relink leave the looks alone. */
  lemma {:induction false} QuietLooks(count: nat, looks: seq<nat>, actions: seq<Action>)
    requires forall a :: a in actions ==> !a.IngestPackage? && !a.RelinkFrom? && Orderly(count, looks, a)
    ensures OrderlyAll(count, looks, actions) && LookAll(looks, actions) == looks
  {
    if actions != [] {
      assert Last(actions) in actions && forall a :: a in Front(actions) ==> a in actions;
      QuietLooks(count, looks, Front(actions));
    }
  }

  lemma SizeStays(looks: seq<nat>, n: nat)
    ensures |Look(looks, RelinkFrom(n))| == |looks|
  {
  }

  /** The checkpoint claims no more than what has been looked at. */
  predicate Covered(count: nat, looks: seq<nat>, saved: Option<Checkpoint>) {
    && Offset(saved) - 1 <= |looks|
    && Bounded(count, looks)
    && (BootstrapRuns.Done(Started(saved).status) ==> |looks| == count)
  }

  /** What a whole run does to the looks: packages before its start keep theirs, and the others are looked at when all
      are there. */
  function RunLooks(count: nat, looks: seq<nat>, n: nat): seq<nat>
    requires n <= |looks|
  {
    seq(count, i requires 0 <= i < count => if i < n then looks[i] else count)
  }

  lemma RunIsOrderly(src: Source, saved: Option<Checkpoint>, force: bool, at: PullSync.Time, looks: seq<nat>)
    requires src.pageSize >= 1 && Covered(|src.packages|, looks, saved)
    ensures OrderlyAll(|src.packages|, looks, Actions(src, saved, force, at))
    ensures LookAll(looks, Actions(src, saved, force, at))
      == if AlreadyDone(saved, force) || !src.visible then looks
         else RunLooks(|src.packages|, looks, Offset(saved) - 1)
  {
    hide LookAll, OrderlyAll, Pages, Closing, Bounded, Look, RunLooks, Upto;
    var n, opening := |src.packages|, Opening(saved);
    OpeningLooks(n, looks, saved);
    if !AlreadyDone(saved, force) {
      var discovery := Save(Discovery(saved));
      LookOne(n, looks, discovery);
      SameLooks(looks, discovery);
      LookConcat(n, looks, opening, [discovery]);
      var begun := opening + [discovery];
      if !src.visible {
        var failed := Save(Discovery(saved).(status := Status.Failed,
          lastError := Some("provider project does not exist")));
        LookOne(n, looks, failed);
        SameLooks(looks, failed);
        LookConcat(n, looks, begun, [failed]);
      } else {
        var fetching, pages := Save(Fetching(saved)), Pages(src, Offset(saved), Fetching(saved), None);
        LookOne(n, looks, fetching);
        SameLooks(looks, fetching);
        LookConcat(n, looks, begun, [fetching]);
        BoundedSize(n, looks);
        PagesLook(src, looks, Offset(saved), Fetching(saved));
        LookConcat(n, looks, begun + [fetching], pages);
        var paged := LookAll(looks, pages);
        ClosingLooks(src, paged, saved, at);
        LookConcat(n, looks, begun + [fetching] + pages, Closing(saved, at));
        assert Actions(src, saved, force, at) == begun + [fetching] + pages + Closing(saved, at);
        RelinkLooks(n, looks, paged, Offset(saved) - 1);
      }
    }
  }

  lemma RelinkLooks(count: nat, looks: seq<nat>, paged: seq<nat>, n: nat)
    requires Advances(looks, paged, n, count) && n <= |looks| <= count
    ensures Look(paged, RelinkFrom(n)) == RunLooks(count, looks, n)
  {
  }

  lemma BoundedSize(count: nat, looks: seq<nat>)
    requires Bounded(count, looks)
    ensures |looks| <= count
  {
  }

  lemma OpeningLooks(count: nat, looks: seq<nat>, saved: Option<Checkpoint>)
    ensures LookAll(looks, Opening(saved)) == looks && OrderlyAll(count, looks, Opening(saved))
  {
    LookOne(count, looks, Save(FRESH));
  }

  // ----- any history ---------------------------------------------------------

  /** Everything that reached the database over a history, in order. */
  function HistoryActions(cfg: Config, src: Source, db: Db, attempts: seq<Attempt>): seq<Action>
    requires src.pageSize >= 1
  {
    if attempts == [] then []
    else
      HistoryActions(cfg, src, db, Front(attempts))
      + Effects(src, History(cfg, src, db, Front(attempts)).saved, Last(attempts))
  }

  /** When each package was last looked at, over a history. */
  function HistoryLooks(cfg: Config, src: Source, db: Db, attempts: seq<Attempt>): seq<nat>
    requires src.pageSize >= 1
  {
    LookAll([], HistoryActions(cfg, src, db, attempts))
  }

  lemma {:induction false} PrefixOrderly(count: nat, looks: seq<nat>, actions: seq<Action>, k: nat)
    requires OrderlyAll(count, looks, actions) && k <= |actions|
    ensures OrderlyAll(count, looks, actions[..k])
  {
    hide Orderly;
    if k == |actions| {
      assert actions[..k] == actions;
    } else {
      PrefixOrderly(count, looks, Front(actions), k);
      assert Front(actions)[..k] == actions[..k];
    }
  }

  /** Orderly actions keep the checkpoint covered. */
  lemma {:induction false} StaysCovered(cfg: Config, src: Source, db: Db, looks: seq<nat>, actions: seq<Action>)
    requires Covered(|src.packages|, looks, db.saved) && OrderlyAll(|src.packages|, looks, actions)
    ensures Covered(|src.packages|, LookAll(looks, actions), PerformAll(cfg, src, db, actions).saved)
  {
    hide Ingest, RelinkAll;
    if actions != [] {
      StaysCovered(cfg, src, db, looks, Front(actions));
      LookStep(|src.packages|, LookAll(looks, Front(actions)), Last(actions));
    }
  }

  lemma EffectsOrderly(src: Source, saved: Option<Checkpoint>, a: Attempt, looks: seq<nat>)
    requires src.pageSize >= 1 && Covered(|src.packages|, looks, saved)
    ensures OrderlyAll(|src.packages|, looks, Effects(src, saved, a))
  {
    hide Actions, LookAll, OrderlyAll, Bounded;
    var actions, n := Actions(src, saved, a.force, a.at), |src.packages|;
    RunIsOrderly(src, saved, a.force, a.at, looks);
    match a.ending
    case Finishes =>
    case Killed(k) =>
      PrefixOrderly(n, looks, actions, if k <= |actions| then k else |actions|);
      assert actions[..|actions|] == actions;
    case Raises(k, stage, error) =>
      var cut := Cut(actions, k);
      var failed := Save(Checkpoint(Status.Failed, stage, Started(saved).lastPage, Some(error)));
      PrefixOrderly(n, looks, actions, if k <= |actions| then k else |actions|);
      assert actions[..|actions|] == actions;
      LooksGrow(n, looks, cut);
      LookOne(n, LookAll(looks, cut), failed);
      LookConcat(n, looks, cut, [failed]);
  }

  lemma LooksGrow(count: nat, looks: seq<nat>, actions: seq<Action>)
    requires Bounded(count, looks) && OrderlyAll(count, looks, actions)
    ensures |looks| <= |LookAll(looks, actions)|
  {
    LooksBounded(count, looks, actions);
  }

  lemma {:induction false} HistoryIsOrderly(cfg: Config, src: Source, db: Db, attempts: seq<Attempt>)
    requires src.pageSize >= 1 && db.saved.None?
    ensures OrderlyAll(|src.packages|, [], HistoryActions(cfg, src, db, attempts))
    ensures PerformAll(cfg, src, db, HistoryActions(cfg, src, db, attempts)) == History(cfg, src, db, attempts)
    ensures Covered(|src.packages|, HistoryLooks(cfg, src, db, attempts), History(cfg, src, db, attempts).saved)
  {
    hide PerformAll, Effects, LookAll, OrderlyAll, Covered;
    if attempts == [] {
      PerformNone(cfg, src, db);
      NothingYet(src, db);
    } else {
      var before := HistoryActions(cfg, src, db, Front(attempts));
      var d := History(cfg, src, db, Front(attempts));
      var effects := Effects(src, d.saved, Last(attempts));
      HistoryIsOrderly(cfg, src, db, Front(attempts));
      EffectsOrderly(src, d.saved, Last(attempts), LookAll([], before));
      LookConcat(|src.packages|, [], before, effects);
      PerformConcat(cfg, src, db, before, effects);
      StaysCovered(cfg, src, d, LookAll([], before), effects);
    }
  }

  lemma NothingYet(src: Source, db: Db)
    requires db.saved.None?
    ensures LookAll([], []) == [] && OrderlyAll(|src.packages|, [], [])
    ensures Covered(|src.packages|, [], db.saved)
  {
  }

  /** The looks a completed run leaves, after any history. */
  lemma CompletionLooks(cfg: Config, src: Source, db: Db, attempts: seq<Attempt>)
    requires src.pageSize >= 1 && src.visible && db.saved.None?
    requires attempts != [] && Last(attempts).ending.Finishes?
    ensures
      var before, saved := HistoryLooks(cfg, src, db, Front(attempts)), History(cfg, src, db, Front(attempts)).saved;
      && Offset(saved) - 1 <= |before|
      && HistoryLooks(cfg, src, db, attempts)
         == (if AlreadyDone(saved, Last(attempts).force) then before
             else RunLooks(|src.packages|, before, Offset(saved) - 1))
      && |HistoryLooks(cfg, src, db, attempts)| == |src.packages|
  {
    hide Actions, LookAll, OrderlyAll, PerformAll;
    var a, front := Last(attempts), Front(attempts);
    var saved := History(cfg, src, db, front).saved;
    HistoryIsOrderly(cfg, src, db, front);
    RunIsOrderly(src, saved, a.force, a.at, HistoryLooks(cfg, src, db, front));
    LookConcat(|src.packages|, [], HistoryActions(cfg, src, db, front), Effects(src, saved, a));
  }

  /** After any history of kills, exceptions and completed runs that starts with a first one and ends with a completed
      one: nothing is published, every package is ingested, and the store is the order-free form of a whole import if
      and only if every package's last look came late enough. */
  lemma HistoryIsWholeIff(cfg: Config, src: Source, db: Db, attempts: seq<Attempt>)
    requires src.pageSize >= 1 && src.visible && db.saved.None? && Scene(src, db.store) && ParentsExist(db.store)
    requires attempts != [] && Last(attempts).ending.Finishes?
    ensures
      var r, looks := History(cfg, src, db, attempts).store, HistoryLooks(cfg, src, db, attempts);
      && r.events == db.store.events
      && Bounded(|src.packages|, looks) && |looks| == |src.packages|
      && (TwoPass.View(r) == TwoPass.Settled(cfg.tables, db.store, TwoPass.ById(src.packages), Some(src.project))
          <==> Timely(cfg.tables, db.store, src.packages, looks))
  {
    hide PerformAll, LookAll, OrderlyAll, Effects, Bounded, Timely, TwoPass.Settled, TwoPass.ById, HasProject,
      TwoPass.DistinctIds, KnownAfter;
    HistoryIsOrderly(cfg, src, db, attempts);
    CompletionLooks(cfg, src, db, attempts);
    StoreKeys(cfg, src, db, HistoryActions(cfg, src, db, attempts));
    SettledIffTimely(cfg, src, db, HistoryActions(cfg, src, db, attempts));
  }

  /** A run that completes from the start leaves the whole import, whatever came before; so a history whose last run
      before it ended in an exception of a first import does. */
  lemma CompletedFromStartIsWhole(cfg: Config, src: Source, db: Db, attempts: seq<Attempt>)
    requires src.pageSize >= 1 && src.visible && db.saved.None? && Scene(src, db.store) && ParentsExist(db.store)
    requires attempts != [] && Last(attempts).ending.Finishes?
    requires
      var saved := History(cfg, src, db, Front(attempts)).saved;
      Offset(saved) == 1 && !AlreadyDone(saved, Last(attempts).force)
    ensures TwoPass.View(History(cfg, src, db, attempts).store)
      == TwoPass.Settled(cfg.tables, db.store, TwoPass.ById(src.packages), Some(src.project))
  {
    hide PerformAll, Effects, TwoPass.Settled, TwoPass.ById, HasProject, TwoPass.DistinctIds, KnownAfter,
      HistoryActions, HistoryLooks, History;
    CompletionLooks(cfg, src, db, attempts);
    HistoryIsWholeIff(cfg, src, db, attempts);
    LateIsTimely(cfg.tables, db.store, src.packages, HistoryLooks(cfg, src, db, attempts));
  }

  lemma LateIsTimely(t: Tables, st: Store, packages: seq<Snapshot>, looks: seq<nat>)
    requires Bounded(|packages|, looks) && |looks| == |packages|
    requires forall i :: 0 <= i < |looks| ==> looks[i] == |packages|
    ensures Timely(t, st, packages, looks)
  {
    hide AllLinks, KnownAfter;
  }

  // ----- a first run that is killed and then completed ------------------------

  /** The looks of a first run killed under a cursor that covers `n` packages, once a second run has completed it. */
  function KilledLooks(count: nat, n: nat): seq<nat> {
    seq(count, i requires 0 <= i < count => if i < n then i + 1 else count)
  }

  /** No package before `n` names, as parent or as the only mention of a relation, an item that is ingested
      after it. */
  predicate NoForwardReference(t: Tables, st: Store, packages: seq<Snapshot>, n: nat) {
    Timely(t, st, packages, KilledLooks(|packages|, n))
  }

  lemma {:induction false} LooksRise(count: nat, looks: seq<nat>, actions: seq<Action>)
    requires Bounded(count, looks) && OrderlyAll(count, looks, actions)
    ensures |looks| <= |LookAll(looks, actions)|
    ensures forall i :: 0 <= i < |looks| ==> looks[i] <= LookAll(looks, actions)[i]
  {
    if actions != [] {
      LooksRise(count, looks, Front(actions));
      LooksBounded(count, looks, Front(actions));
    }
  }

  lemma PrefixUpto(count: nat, actions: seq<Action>, k: nat)
    requires OrderlyAll(count, [], actions) && k <= |actions|
    requires LookAll([], actions) == Upto(|LookAll([], actions)|)
    ensures LookAll([], actions[..k]) == Upto(|LookAll([], actions[..k])|)
  {
    hide LookAll, OrderlyAll;
    var prefix, rest := actions[..k], actions[k..];
    assert actions == prefix + rest;
    LookConcat(count, [], prefix, rest);
    LooksBounded(count, [], prefix);
    LooksRise(count, LookAll([], prefix), rest);
  }

  predicate AllSaves(actions: seq<Action>, p: Checkpoint -> bool) {
    forall a :: a in actions && a.Save? ==> p(a.state)
  }

  lemma {:induction false} SavedIsOneOf(cfg: Config, src: Source, db: Db, actions: seq<Action>, p: Checkpoint -> bool)
    requires AllSaves(actions, p)
    requires (db.saved.Some? && p(db.saved.value)) || (actions != [] && actions[0].Save?)
    ensures
      var r := PerformAll(cfg, src, db, actions).saved;
      r.Some? && p(r.value)
  {
    hide Ingest, RelinkAll;
    if actions != [] {
      assert actions == Front(actions) + [Last(actions)];
      if |actions| == 1 {
        assert Front(actions) == [];
      } else {
        SavedIsOneOf(cfg, src, db, Front(actions), p);
      }
    }
  }

  lemma {:induction false} PagesSaveFetching(src: Source, offset: nat, fetching: Checkpoint)
    requires offset >= 1 && src.pageSize >= 1
    ensures AllSaves(Pages(src, offset, fetching, None), (c: Checkpoint) => c.status == fetching.status)
    decreases |src.packages| - offset
  {
    hide Pages;
    PagesStep(src, offset, fetching, None);
    if !ShortPage(src, offset) {
      PagesSaveFetching(src, offset + src.pageSize, fetching);
    }
  }

  /** The actions of a first run up to the save before its second pass. */
  function Forward(src: Source, at: PullSync.Time): seq<Action>
    requires src.pageSize >= 1
  {
    [Save(FRESH), Save(Discovery(None)), Save(Fetching(None))] + Pages(src, 1, Fetching(None), None)
    + [Closing(None, at)[0]]
  }

  /** Where a kill leaves a first run: still going forward and not done, or past the second pass with no cursor. */
  lemma KillLeaves(cfg: Config, src: Source, db: Db, force: bool, at: PullSync.Time, k: nat)
    requires src.pageSize >= 1 && src.visible && db.saved.None?
    ensures
      var cut := Cut(Actions(src, None, force, at), k);
      var saved, looks := PerformAll(cfg, src, db, cut).saved, LookAll([], cut);
      || (looks == Upto(|looks|) && !BootstrapRuns.Done(Started(saved).status))
      || (looks == KilledLooks(|src.packages|, 0) && Offset(saved) == 1)
  {
    hide PerformAll, Pages, LookAll;
    var forward, closing := Forward(src, at), Closing(None, at);
    var actions := Actions(src, None, force, at);
    assert actions == forward + closing[1..];
    var size := if k <= |actions| then k else |actions|;
    if size <= |forward| {
      assert Cut(actions, k) == forward[..size];
      KilledForward(cfg, src, db, at, size);
    } else {
      assert Cut(actions, k) == forward + closing[1..][..size - |forward|];
      KilledClosing(cfg, src, db, at, size - |forward|);
    }
    hide Forward, Closing, Actions;
  }

  lemma KilledForward(cfg: Config, src: Source, db: Db, at: PullSync.Time, k: nat)
    requires src.pageSize >= 1 && db.saved.None? && k <= |Forward(src, at)|
    ensures
      var cut := Forward(src, at)[..k];
      var saved, looks := PerformAll(cfg, src, db, cut).saved, LookAll([], cut);
      looks == Upto(|looks|) && !BootstrapRuns.Done(Started(saved).status)
  {
    hide PerformAll, Pages, LookAll, OrderlyAll, Upto;
    var forward := Forward(src, at);
    ForwardLooks(src, at);
    PrefixUpto(|src.packages|, forward, k);
    ForwardSaves(src, at);
    assert forall a :: a in forward[..k] ==> a in forward;
    if k == 0 {
      assert forward[..0] == [];
      PerformNone(cfg, src, db);
    } else {
      SavedIsOneOf(cfg, src, db, forward[..k], (c: Checkpoint) => !BootstrapRuns.Done(c.status));
    }
  }

  lemma KilledClosing(cfg: Config, src: Source, db: Db, at: PullSync.Time, j: nat)
    requires src.pageSize >= 1 && 1 <= j <= 6
    ensures
      var cut := Forward(src, at) + Closing(None, at)[1..][..j];
      LookAll([], cut) == KilledLooks(|src.packages|, 0) && Offset(PerformAll(cfg, src, db, cut).saved) == 1
  {
    hide PerformAll, Pages, LookAll, OrderlyAll, Upto;
    var n, forward, closing := |src.packages|, Forward(src, at), Closing(None, at);
    var rest, paged := closing[1..][..j], Front(forward);
    ForwardLooks(src, at);
    RestLooks(n, at, j);
    LookConcat(n, [], forward, rest);
    assert forward == paged + [closing[0]];
    PerformConcat(cfg, src, db, paged, [closing[0]]);
    PerformOne(cfg, src, PerformAll(cfg, src, db, paged), closing[0]);
    PerformConcat(cfg, src, db, forward, rest);
    SavedIsOneOf(cfg, src, PerformAll(cfg, src, db, forward), rest, (c: Checkpoint) => c.lastPage == 0);
  }

  lemma ForwardLooks(src: Source, at: PullSync.Time)
    requires src.pageSize >= 1
    ensures
      var n := |src.packages|;
      OrderlyAll(n, [], Forward(src, at)) && LookAll([], Forward(src, at)) == Upto(n)
  {
    hide Pages;
    var n, pages := |src.packages|, Pages(src, 1, Fetching(None), None);
    var a, b, c, d := Save(FRESH), Save(Discovery(None)), Save(Fetching(None)), Closing(None, at)[0];
    LookOne(n, [], a);
    LookOne(n, [], b);
    LookOne(n, [], c);
    LookConcat(n, [], [a], [b]);
    LookConcat(n, [], [a] + [b], [c]);
    assert [a] + [b] + [c] == [a, b, c];
    PagesLook(src, [], 1, Fetching(None));
    LookConcat(n, [], [a, b, c], pages);
    LookOne(n, LookAll([], pages), d);
    LookConcat(n, [], [a, b, c] + pages, [d]);
    hide LookAll, OrderlyAll;
  }

  lemma ForwardSaves(src: Source, at: PullSync.Time)
    requires src.pageSize >= 1
    ensures AllSaves(Forward(src, at), (c: Checkpoint) => !BootstrapRuns.Done(c.status))
  {
    hide Pages;
    PagesSaveFetching(src, 1, Fetching(None));
  }

  lemma RestLooks(n: nat, at: PullSync.Time, j: nat)
    requires 1 <= j <= 6
    ensures LookAll(Upto(n), Closing(None, at)[1..][..j]) == KilledLooks(n, 0)
  {
    hide LookAll, OrderlyAll, Upto;
    var relink, quiet := RelinkFrom(0), Closing(None, at)[2..][..j - 1];
    LookOne(n, Upto(n), relink);
    assert Look(Upto(n), relink) == KilledLooks(n, 0);
    QuietLooks(n, KilledLooks(n, 0), quiet);
    LookConcat(n, Upto(n), [relink], quiet);
    assert Closing(None, at)[1..][..j] == [relink] + quiet;
  }

  /** A first import that is killed at any moment and then completed reaches the whole import if and only if the
      packages its cursor covers hold no forward reference. */
  lemma KilledThenCompletedIff(
      cfg: Config, src: Source, db: Db, force: bool, at: PullSync.Time, k: nat, force': bool, at': PullSync.Time)
    requires src.pageSize >= 1 && src.visible && db.saved.None? && Scene(src, db.store) && ParentsExist(db.store)
    ensures
      var kill, finish := Attempt(force, at, Killed(k)), Attempt(force', at', Finishes);
      var n := Offset(History(cfg, src, db, [kill]).saved) - 1;
      var r := History(cfg, src, db, [kill, finish]).store;
      TwoPass.View(r) == TwoPass.Settled(cfg.tables, db.store, TwoPass.ById(src.packages), Some(src.project))
      <==> NoForwardReference(cfg.tables, db.store, src.packages, n)
  {
    hide PerformAll, Actions, LookAll, TwoPass.Settled, TwoPass.ById, Timely, KnownAfter, HasProject,
      TwoPass.DistinctIds, History, HistoryLooks;
    KilledHistoryLooks(cfg, src, db, force, at, k, force', at');
    HistoryIsWholeIff(cfg, src, db, [Attempt(force, at, Killed(k)), Attempt(force', at', Finishes)]);
  }

  lemma KilledHistoryLooks(
      cfg: Config, src: Source, db: Db, force: bool, at: PullSync.Time, k: nat, force': bool, at': PullSync.Time)
    requires src.pageSize >= 1 && src.visible && db.saved.None?
    ensures
      var kill, finish := Attempt(force, at, Killed(k)), Attempt(force', at', Finishes);
      var n := Offset(History(cfg, src, db, [kill]).saved) - 1;
      HistoryLooks(cfg, src, db, [kill, finish]) == KilledLooks(|src.packages|, n)
  {
    hide PerformAll, Actions, LookAll, History, HistoryActions;
    var kill, finish := Attempt(force, at, Killed(k)), Attempt(force', at', Finishes);
    assert Front([kill, finish]) == [kill];
    KillLeaves(cfg, src, db, force, at, k);
    OneAttempt(cfg, src, db, kill);
    CompletionLooks(cfg, src, db, [kill, finish]);
  }

  lemma OneAttempt(cfg: Config, src: Source, db: Db, a: Attempt)
    requires src.pageSize >= 1 && db.saved.None?
    ensures HistoryActions(cfg, src, db, [a]) == Effects(src, None, a)
    ensures History(cfg, src, db, [a]) == PerformAll(cfg, src, db, Effects(src, None, a))
  {
    hide Effects, PerformAll;
    assert Front([a]) == [];
  }

  /** A first import that ends in an exception and is then completed always reaches the whole import. */
  lemma RaisedThenCompleted(
      cfg: Config, src: Source, db: Db, raise: Attempt, force: bool, at: PullSync.Time)
    requires src.pageSize >= 1 && src.visible && db.saved.None? && Scene(src, db.store) && ParentsExist(db.store)
    requires raise.ending.Raises?
    ensures TwoPass.View(History(cfg, src, db, [raise, Attempt(force, at, Finishes)]).store)
      == TwoPass.Settled(cfg.tables, db.store, TwoPass.ById(src.packages), Some(src.project))
  {
    hide PerformAll, Actions, TwoPass.Settled, TwoPass.ById, HasProject, TwoPass.DistinctIds;
    var attempts := [raise, Attempt(force, at, Finishes)];
    assert Front(attempts) == [raise];
    OneAttempt(cfg, src, db, raise);
    if raise.ending.after == 0 {
      PerformNone(cfg, src, db);
    } else {
      var cut := Cut(Actions(src, None, raise.force, raise.at), raise.ending.after);
      var failed := Save(Checkpoint(Status.Failed, raise.ending.stage, 0, Some(raise.ending.error)));
      PerformConcat(cfg, src, db, cut, [failed]);
      PerformOne(cfg, src, PerformAll(cfg, src, db, cut), failed);
    }
    CompletedFromStartIsWhole(cfg, src, db, attempts);
  }

  // ----- a forward reference does get lost -----------------------------------

  lemma TwoPagesCut(src: Source, at: PullSync.Time)
    requires |src.packages| == 2 && src.pageSize == 1 && src.visible
    ensures
      var opening := [Save(FRESH), Save(Discovery(None)), Save(Fetching(None))];
      Cut(Actions(src, None, false, at), 9) == opening + Page(src, 1, Fetching(None)) + Page(src, 2, Fetching(None))
  {
    hide Closing;
    var opening := [Save(FRESH), Save(Discovery(None)), Save(Fetching(None))];
    var first, second := Page(src, 1, Fetching(None)), Page(src, 2, Fetching(None));
    PagesStep(src, 1, Fetching(None), None);
    PagesStep(src, 2, Fetching(None), None);
    var third := Pages(src, 3, Fetching(None), None);
    assert |first| == 3 && |second| == 3;
    assert Actions(src, None, false, at) == opening + first + second + third + Closing(None, at);
    hide Page, Pages, Actions;
  }

  lemma TwoPagesCursor(cfg: Config, src: Source, db: Db, at: PullSync.Time)
    requires |src.packages| == 2 && src.pageSize == 1 && src.visible && db.saved.None?
    ensures Offset(History(cfg, src, db, [Attempt(false, at, Killed(9))]).saved) == 2
  {
    hide PerformAll, Actions, Page;
    var opening, first := [Save(FRESH), Save(Discovery(None)), Save(Fetching(None))], Page(src, 1, Fetching(None));
    TwoPagesCut(src, at);
    OneAttempt(cfg, src, db, Attempt(false, at, Killed(9)));
    PerformConcat(cfg, src, db, opening + first, Page(src, 2, Fetching(None)));
    PageCursor(cfg, src, PerformAll(cfg, src, db, opening + first), 2, Fetching(None));
  }

  /** A child before its parent, one package a page, and a kill once both pages are saved: completing the import
      leaves the child without its parent, though both items are there. */
  lemma KilledBetweenChildAndParent(
      cfg: Config, src: Source, db: Db, child: Snapshot, parent: Snapshot, at: PullSync.Time, at': PullSync.Time)
    requires src == Source([child, parent], 1, src.project, true)
    requires child.externalId != parent.externalId && ParentRef(child) == Some(parent.externalId)
    requires db.saved.None? && db.store.items == map[] && HasProject(db.store.projects, src.project)
    ensures
      var r := History(cfg, src, db, [Attempt(false, at, Killed(9)), Attempt(false, at', Finishes)]).store;
      && child.externalId in r.items && parent.externalId in r.items
      && r.items[child.externalId].parent == None
  {
    hide PerformAll, Actions, LookAll, HasProject, KnownAfter, ParentRef, Apply, OrderlyAll, HistoryActions, History;
    var kill, finish := Attempt(false, at, Killed(9)), Attempt(false, at', Finishes);
    var attempts := [kill, finish];
    assert Front(attempts) == [kill];
    TwoPagesCursor(cfg, src, db, at);
    KillLeaves(cfg, src, db, false, at, 9);
    OneAttempt(cfg, src, db, kill);
    CompletionLooks(cfg, src, db, attempts);
    assert HistoryLooks(cfg, src, db, attempts)[0] == 1;
    HistoryIsOrderly(cfg, src, db, attempts);
    var actions := HistoryActions(cfg, src, db, attempts);
    StoreItem(cfg, src, db, actions, 0);
    StoreItem(cfg, src, db, actions, 1);
    KnownNone(db.store, src.packages);
    KnownStep(db.store, src.packages, 0);
    NoParentYet(cfg.tables, db.store, child, src.project);
  }

  lemma NoParentYet(t: Tables, st: Store, s: Snapshot, project: ProjectId)
    requires s.externalId !in st.items
    ensures Base(t, st, s, project).parent == None
  {
  }

  lemma KilledImportMissesParent(cfg: Config, db: Db, at: PullSync.Time, at': PullSync.Time)
    requires db.saved.None? && db.store.items == map[] && HasProject(db.store.projects, 1)
    ensures
      var src := Source([PullCycles.Package("1", Some(2)), PullCycles.Package("2", None)], 1, 1, true);
      var r := History(cfg, src, db, [Attempt(false, at, Killed(9)), Attempt(false, at', Finishes)]).store;
      "1" in r.items && "2" in r.items && r.items["1"].parent == None
  {
    hide PerformAll, Effects, HasProject, History;
    var child, parent := PullCycles.Package("1", Some(2)), PullCycles.Package("2", None);
    assert child.externalId != parent.externalId by { assert "1"[0] != "2"[0]; }
    assert ParentRef(child) == Some("2") by { assert Decimal(2) == "2"; }
    KilledBetweenChildAndParent(cfg, Source([child, parent], 1, 1, true), db, child, parent, at, at');
  }
}
