# Verified model of the brain

A Dafny model of the state machines at the centre of the engineering brain: provider ingestion and its drivers,
the workflow engine, concurrency control, context packing, cross-file resolution, and the smaller reconciling cores.
`dafny verify dfyconfig.toml` checks all of it.

Each part has two layers. Functions on plain values say what an operation does to the durable state; classes and
methods follow the program's own loops and field updates and are proved to compute those functions. The lemmas then
speak about whole runs, every interleaving or every input.

| modules | what they cover |
|---|---|
| `Snapshots`, `Ingestion`, `ItemFields`, `TwoPass`, `Assignment` | one ingestion step, what runs of them leave in every field, the two-pass import as an order-free closed form, assignment events as edges |
| `PullSync`, `PullReplay`, `PullCycles`, `PullWindows`, `PullAfterBootstrap` | the watermark-driven pull, aborted pulls that are run again, conflicts, and which changes the cycles ask for |
| `Bootstrap`, `BootstrapRuns`, `BootstrapLooks`, `BootstrapResume` | the paginated, checkpointed import under kills and exceptions at any point, and when a resumed import is complete |
| `Workflow`, `WorkflowRuns` | the checkpointed workflow: termination, well-formedness, crash and resume |
| `RateLimits`, `Locks` | the sliding-window limiter; workspace locks over all interleavings of handlers |
| `StableSort`, `ContextBudget`, `ContextProperties`, `Retrieval` | ranking, allocation, greedy packing; retrieval fusion |
| `Imports`, `GraphResolver`, `GraphProperties`, `GraphCalls` | relative imports, and the edges a resolver appends, exactly |
| `Documents`, `Claims`, `Topology`, `GraphReconciliation`, `Verification`, `Events` | versioning, merging and claims, the verification gate, event deduplication |

## What the code turns out to do

Some expectations about the code fail on particular inputs. Each has a lemma that shows it and, where the code meets
the expectation only sometimes, one that says exactly when.

- An aborted pull that is run again does not always end where an uninterrupted one does: the rerun looks a second
  time at parents and relations (`ForwardReferenceMatters`, and exactly when in `RerunCycleIsPlainIff`). Events,
  baselines and conflicts are always the same.
- A change recorded while a pull cycle runs is not asked for again, because the sync time is read when the cycle ends
  (`CreatedWhileRunning`, and exactly when in `UpdateIsListedIff`); only a sweep can still find it, and no sweep finds
  an item the store has never seen.
- docs/data_ingestion/IMPLEMENTATION_PLAN.md:86 and brain/application/work_management_sync.py:160-162 promise a first
  pull with a five-second overlap after a bootstrap. A finished import records its own end as the last sync, so the
  overlap is never taken (`OverlapIsNeverTaken`), and what changed while the import ran can be missed
  (`CreatedDuringImport`; what the first pull reads instead is in `FirstPullAfterImport`).
- An exception during the bootstrap sends the page cursor back to the start of the run (`TwoPagesLost`, and exactly
  how far in `ExceptionLosesProgress`), while tests/application/test_openproject_bootstrap.py:361 speaks of fetching
  only the remaining pages. Coverage never suffers (`CompletionCoversAll`), nor do the links
  of a first import (`RaisedThenCompleted`).
- A kill keeps the cursor, so the second pass of the completing run sees only the packages from there on, and parents
  and relations of earlier ones can stay missing (`KilledImportMissesParent`, and exactly when in
  `KilledThenCompletedIff` and, for any history, `HistoryIsWholeIff`).
- A failed execution records no error, so a new workflow never retries (`FreshWorkflowNeverRetries`), and an attempt
  made when the budget is spent is ignored even when it succeeds (`SpentAttemptIgnored`). Retry to failed is a move
  but not an edge of the graph (`MovesFollowGraph`).
- A capsule is within its budget if and only if that budget is not negative, and truncation of negative shares goes
  towards zero (`CapsuleTotals`, `AllocationsWithinBudgetIff`).
- A relative import beyond the package depth falls back to an absolute name (`BeyondDepthIsAbsolute`).
- The verification gate asks impact analysis about no symbol, so it expects no file and its structural and relevance
  steps always pass (`Verify`, `NoTargetsNoFiles`). `VerdictIsExact` covers every expected set all the same.
- Two interfaces that merging keeps apart can be reconciled as one (`InterfaceNamesCanCollide`, and exactly when in
  `InterfacesCollideIff`).
- `from . import b` finds the package and never its module `b` (`DotImportFindsPackage`).

## Model

| member | source | states |
|---|---|---|
| Snapshots.CompareSnapshots | brain/application/openproject_parser.py:181-206 | the changes listed from a stored snapshot to a new one, in the order of the fields |
| Snapshots.DiffReportsExactly | brain/application/openproject_parser.py:181-206 | a change is listed if and only if its own field differs |
| Snapshots.DiffIsEmptyIff | brain/application/openproject_parser.py:181-206 | the diff is empty if and only if none of the six fields differs |
| Ingestion.IngestionService.IngestSnapshot | brain/application/openproject_ingestion.py:237-332 | the whole new state and the result of one ingestion, for every mode, action and project lookup: rows, relations, baseline, events, and what the result record reports about them |
| Ingestion.IngestionService.Upsert | brain/application/openproject_ingestion.py:268-280 | the item, the listing and the relations written for a snapshot whose project is known |
| Ingestion.IngestionService.FindOrCreate | brain/application/openproject_ingestion.py:351-383 | an item is created if and only if none has its provider id; nothing else is touched |
| Ingestion.IngestionService.LinkParent | brain/application/openproject_ingestion.py:414-426 | the parent becomes the named item when that exists and is another one, and stays otherwise |
| Ingestion.IngestionService.LinkRelations | brain/application/openproject_ingestion.py:428-475 | the relation set grows by exactly the listed relations with both ends present, and each is counted |
| Ingestion.IngestionService.Publish | brain/application/openproject_ingestion.py:285-332 | which events a live snapshot appends and in which order, and the two flags reported about them |
| Ingestion.IngestionService.ResolveRelationships | brain/application/openproject_ingestion.py:477-493 | the second pass over a batch: the state it leaves is the fold of its links over the batch, skipping unknown items |
| Ingestion.LinkIsAskedFor | brain/application/openproject_ingestion.py:433-460 | which relation a list entry asks for, in both directions: target and kind by their first spelling that is not blank, the kind by the table, and the snapshot's own item as source when the entry names none |
| Ingestion.LinksAreAskedFor | brain/application/openproject_ingestion.py:433-475 | the relations of a snapshot are exactly those its entries ask for whose two ends are known and differ |
| Prelude.DecimalIsText | brain/application/openproject_ingestion.py:420-421 | the text of a number, as references are looked up: its digits denote it, without a leading zero, after a minus sign if it is negative |
| ItemFields.ProjectOfSnapshot | brain/application/openproject_ingestion.py:334-349 | a requested project is taken if it exists and nothing else is; without a request the first project that carries the snapshot's reference, else the first of all |
| ItemFields.IngestedFields | brain/application/openproject_ingestion.py:268-283 | one ingestion, field by field and from any store: title, description and assignee from the snapshot if it has them, else as before; kind, status and priority by the tables at its own fields; parent; project and verification kept; no other item touched, and nothing but the baseline without a project |
| ItemFields.IngestedEvents | brain/application/openproject_ingestion.py:285-332 | what one ingestion publishes: nothing exactly when it is history or an unchanged quiet one, and otherwise the event with the written item, its flag by the provider action if there is one |
| ItemFields.IngestedRelations | brain/application/openproject_ingestion.py:428-475 | a relation exists after one ingestion if and only if it did before or some entry of the snapshot asks for it and its ends exist and differ |
| ItemFields.RunFields | brain/application/openproject_ingestion.py:385-412 | over any run from any store: kind, status and priority of an item are those of its latest snapshot that found a project, title, description and assignee those of the latest that had one, its project that of the first |
| ItemFields.ImportedFields | brain/application/openproject_ingestion.py:385-426 | after a two-pass import, in any order: every field of each item of the batch from its own snapshot, with the parent looked up among all items that are left |
| ItemFields.ImportLeavesOthers | brain/application/openproject_ingestion.py:385-426 | an import leaves the items outside its batch as they were |
| TwoPass.ImportIsSettled | brain/application/openproject_ingestion.py:237-332 | from any store, ingesting a batch with distinct ids as history and then resolving relationships computes the order-free closed form `Settled`, and publishes nothing |
| TwoPass.ImportOrderIndependent | brain/application/openproject_ingestion.py:477-493 | two arrival orders of the same batch leave the same items, parents, relations and baselines |
| TwoPass.ImportedParents | brain/application/openproject_ingestion.py:414-426 | each imported item has as parent exactly the item its snapshot names when present and not itself, and keeps its old parent otherwise |
| TwoPass.ImportedRelations | brain/application/openproject_ingestion.py:428-475 | a relation exists afterwards if and only if it existed before or some entry of a batch snapshot asks for it, source to target, and both ends exist and differ |
| TwoPass.ImportIdempotent | brain/application/openproject_ingestion.py:477-493 | repeating the import in any order changes nothing in the whole store and publishes nothing |
| TwoPass.SecondPass | brain/application/openproject_ingestion.py:477-493 | resolving a batch one snapshot after the other equals one simultaneous look at every item |
| TwoPass.FirstPass | brain/application/openproject_ingestion.py:237-286 | after the first pass, fields are final, parents are provisional, and no relation outside the final set exists |
| Assignment.AssignmentStep | brain/application/openproject_ingestion.py:764-788 | for any state and call: when exactly an assignment is published, including the provider action and the unchanged filter |
| Assignment.RunKeepsPrevious | brain/application/openproject_ingestion.py:262-286 | over any run from any store: the baseline of an item is its latest snapshot, and it exists if and only if it did or a call that found a project created it |
| Assignment.RunPublishesFired | brain/application/openproject_ingestion.py:262-332 | over any run from any store and with any calls, the published assignments are exactly those of the calls that fire, in order |
| Assignment.EdgeIsTrigger | brain/application/openproject_ingestion.py:764-781 | in a state where every item has a baseline, a live step publishes an assignment if and only if the brain actor newly holds the item |
| Assignment.RunKeepsBaselines | brain/application/openproject_ingestion.py:262-286 | over any run, the baseline of an item is its latest snapshot, and items and baselines stay aligned |
| Assignment.AssignmentIsEdgeTriggered | brain/application/openproject_ingestion.py:262-332 | over any run mixing historical and live snapshots, the published assignments are exactly the edges, in order, whatever `publish_unchanged` says |
| Assignment.HistoryIsSilent | brain/application/openproject_ingestion.py:285-287 | a run of historical snapshots publishes no event, from any state |
| PullSync.PullSyncService.RecordStatusConflict | brain/application/work_management_sync.py:275-315 | a conflict is appended if and only if the provider claims a final status the brain has not verified and no open conflict holds that value |
| PullSync.PullSyncService.PullPage | brain/application/work_management_sync.py:229-242 | processing a page is the run over its packages: ingest, then look for a conflict |
| PullSync.PullSyncService.SweepMissing | brain/application/work_management_sync.py:317-341 | the sweep ingests exactly the provider's present version of listed items the window did not show, up to its limit or up to a question that raises |
| PullSync.PullSyncService.PullWindow | brain/application/work_management_sync.py:206-240 | the paging loop under every fault: which packages were processed, which ids were seen, how many pages were fetched and whether it aborted |
| PullSync.PullSyncService.SyncProject | brain/application/work_management_sync.py:194-264 | one whole cycle, with the watermark advanced or, when a page fetch or a question of the sweep raises, untouched |
| PullSync.RunPages | brain/application/work_management_sync.py:206-233 | page boundaries do not matter: two adjacent stretches of the window compose |
| PullReplay.ReplayStep | brain/application/work_management_sync.py:229-242 | carrying out a settled package again publishes nothing and only looks again at its parent and relations |
| PullReplay.ForwardStep | brain/application/work_management_sync.py:229-242 | a package new to both commutes with the second look at an earlier prefix |
| PullReplay.RerunIsSecondLook | brain/application/work_management_sync.py:206-264 | any number of aborted runs followed by a complete one equals the uninterrupted run plus a second look at the links of the furthest prefix reached |
| PullReplay.EventsExactlyOnce | brain/application/work_management_sync.py:206-264 | aborted runs and the rerun together publish exactly the event sequence of one uninterrupted pull, with the same baselines, conflicts, listing and all fields but parents |
| PullCycles.RerunIsPlainIff | brain/application/work_management_sync.py:206-264 | the rerun ends in the uninterrupted state if and only if the reached prefix holds no forward reference |
| PullCycles.ForwardReferenceMatters | brain/application/work_management_sync.py:206-264 | a concrete window in which abort and rerun find a parent that the uninterrupted pull leaves unresolved |
| PullCycles.PlainParents | brain/application/work_management_sync.py:229-242 | the parent each pulled item ends with: the named item if known by that position, else the old one |
| PullCycles.PlainRelations | brain/application/work_management_sync.py:229-242 | the relations a pull ends with: the old ones and those listed at a position where both ends are known |
| PullCycles.WindowIgnoresClockIff | brain/application/work_management_sync.py:266-273 | the start of the window is independent of the clock if and only if the watermark holds a time |
| PullCycles.SweepIsStable | brain/application/work_management_sync.py:317-341 | a sweep re-reads the same items before the window was processed, after it, and in the middle of itself |
| PullCycles.CycleIsRun | brain/application/work_management_sync.py:194-264 | a cycle carries out all of a fixed list of operations, window then sweep, or the prefix before the page fetch or the question that raises |
| PullCycles.AbortedCyclesThenPull | brain/application/work_management_sync.py:194-264 | any cycles interrupted in the window or the sweep, at any clock readings, followed by a complete one equal the uninterrupted cycle plus a second look at the furthest prefix reached; events, baselines, conflicts and watermark are its own |
| PullCycles.RerunCycleIsPlainIff | brain/application/work_management_sync.py:194-264 | for whole cycles: the rerun leaves the uninterrupted state if and only if the prefix reached, sweep included, holds no forward reference |
| PullCycles.RunListsItemsOnce | brain/application/openproject_ingestion.py:351-383 | no run lists an item twice, or one that does not exist |
| PullCycles.ConflictsStaySingle | brain/application/work_management_sync.py:275-315 | no run leaves two open status conflicts with the same value on one item |
| PullCycles.DisagreementIsRecorded | brain/application/work_management_sync.py:275-315 | after its step, every finished and unverified package has an open conflict with its value |
| PullCycles.StepIsExact | brain/application/work_management_sync.py:229-242 | one operation: a quiet live ingestion into the project and, for a package of the window, a conflict exactly when its final status is unverified and no open conflict of the item says so |
| PullWindows.PicksAreShown | brain/application/work_management_sync.py:317-341 | the sweep in closed form: the first of the unseen items that the provider shows, up to the limit and to a question that raises |
| PullWindows.CompleteCycle | brain/application/work_management_sync.py:194-273 | a cycle that is not interrupted processes exactly what the provider lists since the last sync, or since five seconds before the bootstrap was complete, or for the given number of days, and then what the provider shows of the items the window left out |
| PullWindows.InterruptedCycle | brain/application/work_management_sync.py:206-264 | an interrupted cycle has carried out the pages before the failing fetch, or the window and the questions before the failing one, and leaves the watermark |
| PullWindows.NextAsksSince | brain/application/work_management_sync.py:254-273 | after any cycles with any providers and faults, the sync time is the end of the last complete one, or what it was if there is none |
| PullWindows.NextCycleContinues | brain/application/work_management_sync.py:194-273 | the no-gap law: the cycle after a complete one that ended at f processes exactly what its provider lists since f, and then its sweep |
| PullWindows.AskedForUnlessRunning | brain/application/work_management_sync.py:254-273 | of every time that cycles one after the other have left behind: a complete cycle has asked for it if and only if no complete one was running |
| PullWindows.NothingEarlierIsAskedFor | brain/application/work_management_sync.py:266-269 | no cycle asks for a time before the sync time the first one found |
| PullWindows.UpdateIsListedIff | brain/application/work_management_sync.py:206-264 | an update of a package is in the window of some complete cycle if and only if no complete cycle was running when it was recorded |
| PullWindows.CreatedWhileRunning | brain/application/work_management_sync.py:254-264 | a concrete package that is created while a cycle runs and is missed by that cycle and the next one, sweep included |
| PullAfterBootstrap.OverlapIsNeverTaken | brain/application/openproject_bootstrap.py:326-341 | over any history of imports, finished, killed or failed, and of pull cycles: no pull starts with the five-second overlap, because a finished import records itself as a sync |
| PullAfterBootstrap.FinishedImport | brain/application/openproject_bootstrap.py:326-341 | a finished import leaves its own end as the time of the last sync |
| PullAfterBootstrap.FirstPullAfterImport | brain/application/work_management_sync.py:266-273 | the first pull after an import processes exactly what the provider lists since the end of the import, and then its sweep |
| PullAfterBootstrap.CreatedDuringImport | brain/application/openproject_bootstrap.py:326-341 | a concrete package that is created while an import runs and is brought in neither by it nor by the pull after it |
| PullCycles.ParentsKeepExisting | brain/application/openproject_ingestion.py:414-426 | every run keeps the invariant that parents name existing items |
| Bootstrap.BootstrapService.SaveState | brain/application/openproject_bootstrap.py:113-132 | one checkpoint save as an action on the database |
| Bootstrap.BootstrapService.IngestPage | brain/application/openproject_bootstrap.py:276-286 | a page is ingested package by package, in order |
| Bootstrap.BootstrapService.FetchPageOf | brain/application/openproject_bootstrap.py:266-293 | fetch, ingest, and only then save the page cursor |
| Bootstrap.BootstrapService.FetchAll | brain/application/openproject_bootstrap.py:260-294 | the paging loop under any fault: all its actions, its counters and whether it raised |
| Bootstrap.BootstrapService.Finish | brain/application/openproject_bootstrap.py:137-193 | the stages after paging and their saves, each with the cursor the run started from |
| Bootstrap.BootstrapService.ImportPackages | brain/application/openproject_bootstrap.py:125-205 | the guarded part of a run: import and closing, or the failure save |
| Bootstrap.BootstrapService.Run | brain/application/openproject_bootstrap.py:81-205 | every action of a fresh, resumed, skipped, invisible or failing run, and what the result reports |
| Bootstrap.RunStages | brain/application/openproject_bootstrap.py:81-205 | every save and step around the paging, with status, stage, page and error: a completed import is left alone unless forced, any other run starts its paging at the saved page |
| BootstrapRuns.ActionsSafe | brain/application/openproject_bootstrap.py:81-205 | every state a run passes through is good, so a kill between any two actions leaves a cursor that covers only ingested packages |
| BootstrapRuns.CursorNeverRunsAhead | brain/application/openproject_bootstrap.py:260-294 | over any history of kills, exceptions and completions, the saved cursor covers only ingested packages and READY means all of them |
| BootstrapRuns.CompletionCoversAll | brain/application/openproject_bootstrap.py:260-294 | whatever happened before, a run that completes leaves every provider package ingested |
| BootstrapRuns.PagesCompute | brain/application/openproject_bootstrap.py:260-294 | the paging loop ingests the packages from its offset on, once each, in provider order |
| BootstrapRuns.CompletedRunIsImport | brain/application/openproject_bootstrap.py:81-205 | a run that completes is the two-pass import of the packages from its offset on, and saves the cursor of its start |
| BootstrapRuns.FreshImportIsComplete | brain/application/openproject_bootstrap.py:81-205 | an uninterrupted first import reaches the order-free closed form over all packages and publishes nothing |
| BootstrapRuns.PagesFetched | brain/application/openproject_bootstrap.py:266-293 | exactly count / page_size + 1 pages are fetched, one page size apart, from the starting offset |
| BootstrapRuns.ExceptionSavesStart | brain/application/openproject_bootstrap.py:194-205 | the checkpoint an exception leaves carries the cursor its run started with, at whatever point it is raised |
| BootstrapRuns.ExceptionLosesProgress | brain/application/openproject_bootstrap.py:194-205 | the failing run's cursor just before and just after its handler: the next run starts where a kill at that moment would have let it start if and only if at most one page was saved, and otherwise (fails - 1) * page_size earlier |
| BootstrapRuns.TwoPagesLost | brain/application/openproject_bootstrap.py:194-205 | a concrete import of two pages that both are saved and then lost to a raise |
| BootstrapRuns.FailingIsRaise | brain/application/openproject_bootstrap.py:194-205 | the service's own failing run is one of the endings the histories range over |
| BootstrapLooks.StoreItem | brain/application/openproject_bootstrap.py:260-294 | after any orderly actions, every ingested package's item: its own fields, and the parent it names if that was known when the package was last looked at |
| BootstrapLooks.StoreRelation | brain/application/openproject_bootstrap.py:260-294 | after any orderly actions, a relation exists if and only if it did before or some package makes it at its last look |
| BootstrapLooks.StoreUntouched | brain/application/openproject_bootstrap.py:260-294 | only an item's own package writes it |
| BootstrapLooks.SettledIffTimely | brain/application/openproject_bootstrap.py:137-144 | once all packages are ingested, the store is the order-free form of a whole import if and only if every last look came late enough |
| BootstrapResume.RunIsOrderly | brain/application/openproject_bootstrap.py:81-205 | every run, of any start, is orderly, and what it does to the looks: packages before its cursor keep theirs, the others are looked at when all are there |
| BootstrapResume.HistoryIsOrderly | brain/application/openproject_bootstrap.py:81-205 | so is every history of kills, exceptions and completed runs, and its checkpoint claims no more than was ingested |
| BootstrapResume.HistoryIsWholeIff | brain/application/openproject_bootstrap.py:81-205 | after any such history that ends with a completed run: nothing is published, all is ingested, and the store is the whole import if and only if every last look came late enough |
| BootstrapResume.KilledThenCompletedIff | brain/application/openproject_bootstrap.py:81-205 | a first run killed after any action and then completed, forced or not, reaches the whole import if and only if the packages its cursor covers hold no forward reference |
| BootstrapResume.RaisedThenCompleted | brain/application/openproject_bootstrap.py:194-205 | a first run that ends in an exception and is then completed always reaches the whole import |
| BootstrapResume.KilledBetweenChildAndParent | brain/application/openproject_bootstrap.py:137-144 | any child and parent, one a page: a kill once both are saved, and a completion, leave the child without its parent |
| BootstrapResume.KilledImportMissesParent | brain/application/openproject_bootstrap.py:137-144 | a concrete such import |
| Workflow.WorkflowEngine.Advance | brain/application/workflow_engine.py:125-184 | one stage: the next stage, the new fields and the executor call, for every stage |
| Workflow.WorkflowEngine.DecideAfterVerify | brain/application/workflow_engine.py:170-175 | a spent budget blocks first; otherwise an error retries and no error opens a pull request |
| Workflow.WorkflowEngine.TakeTurn | brain/application/workflow_engine.py:101-116 | one turn of the loop with its one or two saves |
| Workflow.WorkflowEngine.Resume | brain/application/workflow_engine.py:93-123 | resuming a checkpoint terminates, and leaves the final state and the exact trace of saves and executor calls |
| Workflow.TurnMeasure | brain/application/workflow_engine.py:99-116 | every turn that goes on lowers the retries left or, with these equal, the stage rank |
| Workflow.GraphStages | brain/domain/workflow.py:117-145 | the successors of every stage in the declared graph |
| Workflow.RetryableIff | brain/application/workflow_engine.py:177-184 | a retry is allowed exactly when the error text contains `verification` or `tool`, anywhere |
| WorkflowRuns.MovesFollowGraph | brain/application/workflow_engine.py:125-155 | every move is an edge of the graph except retry to failed, which happens exactly when the retry is refused |
| WorkflowRuns.PullRequestEntry | brain/application/workflow_engine.py:170-175 | a pull request is entered if and only if verification finds no error and retries are left |
| WorkflowRuns.RunsStayWellFormed | brain/application/workflow_engine.py:93-123 | every saved state keeps: FAILED status with the failed stage, BLOCKED with the human stage and a spent budget, pull request stages with no error and retries left |
| WorkflowRuns.ExecutionCount | brain/application/workflow_engine.py:157-168 | the executor is called once per retry count reached, at most once more than the retries that were left |
| WorkflowRuns.Outcome | brain/application/workflow_engine.py:93-184 | which of the three ends is reached, read off the executor and the checkpoint alone |
| WorkflowRuns.StopsAtFirstSuccess | brain/application/workflow_engine.py:157-184 | a run that completes from a recorded error stops at the first successful attempt |
| WorkflowRuns.SpentAttemptIgnored | brain/application/workflow_engine.py:170-175 | executors that agree within the budget lead to the same end, and an attempt made with no retry left is asked but ignored |
| WorkflowRuns.FreshWorkflowNeverRetries | brain/application/workflow_engine.py:75-123 | a new workflow calls the executor once and never retries; it completes if and only if its budget is positive |
| WorkflowRuns.CrashOnce | brain/application/workflow_engine.py:93-123 | a crash after any effect: resuming the saved checkpoint ends in the same final state and repeats an execution exactly when the crash fell between execution and save |
| WorkflowRuns.CrashesDoNotMatter | brain/application/workflow_engine.py:93-123 | any sequence of crashes leaves the final state unchanged and costs at most one repeated execution each |
| RateLimits.RateLimiter.Check | brain/application/rate_limiter.py:42-55 | the decision and the pruned, extended bucket; a refusal and an unknown operation store nothing |
| RateLimits.RateLimiter.constructor | brain/application/rate_limiter.py:23-40 | the default limits, operation by operation, when no rules are given |
| RateLimits.SameRecent | brain/application/rate_limiter.py:42-55 | bucket and full history agree on everything inside the current window |
| RateLimits.PrunedDecidesAsHistory | brain/application/rate_limiter.py:42-55 | with a clock that does not go back, every decision on the pruned bucket is the one on the full history |
| RateLimits.AcceptedIsHistory | brain/application/rate_limiter.py:42-55 | the checks the pruned limiter accepts are the full history of accepted checks |
| RateLimits.WindowNeverOverfull | brain/application/rate_limiter.py:42-55 | with a clock that does not go back, the limiter accepts at most `limit` checks of a key in every window (a, a + length] |
| RateLimits.BackwardClockOverfills | brain/application/rate_limiter.py:48-55 | a concrete run with a clock that goes back, in which three checks pass a limit of two |
| Locks.WorkspaceLockStore.Acquire | brain/application/workspace_locks.py:44-48 | a lock is taken if and only if the repository is free |
| Locks.WorkspaceLockStore.Release | brain/application/workspace_locks.py:50-55 | a lock is dropped if and only if its owner asks |
| Locks.LookupNamesHolder | brain/application/workspace_locks.py:57-58 | at any moment of any interleaving a lock is found exactly when some handler is between acquisition and release there, and it names that one handler's execution |
| Locks.StepKeepsTable | brain/application/command_handlers.py:284-308 | each step of each handler keeps the lock table equal to the set of holders |
| Locks.FinallyReleases | brain/application/command_handlers.py:304-308 | the release in the finally block always finds the handler's own lock and drops only it |
| Locks.EveryInterleaving | brain/application/command_handlers.py:284-308 | in every interleaving of deliveries and handler steps the table is the set of holders |
| Locks.MutualExclusion | brain/application/command_handlers.py:284-308 | at most one handler is executing per repository, also when execution ids are delivered again |
| Locks.OnlyHolderReleases | brain/application/command_handlers.py:304-308 | a lock disappears only in the final step of the handler holding it, and never changes hands |
| Locks.RefusedIsInert | brain/application/command_handlers.py:294-302 | a refused handler changes nothing, ever after |
| Locks.NoLockRemains | brain/application/command_handlers.py:304-308 | when all handlers are done, by return, exception or refusal, the table is empty |
| Locks.RefusedIffHeld | brain/application/command_handlers.py:291-302 | a handler is refused if and only if another one holds its repository at that moment |
| StableSort.DescendingIsStableSort | brain/application/context_engine.py:333-344 | the ranking is a permutation in descending order that keeps ties in their first order |
| StableSort.StableSortIsUnique | brain/application/context_engine.py:333-344 | those three properties determine the ranking |
| ContextBudget.AboveIsOrder | brain/application/context_engine.py:333-344 | comparing the four sort keys in turn is a strict weak order |
| ContextBudget.AllocateBudget | brain/application/context_engine.py:363-374 | one allocation per category present, in weight order, of the truncated share |
| ContextBudget.BuildCapsule | brain/application/context_engine.py:266-324 | the packing loop computes the recursive packing |
| ContextBudget.FindAllocation | brain/application/context_engine.py:275-300 | the first allocation of a category, if any |
| ContextProperties.PackKeepsSound | brain/application/context_engine.py:275-305 | packing keeps: total equals the sum of the estimates, within budget if it was, and each category overshoots by less than its last item |
| ContextProperties.PackKeepsTotal | brain/application/context_engine.py:275-305 | the total also equals the sum of the categories' used tokens |
| ContextProperties.PackTakesSubsequence | brain/application/context_engine.py:275-305 | what is included is a subsequence of the ranked candidates |
| ContextProperties.PackIsGreedy | brain/application/context_engine.py:275-305 | what is taken, position by position: up to the first candidate that overflows the model budget, exactly those whose category is not spent when their turn comes |
| ContextProperties.LeftOutIsSpent | brain/application/context_engine.py:275-289 | a candidate left out before that point has its category spent in the end |
| ContextProperties.AllocationsWithinBudgetIff | brain/application/context_engine.py:347-374 | allocations sum to at most the preferred budget if and only if it is not negative, or truncation loses nothing |
| ContextProperties.AllocationsCover | brain/application/context_engine.py:363-374 | every category present gets an allocation |
| ContextProperties.AllocationsAreShares | brain/application/context_engine.py:347-374 | exactly the categories of the candidates have an allocation, one each and unused: 15, 15, 15, 30, 10, 5 and 10 percent of the preferred budget, with the fraction of a token dropped toward zero |
| ContextProperties.SpentIff | brain/application/context_engine.py:275-289 | a category is spent if and only if its first allocation is used up |
| ContextProperties.RankIsOrdered | brain/application/context_engine.py:333-344 | the ranking is a permutation ordered by relevance, then trust, then freshness, then the smaller estimate, and candidates equal in all four keep their gathered order |
| ContextProperties.CapsuleOrder | brain/application/context_engine.py:266-344 | a capsule's candidates are a subsequence of the ranking: relevance not smaller earlier on, at equal relevance trust, then freshness, then the estimate not larger, and equal ones as gathered |
| ContextProperties.CapsuleTotals | brain/domain/context.py:93-126 | total tokens equal both sums, each category overshoots by less than its last item, and the capsule is within its budget if and only if that is not negative |
| Retrieval.MergeList | brain/application/hybrid_retrieval.py:66-88 | merging a ranked list into the scored dictionary |
| Retrieval.Boost | brain/application/hybrid_retrieval.py:91-96 | the graph boost, once for each entry in the graph |
| Retrieval.Retrieve | brain/application/hybrid_retrieval.py:45-99 | the whole fusion |
| Retrieval.FusedIsSimple | brain/application/hybrid_retrieval.py:66-113 | each entity appears once, scored by the best rank over both lists plus the boost once |
| Retrieval.RetrievalIsTopScores | brain/application/hybrid_retrieval.py:98-99 | sorted, at most `limit`, one per entity, and no dropped entity outscores a returned one |
| Retrieval.NormalizedIsAntitone | brain/application/hybrid_retrieval.py:131-133 | the rank score, rounded to three decimals with ties to even, satisfies the one demand made of it: a later rank never scores more |
| Retrieval.NormalizedIsNear | brain/application/hybrid_retrieval.py:131-133 | the rank score is one over the rank counted from one, to within half a thousandth |
| Imports.ResolveModule | brain/application/code_intelligence.py:176-193 | the resolver's walk up the container computes `Resolved`, and only indexed names are given |
| Imports.PackagePathIff | brain/application/code_intelligence.py:181-183 | a file is a package if and only if it is called `__init__.py`, alone or after a slash |
| Imports.AgreesWithinDepth | brain/application/code_intelligence.py:176-193 | within the package depth the candidate is the name of section 5.7 of the Python Language Reference |
| Imports.BeyondDepthIsAbsolute | brain/application/code_intelligence.py:182-189 | beyond the depth, where the reference reports an error, the bare name is tried as an absolute one |
| Imports.RelativeImportAgreesIff | brain/application/code_intelligence.py:176-193 | code and reference agree if and only if the level is within the depth or the bare name is not indexed |
| Imports.RelativeSpellingResolves | brain/application/code_intelligence.py:176-193 | round trip: the relative spelling of an indexed module from another, at any level within the depth, resolves to exactly that module if and only if its remainder is not one empty component |
| Imports.SiblingResolves | brain/application/code_intelligence.py:176-193 | `from .b import x` reaches the sibling b, from a plain module and from its package |
| Imports.DotImportFindsPackage | brain/application/code_intelligence.py:176-193 | `from . import b` resolves to the package, when that is indexed, and never to its module b |
| GraphResolver.Resolver.AddRelation | brain/application/code_intelligence.py:388-415 | an edge is appended to the file unless it would be a loop, at the resolver's repository and revision |
| GraphResolver.Resolver.ResolveFileImports | brain/application/code_intelligence.py:153-174 | the import edges of a file and the local names it binds, later bindings winning |
| GraphResolver.Resolver.ResolveCallSites | brain/application/code_intelligence.py:195-231 | the call edges of one symbol |
| GraphResolver.Resolver.ResolveCalls | brain/application/code_intelligence.py:195-268 | the call edges of a file |
| GraphResolver.Resolver.ResolveTests | brain/application/code_intelligence.py:352-376 | the test edges of a file |
| GraphResolver.Resolver.Resolve | brain/application/code_intelligence.py:146-151 | every file gets exactly the edges specified for it and keeps those it had |
| GraphProperties.ResolvedIsIndexed | brain/application/code_intelligence.py:176-193 | every resolved name is the module of a parsed file |
| GraphProperties.AppendedIsClosed | brain/application/code_intelligence.py:153-415 | every appended relation joins two distinct symbols of the parsed files at the resolver's repository and revision |
| GraphCalls.TestEdgesAreExact | brain/application/code_intelligence.py:352-376 | a test file has an edge exactly for the bound modules with another module symbol, at most one for each |
| GraphCalls.IndexIsLastFile | brain/application/code_intelligence.py:140-144 | the index holds exactly the modules of the files, each marked as a package by its last file |
| GraphCalls.BindingsAreBound | brain/application/code_intelligence.py:153-174 | a local name is bound to the module and name of the last import statement that introduces it, and to nothing else |
| GraphCalls.ImportedNameStandsFor | brain/application/code_intelligence.py:270-282 | a name stands for the first class or function it was imported as, in the last file of its module, and for that module's symbol if and only if there is none |
| GraphCalls.CallTargetIsCalled | brain/application/code_intelligence.py:233-317 | whom a call site calls, in both directions, for all four kinds of sites: the named symbol, a method of the named class, or a method of the class recorded for an attribute of `self` |
| GraphCalls.CallEdgesAreExact | brain/application/code_intelligence.py:195-231 | a file's call edges: from each function or method to whatever one of its sites calls, an instantiation exactly for the name of a class, and no other edge |
| GraphCalls.ImportEdgesAreExact | brain/application/code_intelligence.py:153-174 | a file's import edges: from its module symbol to the module symbol of every module an import finds, and no other edge |
| GraphCalls.TestEdgesAreThese | brain/application/code_intelligence.py:352-376 | a test file's test edges: from its module symbol to those of the modules its local names are bound to, and no other edge |
| GraphCalls.AppendedIsExact | brain/application/code_intelligence.py:146-151 | a relation is appended to a file if and only if it is one of those import, call or test edges |
| Documents.DocumentService.Ingest | brain/application/document_ingestion.py:80-171 | the new library and the outcome for every artifact: unchanged, new version, or no parser |
| Documents.IngestedKeepsCurrent | brain/application/document_ingestion.py:106-161 | every ingestion keeps each document's current version its last one |
| Documents.VersionsCountContentChanges | brain/application/document_ingestion.py:106-161 | over any run, a source's versions and change events are its maximal runs of equal hashes, and the current one has the last hash |
| Documents.RunsAreMaximal | brain/application/document_ingestion.py:124-124 | the run values are counted by the changes, never repeat in a row, and lose no value |
| Documents.SameSource | brain/application/document_ingestion.py:124-161 | versions are only appended, and one ingestion adds a version exactly when the hash differs |
| Documents.OtherSource | brain/application/document_ingestion.py:106-161 | ingesting one source leaves every other source's versions, events and current version alone |
| Documents.MakeChunks | brain/application/document_ingestion.py:263-284 | the chunk loop computes `Chunks` |
| Documents.ChunksAreNonEmptyNodes | brain/application/document_ingestion.py:263-284 | chunks are exactly the non-empty nodes, with their positions, in order |
| Topology.Merge | brain/domain/topology.py:102-145 | the loop shared by the four merges computes `Merged` |
| Topology.DiscoveredTopology.MergeWith | brain/domain/topology.py:94-99 | each of the four lists is merged by its own key |
| Topology.TopologiesMergeByIdentity | brain/domain/topology.py:94-145 | what is merged away: components and resources of the same name, interfaces of the same component and name, dependencies with the same ends and relation, and nothing else |
| Topology.MergeKeepsKeysUnique | brain/domain/topology.py:102-145 | merging keeps what was there as a prefix, covers both passes and keeps keys unique |
| Topology.MergeKeepsFirsts | brain/domain/topology.py:102-145 | for every key the first item of both passes is kept |
| Topology.MergeIsAssociative | brain/domain/topology.py:94-99 | merging passes is associative |
| Topology.MergeIsIdempotent | brain/domain/topology.py:94-95 | merging a pass with itself, or a second time, changes nothing |
| Topology.CollectClaims | brain/domain/topology.py:198-242 | the claims of a topology: components, interfaces, resources; dependencies make none |
| Topology.ClaimsAreMade | brain/domain/topology.py:198-242 | every component, interface and resource makes one claim, with its own type, origin and confidence |
| Topology.Reconcile | brain/domain/topology.py:244-253 | the online winners cover exactly the claimed entities, each with its winning value |
| Topology.WinnerIsLeftmostUnbeaten | brain/domain/topology.py:244-259 | the winner is the leftmost of an entity's claims that no other one beats |
| Topology.WinnerByOrigin | brain/domain/topology.py:171-174 | the claim whose value is taken for an entity: declared beats observed beats discovered beats inferred beats any other origin, then the higher confidence, then the earlier claim |
| Topology.ClaimOrderKeepsStandings | brain/domain/topology.py:244-259 | the rank and confidence of every winner are the same for any order of the claims |
| Topology.ComponentsKeepTheirType | brain/domain/topology.py:198-253 | after merging, every component keeps its own type through reconciliation |
| Topology.InterfacesCollideIff | brain/domain/topology.py:214-218 | two interfaces that merging keeps apart become one entity if and only if one's component is the other's up to a colon and their names make up the difference |
| Topology.InterfacesKeepTheirType | brain/domain/topology.py:198-253 | after merging, an interface that collides with no other keeps its own type through reconciliation |
| Topology.InterfaceNamesCanCollide | brain/domain/topology.py:214-218 | two interfaces that merging keeps apart can become one entity, because their key is joined with a colon |
| Claims.StrongestIsLeftmostUnbeaten | brain/domain/topology.py:256-259 | the running best is at the one leftmost unbeaten position |
| Claims.OrderChoosesAmongTied | brain/domain/topology.py:256-259 | a claim wins in some order if and only if it is tied with the winner |
| Claims.RanksAndScores | brain/domain/knowledge.py:45-52 | ranks and scores order the four origins and the five confidences as they are named |
| Claims.GroupBy | brain/domain/graph_reconciliation.py:62-65 | the dictionary holds each key's items in order, and its keys as first seen |
| GraphReconciliation.Judge | brain/domain/graph_reconciliation.py:30-43 | confidence and rank of a claim, by one look at its evidence |
| GraphReconciliation.StandingIsBestEvidence | brain/domain/graph_reconciliation.py:30-43 | confidence is the largest score and rank the smallest; without evidence zero and below every other |
| GraphReconciliation.ConfidenceShown | brain/domain/knowledge.py:45-52 | the confidence of a claim in percent: 95, 80, 50, 30 or 10 by its surest evidence, zero without any |
| GraphReconciliation.BetterIsWins | brain/domain/graph_reconciliation.py:30-43 | a claim beats another by an origin above all of the other's, or, when neither has one, by a confidence above all of the other's |
| GraphReconciliation.PickStrongest | brain/domain/graph_reconciliation.py:69-69 | the first minimum of rank and negated confidence |
| GraphReconciliation.Reconcile | brain/domain/graph_reconciliation.py:61-82 | one view per relation, in first-seen order, with the winner's value and confidence and all its claims |
| GraphReconciliation.ViewsPartitionClaims | brain/domain/graph_reconciliation.py:61-82 | the views partition the claims: none lost, none doubled, each under its own relation |
| GraphReconciliation.ViewShowsStrongest | brain/domain/graph_reconciliation.py:67-82 | a view shows a leftmost unbeaten claim, and its confidence and claims are independent of claim order |
| GraphReconciliation.ViewByEvidence | brain/domain/graph_reconciliation.py:67-82 | the claim a view shows: none about the relation beats it by its evidence, and each earlier one is beaten; so declared evidence is never lost to an inferred claim |
| Verification.VerificationEngine.RunCommandSteps | brain/application/verification_engine.py:118-129 | one step per configured command, in order, appended to the run |
| Verification.VerificationEngine.CheckArchitecture | brain/application/verification_engine.py:148-162 | the nested loops list the violations rule by rule |
| Verification.VerificationEngine.AggregateVerdict | brain/application/verification_engine.py:185-214 | verdict, issues and feedback of a run |
| Verification.VerificationEngine.PrReadiness | brain/application/verification_engine.py:216-230 | a pull request is allowed if and only if the verdict is PASS, and with which reasons |
| Verification.VerificationEngine.Verify | brain/application/verification_engine.py:58-99 | the gate end to end: allowed if and only if every command reports zero or nothing, no rule matches a changed path, and changed files and criteria are not empty; a refusal gives every issue as a reason, in order, and there is one |
| Verification.VerdictIsExact | brain/application/verification_engine.py:185-211 | for every expected set: the exact condition of PASS, BLOCKED and FAIL, and PARTIAL never |
| Verification.PartialTestsMeanMissingFiles | brain/application/verification_engine.py:164-183 | both steps against the expected files, their status and what they show; a partial relevance step forces a failed structural step, and its missing tests are the missing files that are tests |
| Verification.ViolationListedIff | brain/application/verification_engine.py:148-153 | a violation is listed if and only if its rule's pattern matches the changed path |
| Verification.CommandsFailIff | brain/application/verification_engine.py:118-129 | one step per command that shows the reported number, zero for none and one for an unreadable report; it fails if and only if the report is unreadable or not zero |
| Verification.IssuesExplainVerdict | brain/application/verification_engine.py:191-214 | no issues if and only if PASS, and the feedback is every step that did not pass |
| Verification.NoTargetsNoFiles | brain/application/impact_analysis.py:51-77 | asked about no symbol, as the gate asks, impact analysis names no file |
| Verification.FoundIff | brain/application/impact_analysis.py:117-127 | a target finds the symbols of exactly that qualified name, and those of that last segment only when there is none |
| Events.IncomingEventProcessor.Process | brain/application/events.py:45-59 | the new state and outcome of one event under every fault |
| Events.FaultFreeRunDeduplicates | brain/application/events.py:45-59 | without faults, published and logged events are both the input with repeated keys removed |
| Events.DeduplicationKeepsFirsts | brain/application/events.py:51-53 | of each key the first event is kept, of the keyless ones all |
| Events.MarkedMeansDelivered | brain/application/events.py:55-58 | whatever fails, a marked key has been published and logged |
| Events.MarkedIsNeverDispatchedAgain | brain/application/events.py:51-53 | once marked, a key is never published or logged again |
| Events.DeliveriesAreAttempts | brain/application/events.py:45-59 | how often a key is delivered and how often logged under faults, exactly: once per attempt that got there, up to the first that completes |

## Left out

Names and values:

- Name tables (work item type, status, priority, relation type, assignee identity) are function parameters: every
  result holds for all of them.
- Work items are keyed by their provider id, so internal UUIDs, external references and integration mappings do not
  appear; display names of actors neither.
- Hashes, token estimates, pattern matching, test-path recognition and parsers are function parameters.
- Numbers are exact: weights are percents, and times and boosted scores are rationals. The rank score is rounded to
  three decimals as in the code; no other floating-point rounding is modelled.
- `Documents` names a source URI by any text and takes the bytes behind a hash as one text.

Scope of the state machines:

- Ingestion.IngestionService.IngestSnapshot: a fault in the middle of one ingestion is not modelled; the step is atomic.
- Ingestion: attachments, comments, audit, logging and the projection into the code graph, which are best effort.
- PullSync.PullSyncService.SyncProject: the provider is a fixed sequence within a cycle, with 1-based item offsets as
  the loops compute them; a provider whose offset counts pages is not modelled. Changes recorded during a cycle show
  only in what the next cycle's provider lists (`UpdateIsListedIff`).
- PullSync.PullSyncService.SweepMissing: items are listed in creation order, as the in-memory repository lists them.
- PullCycles.AbortedCyclesThenPull: assumes a provider that answers for the item asked about, and a store that lists
  each item once, which `RunListsItemsOnce` keeps.
- PullReplay.EventsExactlyOnce: the window is required to name each package once, as a provider's listing does.
- Bootstrap.BootstrapService.ImportPackages: in the service only a page fetch raises; exceptions of every other stage
  are the `Raises` endings that the histories of `BootstrapRuns` range over.
- Bootstrap.BootstrapService.Run: the same.
- BootstrapRuns.CursorNeverRunsAhead: projects other than the one imported are assumed registered; the upsert of
  project rows is not modelled beyond that.
- Workflow.WorkflowEngine.Resume: executor outcomes are a function of the retry count; execution ids, timestamps,
  routing and the pull request service are not modelled.
- Locks.MutualExclusion: one process with an in-memory table; a process that dies keeps no lock, and persistence of a
  lock beyond its process is not modelled.
- PullWindows.UpdateIsListedIff: a provider is read once, at the start of its cycle, and cycles do not overlap in time.
- RateLimits.WindowNeverOverfull: requires a clock that does not go back, as a monotonic one does not; without it the
  bound fails (`BackwardClockOverfills`).
- Retrieval.Retrieve: the two ranked lists and the graph's entities are inputs; `limit` is not negative.
- GraphResolver.Resolver.Resolve: inheritance resolution is not modelled; brain/application/code_intelligence.py:341
  passes a module name where a parsed file is expected, so the code defines no result there.
- GraphProperties.AppendedIsClosed: covers import, call and test edges, not those of inheritance resolution.
- Documents.DocumentService.Ingest: nodes, references and decisions of a version, and the document's title and type.
- Topology.DiscoveredTopology.MergeWith: lists are values, so sharing of one list object by two passes is not modelled.
- GraphReconciliation.Reconcile: the view's origin, which is read from the winner's first evidence rather than the
  evidence that ranked it, is not modelled.
- Verification.FoundIff: covers the symbols found for targets, not the risk score or the other answers of impact
  analysis.
- Verification.VerificationEngine.Verify: step outputs and texts are not modelled, only which step they come from.
- Events.IncomingEventProcessor.Process: one caller at a time; two processes racing on one key are not modelled.

Not modelled at all: HTTP, the command line, database and message adapters, migrations, container wiring, the
LangGraph workflows, authorization and observation tables.
