# Fleuve: verification model

Fleuve runs workflows as event-sourced aggregates on PostgreSQL.  Each workflow is an append-only log;
its state is the fold of the log.  Repositories in many processes write the logs, readers and a runner
consume the global stream, a publisher forwards it to NATS, and background services schedule, truncate
and repartition.  This project models those protocols in Dafny and proves what they promise.

    dafny verify dfyconfig.toml

## How it is organised

| module | subject |
|---|---|
| WorkflowModel, StateBaseObject | states, events, evolving; the in-place helpers of StateBase |
| EventStore, SerialHistory | the tables, one transaction, whole calls run one at a time |
| Interleaving | any number of processes, caches, in-flight transactions and the delay scheduler; serializability and what follows from it |
| Reachability | the converse: every serial history is a run of the interleaved system |
| Repository, DelayScheduler, EphemeralStorage | the repository, scheduler and cache objects, statement by statement |
| CallsAreOps, RepositoryRuns | the repository's calls, statement by statement, do what the serial calls of SerialHistory do, and are runs of Interleaving with their cache |
| Ledger | what the calls return and cache; a repository alone against a ledger of accounts |
| DelayProjection, SubscriptionProjection | the delay and subscription tables as projections of state |
| GlobalOrder | global ids and subscription stamps |
| Harness | the in-memory test harness and the proof that the repository refines it |
| Truncation | the deletions, and what loads and commits do on a database that has lost rows |
| TruncationRun | truncation beside the whole interleaved system, readers and the publisher |
| Inflight, StreamReader | the in-flight window; a reader over crashes and restarts |
| Horizon | horizon subscriptions: what backfill and live delivery hand over |
| HorizonRun | the same on the running system: the log and the table are those of Interleaving |
| Outbox | the publisher with failures, restarts and reconciler resets |
| Scaling, OffsetsTable | repartitioning |
| ActionExecutor | attempts, retries, checkpoints, concurrency of actions |
| Padding | PKCS#7 |
| ContinueAsNewCall | why ContinueAsNew is not a step of the other modules |
| Scripted, Witnesses, TruncationWitness, HorizonWitness | runs from the empty database that end in the exceptions the theorems name |
| Decimals, Wrappers | numerals in ids and names; an option type |

A protocol is a machine: a `World`, a `Step` datatype and a function `Take` that is `None` where a step is
not enabled; theorems are about every list of steps.  A loop or an object of the source is a method or a
class, proved against a function of the state it found; the theorems are about those functions.

## Assumptions

- Global ids become visible in increasing order.  BIGSERIAL alone does not give this; GlobalOrder, Horizon,
  StreamReader and Outbox assume it.
- Decide, Evolve and IsFinalEvent are pure functions.  Where a theorem needs more it says so:
  `FrameworkNotFinal` (framework events other than a cancellation are not final), `KeepsBase` (Evolve leaves the StateBase alone), `BornByUser`.
- States survive a JSON round trip.  The time window of the broker's de-duplication is unbounded.
- HorizonRun: the watched subscription is added once and not removed, the subscriber adds no other subscription
  that covers the emitter, and the emitter's events do not address the subscriber directly (`Sole`, a condition on
  events alone; that the row is in the table with its stamp is proved).  The runner has no partition filter, adapter
  or namespace and does not crash.
- StreamReader: no offset is captured from the read position while an event in flight is undone (`Careful`), which
  is the exact condition (EarlyHorizonIff); OffsetNeverDecreases needs that nothing is in flight (`Patient`).
- SubscriptionProjection: no event adds a second subscription under one (emitter, event type) or removes a
  different one (`KeepsOneRow`); the condition is exact for an event and for a batch.
- DelayProjection: a fire's row is, as a cron row, the one in the table when it commits (`FreshOp`); exact for a fire.
- TruncationRun: a fixed set of readers, snapshots enabled, and no transaction commits where a row was deleted
  (`Careful`); the condition is exact for every step (StepKeepsInvIff), and AfterOvertakenCommit says what is lost
  when it fails.
- Harness: no batch ends the workflow or drops a horizon it adds, and no first create is empty (`Clean`).
- Scaling: one complete generation of readers at the start and new names that are not in the table yet.

## Where code and comments disagree

The model follows the code.

- Snapshot loads test the last event only when events follow the snapshot, so a final event on the snapshot
  version loads as a live workflow (`EventStore.LoadIsFullReplay`, `Witnesses.CompletedLoadsAsLive`).
- The harness says it mirrors the repository, but a batch that adds and drops a horizon subscription is
  accepted there and refused by the repository, and an empty create is accepted there only (`Harness`).
- IterEvents says that a reader whose offset cannot be read starts from 0; it then also stores smaller
  offsets (`StreamReader.StoredOffsetFallsBack`).
- ScaleUpPartitions says that it passes the number of existing readers so that names match; with leftover
  readers of an older generation they do not (`Scaling.LeftoversAreNotAwaited`).
- The partition index is described as a consistent hash; the digest overflows ParseUint, whose saturated
  result sends nearly all workflows to one partition (`Scaling.LargeDigestsShareAPartition`).
- A subscription is removed from the state by comparing all fields and from the table by its key, so the two
  part when a key is used twice (`SubscriptionProjection.EventProjectsIff`, `Witnesses.TwoUnderOneKey`).
- The truncation service promises that only rows nobody needs go.  Lifecycle calls take no lock and load in two
  statements, so a cancel that is overtaken between them can be accepted in the gap and lost
  (`TruncationWitness.CancelIsLost`).
- A live event that a subscription asks for is not handed over when it is an action_cancel, though backfill replays
  such events (`HorizonWitness.ActionCancelIsNotHandedOver`).
- `stringSlicesEqual` says nil and empty slices are equal and treats them as different; tags are plain
  sequences here.
- The DELETE of the truncation service has a LIMIT, which PostgreSQL's grammar does not accept; the model
  takes it as "any subset of at most that many rows".

## Model

| member | source | states |
|---|---|---|
| WorkflowModel.EvolveAllConcat | pkg/model/workflow.go:338-353 | folding a log can be cut at any point, which is what makes a snapshot a starting point |
| WorkflowModel.EvolveBase | pkg/model/workflow.go:185-226 | on a SystemEvolver state an event changes the embedded base as the system says, whatever the user's Evolve does |
| WorkflowModel.BornBare | pkg/model/workflow.go:228-290 | a workflow whose first event is a system event starts as a bare StateBase that no later system event reaches |
| WorkflowModel.EvolveAllLoop | pkg/model/workflow.go:338-345 | the loop computes the fold |
| StateBaseObject.MutableBase.Apply | pkg/model/state.go:410-466 | mutating a copy in place gives the base that EvolveSystem promises, and events it does not handle leave it alone |
| StateBaseObject.MutableBase.RemoveSubscription | pkg/model/state.go:426-433 | removes the first equal subscription and keeps the order of the rest |
| StateBaseObject.MutableBase.FindScheduleIndex | pkg/model/state.go:357-364 | the first index with the id, or -1 when there is none |
| EventStore.LoadFromIsFold | pkg/repo/repo.go:753-815 | a load that starts from any snapshot that is the fold of its prefix returns the fold of the first min(at, head) events |
| EventStore.LoadIsFullReplay | pkg/repo/repo.go:753-815 | snapshot plus suffix equals the full replay at every version if and only if no final event sits on the snapshot the load starts from |
| EventStore.NoConflictAtHead | migrations/001_initial_schema.up.sql:20 | on a gap-free log an insert meets the unique key exactly when its base version is stale |
| EventStore.CommitAtHead | pkg/repo/repo.go:237-293 | appending at the head extends one log by the batch, keeps every log 1..n and every snapshot a fold, and touches no other workflow |
| EventStore.FireAtHead | pkg/delay/scheduler.go:236-345 | the same for a scheduler insert of one delay_complete event |
| EventStore.SnapshotAtHead | pkg/repo/repo.go:1097-1119 | after a commit the snapshot, new or old, is the fold of the prefix it is labelled with |
| SerialHistory.ApplyOpKeeps | pkg/repo/repo.go:163-533 | any call appends its own batch to its own log and changes nothing else |
| SerialHistory.SerialDecisions | pkg/repo/repo.go:179-307 | in a serial run the batch of every call stands right behind the log that the call found and is what it decides on the fold of exactly that log |
| SerialHistory.LogIsBatches | pkg/repo/repo.go:875-895 | every log is the concatenation of the batches of its calls, in order |
| SerialHistory.HeldStep | pkg/repo/repo.go:208-215 | on a cancelled workflow, or a paused one that is not being lifted, no call but a delay fire or registration succeeds, and the lifecycle stays |
| SerialHistory.HeldThroughout | pkg/model/workflow.go:185-226 | the same over any continuation; only delay_complete events follow |
| SerialHistory.ResumeUndoesPause | pkg/repo/repo.go:397-481 | pausing holds the workflow and resuming gives back the very state it had before the pause |
| SerialHistory.SerialConcrete | pkg/model/workflow.go:185-226 | a workflow born from a user event always has a SystemEvolver state |
| Interleaving.SplitLoadOk | pkg/repo/repo.go:753-815 | the two statements of a load capture the fold of some prefix whatever commits between them |
| Interleaving.CommitIsSerial | pkg/repo/repo.go:237-293 | a transaction that passes the unique key does exactly what its call does when run alone at that moment |
| Interleaving.Serializable | pkg/repo/repo.go:163-533 | in every reachable state of any number of processes the database is the one that the committed calls build one after the other |
| Interleaving.OptimisticConcurrency | pkg/repo/repo.go:163-307 | every log is exactly 1..n and is tiled by its calls' batches, each right behind the log that its call found at its place in commit order and decided on the fold of that log, trusted stale caches included |
| Interleaving.CheckedCacheIsColdLoad | pkg/repo/repo.go:730-749 | in every reachable state a version-checked cache read returns what a cold load would, and a cached entry is the fold of a prefix that does not end in a final event |
| Interleaving.LoadIsReplayEverywhere | pkg/repo/repo.go:753-815 | in every reachable state snapshot plus suffix is the full replay, with the exact exception |
| Interleaving.LaterIsReplay | pkg/repo/repo.go:163-533 | a later database is the earlier one plus the calls committed in between |
| Interleaving.CancellationIsAbsorbing | pkg/repo/repo.go:412-418 | once cancelled, no in-flight or later transaction of any process commits a command or lifecycle call, and the lifecycle stays cancelled |
| Interleaving.PausedUntilLifted | pkg/repo/repo.go:208-215 | a paused workflow takes no command from any process, stale caches included, until a resume or a cancel of it is committed |
| Interleaving.CancelCommitCancels | pkg/repo/repo.go:484-533 | the commit of a CancelWorkflow transaction leaves the workflow cancelled |
| Reachability.SerialIsReachable | pkg/repo/repo.go:163-533 | every serial history is a run of the interleaved system, so with Serializable the reachable databases are exactly the serial ones |
| Witnesses.CompletedLoadsAsLive | pkg/repo/repo.go:797-815 | a reachable state in which a completed workflow loads as a live one, because its final event sits on its snapshot |
| DelayProjection.BatchProjects | pkg/repo/repo.go:898-963 | syncing a batch into the table keeps the cron rows equal to the schedules of the evolved state |
| DelayProjection.DelayTableIsProjection | pkg/repo/repo.go:1048-1094 | over every interleaving whose fires used the cron row of the table, the cron rows of a workflow are the Schedules of its folded state as a map, and schedule ids are unique |
| DelayProjection.FireKeepsProjectionIff | pkg/delay/scheduler.go:301-346 | a fire keeps the projection if and only if the row it read is, as a cron row, still the one in the table |
| Witnesses.RemovedScheduleComesBack | pkg/delay/scheduler.go:301-346 | a run in which a fire with a row that was read before its schedule was removed brings the schedule back |
| DelayProjection.LastNoteDecides | pkg/repo/repo.go:1048-1094 | over every interleaving the row of a delay, one-shot or cron, is what the last event, fire or registration concerning it left |
| SubscriptionProjection.EventProjectsIff | pkg/repo/repo.go:966-1024 | an event keeps table and state equal if and only if it adds under a free key or removes the subscription that is there |
| SubscriptionProjection.BatchProjectsIff | pkg/repo/repo.go:898-963 | table and state are equal after each event of a batch if and only if each keeps one row a key |
| Witnesses.TwoUnderOneKey | pkg/repo/repo.go:966-984 | a reachable state in which the state lists two subscriptions for which the table has one row |
| SubscriptionProjection.SubscriptionTableIsProjection | pkg/repo/repo.go:898-963 | over every interleaving of such batches the rows of a workflow are the subscriptions of its folded state, stamps aside |
| SubscriptionProjection.ExternalsAreLogged | pkg/model/workflow.go:185-226 | over every interleaving the folded state holds an external topic as often as its log adds it and does not remove it again |
| DelayScheduler.Scheduler.ResumeWorkflow | pkg/delay/scheduler.go:229-346 | the statements amount to the Fire call, or drop the row of a workflow without events |
| DelayScheduler.Scheduler.RegisterDelay | pkg/delay/scheduler.go:100-133 | the statements amount to the Register call |
| GlobalOrder.IdsAndStamps | pkg/repo/repo.go:986-1012 | over every interleaving global ids are unique and ascend with versions, and each horizon subscription row carries the id of the event that added it |
| GlobalOrder.BatchRow | pkg/repo/repo.go:966-1012 | the subscription row of a key after a batch: who decides its presence and its fields, and which event stamped it, overwritten rows and rows dropped and added again included |
| EphemeralStorage.LruIsFaithful | pkg/repo/storage.go:62-125 | after any calls the cache holds at most maxSize keys, each with its last put value, in order of last touch |
| EphemeralStorage.EvictsLeastRecent | pkg/repo/storage.go:115-125 | a put into a full cache drops exactly the key touched longest ago |
| EphemeralStorage.TieredNeverStale | pkg/repo/storage.go:172-220 | a tiered cache over LRUs of any sizes answers nothing or the value last put since the last remove |
| EphemeralStorage.TieredAnswers | pkg/repo/storage.go:185-208 | a tiered get answers whenever a tier holds the key, L1 first, promotes what L2 answered, and drops nothing from L2 |
| EphemeralStorage.PutDropsNothing | pkg/repo/storage.go:62-84 | a put stores its value, and one that overwrites or finds room drops no other key |
| EphemeralStorage.GetAndRemoveKeep | pkg/repo/storage.go:87-112 | a get changes no value and a remove drops its key alone |
| EphemeralStorage.LruCache.PutState | pkg/repo/storage.go:62-84 | map and recency list keep describing the same elements, and the new contents are those of the value-level put |
| EphemeralStorage.LruCache.GetState | pkg/repo/storage.go:87-99 | answers and reorders as the value-level get, and counts hits and misses |
| EphemeralStorage.LruCache.RemoveState | pkg/repo/storage.go:102-112 | removes the key from map and list together |
| EphemeralStorage.LruCache.EvictLru | pkg/repo/storage.go:115-125 | drops the last list element and its map entry |
| EphemeralStorage.TieredCache.GetState | pkg/repo/storage.go:185-208 | L1, then L2 with promotion to L1 |
| EphemeralStorage.TieredCache.PutState | pkg/repo/storage.go:172-182 | both tiers get the value |
| Repository.Database.MaxWorkflowVersion | pkg/repo/repo.go:710-720 | the largest version, 0 when there is none |
| Repository.Database.LoadEvents | pkg/repo/repo.go:818-872 | exactly the rows above `after` and up to `at`, in version order |
| Repository.Repo.LoadState | pkg/repo/repo.go:753-815 | loads what the snapshot and the suffix determine |
| Repository.Repo.GetCurrentState | pkg/repo/repo.go:730-749 | the cached state when trusted or still current, else a cold load |
| Repository.Repo.WriteTx | pkg/repo/repo.go:237-293 | all tables of a batch change together, or none does |
| Repository.Repo.InsertRows | pkg/repo/repo.go:875-895 | all rows above the base version, or nothing when one of them exists |
| Repository.Repo.StampLoop | pkg/repo/repo.go:986-1012 | every horizon row gets the id of its event, or the batch is refused |
| Repository.Repo.HandleSyncEvents | pkg/repo/repo.go:898-963 | schedule and subscription rows follow the events of the batch in order |
| Repository.Repo.ProcessCommandAttempt | pkg/repo/repo.go:179-307 | one attempt, with the database and cache it leaves |
| Repository.Repo.ProcessCommand | pkg/repo/repo.go:163-176 | at most 100 attempts, each from what the last one left |
| Repository.Repo.CreateNew | pkg/repo/repo.go:312-394 | creates, or refuses and leaves everything alone |
| Repository.Repo.ChangeLifecycle | pkg/repo/repo.go:397-533 | pause, resume and cancel with their refusals |
| CallsAreOps.AttemptIsOp | pkg/repo/repo.go:179-307 | from any cached state, trusted or not: an attempt that writes does what the serial command does, and one that does not write is one the serial command refuses, unless a trusted cache has fallen behind |
| CallsAreOps.CreateIsOp | pkg/repo/repo.go:312-394 | the same for creates, in both directions |
| CallsAreOps.LifecycleIsOp | pkg/repo/repo.go:397-533 | the same for pause, resume and cancel |
| CallsAreOps.StaleTrustedCacheGivesUp | pkg/repo/repo.go:163-176 | a trusted cache that has fallen behind makes every retry conflict, so the command is refused and nothing is written |
| Ledger.LifecycleAnswers | pkg/repo/repo.go:397-533 | on any database that other processes write too, an accepted pause, resume or cancel appends its one event and returns the fold of the log this gives; a pause or resume caches that fold, a cancel removes the entry, and every other entry stays the fold of a prefix |
| Ledger.CommandAnswers | pkg/repo/repo.go:179-307 | the same for a command: its result is the fold of the new log and is cached unless the batch ends the workflow; a command with nothing to write returns the state it loaded |
| Ledger.CreateAnswers | pkg/repo/repo.go:312-394 | the same for a create |
| Ledger.RepositoryKeepsLedger | pkg/repo/repo.go:163-533 | to every sequence of creates, commands, pauses, resumes and cancels, with final events, empty batches and dropped horizons, any interval, cache size and trust mode, one repository answers what a ledger of versions and states answers, and cold loads return what the ledger holds |
| Ledger.LedgerLifecycle | pkg/model/workflow.go:185-226 | an accepted lifecycle call changes an account's lifecycle and version by one and keeps the user's state and the subscriptions |
| Ledger.NextCommandKnows | pkg/repo/repo.go:208-215 | after any such calls, the command that follows an accepted pause answers paused, after an accepted cancel cancelled, and after an accepted resume is decided |
| Witnesses.PauseWithoutEffect | pkg/model/workflow.go:228-290 | a repository run in which a workflow born from a system event is paused, and the next command is accepted |
| RepositoryRuns.AttemptRuns | pkg/repo/repo.go:179-307 | one attempt of a command with its LRU cache is a run of the interleaved machine, from the cache or by a split load, with the cache write and the eviction it causes |
| RepositoryRuns.CreateRuns | pkg/repo/repo.go:312-394 | the same for a create |
| RepositoryRuns.LifecycleRuns | pkg/repo/repo.go:397-533 | the same for pause, resume and cancel |
| Harness.WorkflowTestHarness.CreateNew | pkg/testing/testing.go:45-76 | the harness's create on its maps |
| Harness.WorkflowTestHarness.SendCommand | pkg/testing/testing.go:81-115 | the harness's command on its maps |
| Harness.StampFailsIff | pkg/repo/repo.go:986-1012 | the repository refuses a batch at the horizon step if and only if the batch drops a horizon subscription it adds |
| Harness.RepositoryRefinesHarness | pkg/testing/testing.go:45-115 | for every call sequence whose batches neither end the workflow nor drop a horizon, every interval, cache size and trust mode, repository and harness accept the same calls with the same events, state and version |
| Harness.FirstCreateAgreesIff | pkg/testing/testing.go:45-76 | a first create agrees exactly when the batch is not empty and keeps the horizons it adds |
| Witnesses.HarnessAcceptsMore | pkg/testing/testing.go:45-76 | an empty create and a create that drops its horizon are accepted by the harness only |
| Witnesses.OnlyHarnessGoesOn | pkg/testing/testing.go:81-115 | after a final event the repository does not find the workflow and the harness goes on |
| TruncationRun.OnlyUnneededRowsGo | pkg/truncation/truncation.go:249-273 | over any careful run beside all processes, readers and publisher, a deleted row is below its workflow's current snapshot and every reader's current offset, and was published |
| TruncationRun.TruncationIsInvisible | pkg/truncation/truncation.go:146-191 | beside split loads, caches and trusted caches of any number of processes, the committed calls build the same snapshots, schedules and subscriptions as without truncation, and head loads, MAX(workflow_version) and every reader's unread rows are the same |
| TruncationRun.StepKeepsInvIff | pkg/repo/repo.go:875-895 | a step keeps the truncated database a part of the untruncated one if and only if it does not commit where a row was deleted |
| TruncationRun.OvertakenCommitsIffGone | pkg/repo/repo.go:397-533 | a transaction that was decided on a state below the head commits if and only if all the rows it would repeat were deleted (and its horizon rows exist) |
| TruncationRun.AfterOvertakenCommit | pkg/repo/repo.go:753-815 | after such a commit a cold load is what it was before when the new version is off the snapshot interval, and otherwise the overtaken state with the rows left above |
| Truncation.FireOverwriteIff | pkg/delay/scheduler.go:236-345 | an overtaken delay fire commits exactly when its version was deleted, and no cold load sees it |
| TruncationWitness.CancelIsLost | pkg/repo/repo.go:484-533 | a run from the start, careful up to its last step, in which a cancel torn between its two statements is accepted in the gap and the workflow still loads as active |
| TruncationWitness.GoneRowsAreMissed | pkg/repo/repo.go:186-194 | a reachable state of careful steps in which a command answers not-found, the id can be created again and a split load is wrong |
| TruncationWitness.SystemAlone | pkg/repo/repo.go:163-533 | every run of the interleaved system is a careful run here, with both databases equal |
| Truncation.LoadSurvives | pkg/repo/repo.go:753-815 | any load at or above the current snapshot is unchanged by truncation |
| Truncation.CallMirrors | pkg/repo/repo.go:163-533 | a call that the truncated database accepts writes the same rows to the untruncated one, which refuses it exactly when it creates an id that was used before |
| TruncationRun.CommandLostIff | pkg/repo/repo.go:186-194 | truncation makes a command answer not-found exactly when row 1 is gone |
| TruncationRun.CreateReusesId | pkg/repo/repo.go:312-394 | an id in use can be created again exactly when the rows under the new batch are gone |
| Truncation.TornLoadIff | pkg/repo/repo.go:753-815 | a load that read an older snapshot, or none, before the deletions is right exactly when no row above that snapshot was deleted, or the log has ended |
| Truncation.TruncationService.GetMinReaderOffset | pkg/truncation/truncation.go:195-210 | the smallest offset, 0 without readers |
| Truncation.TruncationService.DeleteEventsForSnapshot | pkg/truncation/truncation.go:249-273 | removes only eligible rows, at most batchSize, all of them when fewer, and returns how many |
| Truncation.TruncationService.RunTruncationCycle | pkg/truncation/truncation.go:146-191 | the total equals the number of rows gone, each eligible against its snapshot; of every snapshotted workflow a whole batch went or no row is left that may go; nothing goes when the smallest offset is 0 |
| TruncationRun.CycleRuns | pkg/truncation/truncation.go:146-191 | what a cycle takes out of the table is taken out by a run of the machine |
| Inflight.TrackerIsWindow | pkg/runner/inflight.go:25-61 | after any well-formed trace the committed offset is the largest registered id with nothing open at or below it, and pending holds exactly the ids above |
| Inflight.NeverBack | pkg/runner/inflight.go:25-61 | the committed offset never decreases |
| Inflight.OrderDoesNotMatter | pkg/runner/inflight.go:25-61 | traces with the same dispatched and completed ids end in the same tracker |
| Inflight.BackwardsIff | pkg/runner/inflight.go:31-34 | completing an id again moves the offset back exactly when the window had passed it |
| Inflight.InflightTracker.MarkDone | pkg/runner/inflight.go:31-34 | marks and advances as the value-level tracker |
| Inflight.InflightTracker.AdvanceWindow | pkg/runner/inflight.go:46-61 | passes every completed entry at the bottom of the window and stops at the first open one |
| Inflight.SortIds | pkg/runner/inflight.go:47-51 | the keys, ascending |
| StreamReader.AtLeastOnce | pkg/stream/reader.go:315-357 | over polls, checkpoints, crashes and restarts, failed offset queries included, every event at or below the stored offset was marked done, and no event is skipped |
| StreamReader.RestartSkipsNothing | pkg/stream/reader.go:484-499 | a restart begins below every event that nobody has done |
| StreamReader.OffsetNeverDecreases | pkg/stream/reader.go:555-579 | the stored offset never goes back |
| StreamReader.EarlyHorizonIff | pkg/stream/reader.go:555-562 | a horizon taken while the committed offset is still 0 is safe exactly when everything in flight is already done |
| StreamReader.EarlyHorizonLoses | pkg/stream/reader.go:555-579 | a run in which such a horizon loses an event for good |
| StreamReader.FailedRestartFallsBack | pkg/stream/reader.go:303-307 | a failed offset query at start drags the stored offset down |
| StreamReader.StoredOffsetFallsBack | pkg/stream/reader.go:303-307 | a run from the start in which that happens |
| StreamReader.StreamPosition.InitOffset | pkg/stream/reader.go:484-499 | the three fields are those of a freshly booted process |
| StreamReader.StreamPosition.FetchEventsFull | pkg/stream/reader.go:403-433 | the first rows above the position, in order, and all of them when the page is not full |
| StreamReader.StreamPosition.MarkHorizon | pkg/stream/reader.go:555-579 | writes the committed offset, or the read position while that is 0, and nothing when it is already stored |
| StreamReader.EventLoop | pkg/runner/runner.go:201-225 | after the loop the committed offset is the last event's id |
| Horizon.MatchesTagsLoop | pkg/model/state.go:43-77 | one of the tags and all of the required tags are among the event's or the workflow's |
| Horizon.SqlMatchIff | pkg/runner/subscriptions.go:64-78 | the query's condition is the model's matcher except for ("*", "*") subscriptions |
| Horizon.BackfillSubscription | pkg/runner/backfill.go:20-72 | replays the matching emitter rows above the horizon and below the subscription's own id |
| Horizon.FindSubscriptionsLoop | pkg/runner/subscriptions.go:56-125 | the workflows with a matching row, horizon and stamp respected |
| Horizon.ProcessEvent | pkg/runner/runner.go:260-356 | backfill and live deliveries of one event together |
| Horizon.BackfillPart | pkg/runner/backfill.go:37-43 | of all processed events only the one that added the subscription replays an emitter event to the subscriber, once |
| Horizon.LivePart | pkg/runner/subscriptions.go:64-78 | the live path hands an event over exactly when it is at or after the subscription and wanted |
| HorizonRun.ExactlyOnce | pkg/runner/backfill.go:20-72 | beside any interleaving of the repository's processes, an emitter event has been handed over once if it is wanted, the runner has passed the subscription, and it is older than the subscription or was processed with an event type and not as an action_cancel; otherwise not at all |
| HorizonRun.ProcessHandsOver | pkg/runner/runner.go:260-356 | whatever was interleaved, processing an event hands it once to exactly the workflows that it addresses (a delay_complete to its own, a direct message to its target) or that have a row asking for it in the table, stamped or not; nobody got it before, and exactly the older events that its own subscription asks for are replayed |
| HorizonRun.HitsIff | pkg/runner/subscriptions.go:64-78 | a row is found exactly when emitter and event type are named or starred but not both starred, the tags match, the event is past the horizon if there is one, and not older than the stamp if there is one |
| HorizonRun.LogIsTable | pkg/stream/reader.go:403-433 | what the calls appended, in commit order, is the events table in the order of the global ids |
| HorizonRun.TableFollowsLog | pkg/repo/repo.go:966-1012 | every subscription row was added by an event of the log, and the row of a key that one event alone touches is there with that event's global id |
| HorizonWitness.ActionCancelIsNotHandedOver | pkg/runner/runner.go:260-356 | a run from the start in which the runner passes a wanted action_cancel behind the subscription and does not hand it over |
| Outbox.BrokerHoldsPrefix | pkg/jetstream/jetstream.go:244-338 | over publish failures, lost commits, crashes and resets the de-duplicated stream is a gap-free prefix of the log in global order, and pushed rows were published |
| Outbox.IdleMeansComplete | pkg/jetstream/jetstream.go:286-288 | when a poll finds nothing every row is on the broker |
| Outbox.NextIsNext | pkg/jetstream/jetstream.go:292-322 | the next row of any poll is a repetition or exactly the next row of the log |
| Outbox.BatchOk | pkg/jetstream/jetstream.go:252-262 | the selected batch is the first unpushed rows in order, as many as the limit allows, and an empty one means everything is pushed |
| Outbox.PollRuns | pkg/jetstream/jetstream.go:244-338 | the effect of one poll, broken off anywhere, is a run of the machine |
| Outbox.JetStreamPublisher.PollOnce | pkg/jetstream/jetstream.go:244-338 | publishes up to the first failure and marks the batch only when all were published and the commit succeeded |
| Outbox.Reconciler.RepublishStuckEvents | pkg/reconcile/reconcile.go:219-244 | resets exactly the given rows |
| Decimals.TaggedInjective | pkg/jetstream/jetstream.go:294 | a message id determines workflow and version even when the workflow id has colons |
| Scaling.UniqueOwner | pkg/partitioning/partitioning.go:19-35 | every workflow has exactly one owner, in range |
| Scaling.LargeDigestsShareAPartition | pkg/partitioning/partitioning.go:25-31 | digests that overflow 64 bits all land in one partition |
| Scaling.NameInjective | pkg/partitioning/partitioning.go:12-14 | reader names of a workflow type differ when index or total differ |
| Scaling.InitIsMax | pkg/scaling/scaling.go:263-292 | each listed reader ends at max(old, target), a new one at the target, the rest is untouched |
| Scaling.NothingLost | pkg/scaling/scaling.go:73-240 | from one complete generation, for any ownership functions, every event is behind its old owner or ahead of its new one; both only between target and old offset |
| Scaling.LostIffLagging | pkg/scaling/scaling.go:341-404 | with the new readers at the target nothing is lost exactly when no old reader lags |
| Scaling.LeftoversAreNotAwaited | pkg/scaling/scaling.go:313-336 | right after planning over leftover readers the check passes at once for a scale-up and fails for a scale-down |
| Scaling.Scaler.GetMaxOffset | pkg/scaling/scaling.go:296-310 | the largest offset of the type's readers, 0 without any |
| Scaling.Scaler.CheckAllWorkersSynced | pkg/scaling/scaling.go:368-404 | true exactly when no listed reader lags and, when asked, none is missing |
| Scaling.Scaler.WaitForWorkersToSync | pkg/scaling/scaling.go:341-365 | true exactly when the awaited readers are synced after some report, and then the table is the one after the first such report |
| Scaling.Scaler.InitializePartitionOffsets | pkg/scaling/scaling.go:263-292 | initializes the whole generation |
| Scaling.Scaler.Scale | pkg/scaling/scaling.go:73-240 | a scaled result is a complete run of the machine, so ScaledKeeps applies to the method's own tables; it is given exactly when the operation may start and the old readers reach the old maximum within the ticks, and otherwise the operation is refused or marked failed and no reader is added |
| Scaling.ScaledKeeps | pkg/scaling/scaling.go:73-240 | after a successful operation on one complete generation every event is behind its old owner or ahead of its new one |
| Scaling.CompleteMeans | pkg/scaling/scaling.go:263-292 | every completed operation leaves the new readers at or above the target, removes no reader and sets none back |
| Scaling.ReportsGoForward | pkg/scaling/scaling.go:341-365 | waiting adds and removes no reader, and no offset goes back |
| ActionExecutor.SucceedsIff | pkg/actions/executor.go:390-479 | an attempt succeeds exactly when ActOn did, something was yielded, no command was rejected, no immediate save failed, no context was done at a yield and no timer fired after the first ActionTimeout |
| ActionExecutor.InterruptedIff | pkg/actions/executor.go:390-524 | an attempt is interrupted exactly when the first thing that stops it is a cancelled context |
| ActionExecutor.AttemptDataIs | pkg/actions/executor.go:390-524 | an attempt leaves the checkpoints of the yields before the one that stops it, and that one's own if it was reached, so even one whose save failed |
| ActionExecutor.FinalStatusIsTrue | pkg/actions/executor.go:263-387 | for every outcome of the load and the semaphore: the attempts are exactly those that the turns call for within the budget, the trace is RUNNING then RETRYING then one final status, and COMPLETED, FAILED and CANCELLED are each given exactly when due; without an activity or a semaphore there is no attempt |
| ActionExecutor.CheckpointsAccumulate | pkg/actions/executor.go:329-363 | each attempt is given the stored checkpoint overlaid with every checkpoint yield of all earlier attempts |
| ActionExecutor.NullCheckpointForgets | pkg/actions/executor.go:336-338 | with a null stored checkpoint a retry starts empty, which is right only while nothing was yielded |
| ActionExecutor.ActionContext.MergeCheckpoint | pkg/model/workflow.go:417-424 | overlays in place, in the same map object |
| ActionExecutor.Executor.ExecuteSingleAttempt | pkg/actions/executor.go:390-479 | result and checkpoint of an attempt, with the map mutated in place |
| ActionExecutor.Executor.ConsumeWithTimeout | pkg/actions/executor.go:482-524 | the same for the yields after an ActionTimeout |
| ActionExecutor.Executor.RunActionWithRetry | pkg/actions/executor.go:263-387 | the status updates and the checkpoints handed out over all attempts |
| ActionExecutor.OneTaskPerActionAndCap | pkg/actions/executor.go:182-256 | never two goroutines for one action, never more than the cap holding the semaphore |
| ActionExecutor.StartsIffIdle | pkg/actions/executor.go:182-256 | an action can be started exactly while no goroutine runs it, and a queued one proceeds exactly below the cap |
| ActionExecutor.PrefixCancelIff | pkg/actions/executor.go:805-815 | cancelling all actions of a workflow hits exactly that workflow and those whose id continues it with a colon |
| Padding.UnpadIff | internal/crypto/crypto.go:31-68 | unpadding y gives x exactly when y is x padded by at most 255 bytes, for every block size |
| Padding.RoundTrip | internal/crypto/crypto.go:31-68 | unpad after pad is the identity for block sizes 1 to 255 |
| Padding.PadIsPkcs7 | internal/crypto/crypto.go:31-41 | the data, then the one number from 1 to the block size of bytes that completes a block, each of that value as a byte |
| Padding.RefusedIff | internal/crypto/crypto.go:44-68 | which texts are refused for their length and which for their padding |
| Padding.Pkcs7Pad | internal/crypto/crypto.go:31-41 | the buffer loop builds the padding |
| Padding.Pkcs7Unpad | internal/crypto/crypto.go:44-68 | the scan with its early exits accepts and refuses as specified |
| ContinueAsNewCall.VersionsAgreeIff | pkg/repo/repo.go:539-590 | after ContinueAsNew the loaded version and MAX(workflow_version) agree only for a log of one event |
| ContinueAsNewCall.OnlyLogGoes | pkg/repo/repo.go:539-590 | ContinueAsNew leaves the marker alone in the log under a fresh global id, the fold of the old log in the snapshot, and everything else as it was |
| ContinueAsNewCall.LostIff | pkg/repo/repo.go:559-585 | of the events written after the marker: a batch that hits the snapshot interval is loaded with the state it led to; any other is invisible to a cold load exactly while it ends at or below the old version |
| Witnesses.EventBehindMarkerIsLost | pkg/repo/repo.go:559-585 | an event of version 2 behind the marker of a three-event log that no cold load sees |

## Left out

- SerialHistory, Interleaving: ContinueAsNew is not a step (see ContinueAsNewCall), nor is ReplayWorkflow, whose version is too low for `fromVersion <= 0`.
- Interleaving: the version-1 row lock is not modelled; it only removes interleavings.  Nor are errors of the database other than conflicts.
- TruncationRun: the age test of the DELETE is taken as "any rows may be too young"; readers are neither added nor removed during a run.
- HorizonRun.ExactlyOnce: the order of deliveries is not modelled (a multiset), nor are partitions across runners.
- Harness.RepositoryRefinesHarness: the harness's simulated clock, its delays map and workflow tags are not modelled; lifecycle calls have no counterpart in the harness.
- DelayProjection.DelayTableIsProjection: fires with rows that changed meanwhile are excluded, see FireKeepsProjectionIff and Witnesses.RemovedScheduleComesBack; delay_until, the wall clock and the branch for invalid cron expressions are not modelled.
- StreamReader.AtLeastOnce: rows that fail to scan are skipped by the source and are not modelled; parse errors count as done, as in the source.
- ActionExecutor.FinalStatusIsTrue: the trace holds the updates that are issued; a CANCELLED update on a cancelled context does not reach the table.  The per-workflow semaphore, backoff times and the recovery scanner are not modelled, and checkpoint writes to the table are not followed.
- Scaling.Scaler.Scale: two scalers at once are not modelled, and LIKE is read as a prefix test although an underscore in a pattern matches any character.
- EphemeralStorage: errors of a cache tier, Clear and Stats.
- ReplayRawEvents, upcasting and event parsing: JSON.
- Metadata, workflow tags in the table, sync handlers, external subscriptions in the table: plain columns.
- One-shot delays fire twice when both the repository and the runner register them; "exactly once" is not claimed.
- The pull consumer of JetStream: acknowledgements follow NATS, which is not part of this model.
- Next commands of delays: the scheduler marshals them to an empty object; delay_complete carries only its delay id.
- AES, key derivation, cron computation, SQL text, the HTTP gateway, the UI, configuration, metrics and tracing.
