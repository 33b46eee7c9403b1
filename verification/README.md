# Foxharness: verified models of its stateful core

Foxharness is an agent harness. Its hard part is four components that keep durable or shared state:

* **File checkpointing** (`Checkpoint*.dfy`). Files are backed up incrementally before they are edited; a rewind must
  bring back a whole snapshot although only changed files were copied and old snapshots are evicted. The model keeps,
  beside the checkpointer's state, a full copy of the tree for every retained snapshot, and proves that a rewind after
  any run restores exactly that copy, for just the last snapshots that were opened. The append-only log is replayed
  and compared with the state in memory.
* **The Feishu front** (`Scheduler*.dfy`, `Gateway*.dfy`, `Delivery*.dfy`). A per-session scheduler under a global
  limit; in front of it the admission of deliveries, an at-most-once delivery store, and the reference-counted lock
  that serialises it. The concurrent parts are state machines whose steps are the critical sections and channel
  operations of the source, and the theorems hold for every interleaving.
* **The turn loop and compaction** (`Engine.dfy`, `Conversation.dfy`, `SessionLog.dfy`, `Compaction.dfy`). Histories of
  tool calls and results over all the runs of a session, what a run that stops in between leaves to the next, and the
  cuts that must not separate them.
* **The autodev workflow** (`Slug.dfy`, `Ledger*.dfy`, `Seed*.dfy`, `CoreOutcome.dfy`, `Mutations.dfy`, `Progress.dfy`,
  `StageMachine.dfy`, `Publisher.dfy`, `Orchestrator.dfy`). A ledger file that survives crashes, its reconciliation
  with a backlog, and the control plane that drives items through it. A crash is a run that ends at any write or
  between two; the next run starts from the file. A ghost record of everything durable carries the theorems over whole
  histories of runs: in what order items are begun, what is driven, when an attempt may follow another, and that a
  process works only on what its backlog lists.

Code that updates state in place is modelled by classes and methods with the source's loops, each proved against a
specification function; the theorems are lemmas about those functions and invariants the methods keep. What the
environment decides (a clock, a file write, a model's answer) is an arbitrary value.

Where the code falls short of what is said about it, there is a concrete run and the exact condition:

* a TrackEdit under an id whose snapshot failed, which `cmd/fox/cli_runtime.go:225-227` logs and goes on from, opens a
  snapshot of its own; when that spoils a rewind is said by `TrackExactIff`, and the two ways it can by
  `FirstCopyOverwritten` and `OtherPathFallsBack`;
* the log rebuilds the state exactly if and only if no snapshot was opened under a retained id
  (`AllRestartsExactIffFresh`, `ReusedIdLost`);
* the comment on the shutdown in `cmd/feishu/main.go` says the task channel is closed under no live sender; it is closed
  also when both waits time out, and then a handler between its abort check and its send is one (`CloseMayPanicIff`,
  `TimedOutCloseRaces`);
* a rollback that comes after the retention has passed can free an id that is in use (`LateRollbackHarmsIff`,
  `LateRollbackForgets`);
* compaction keeps calls and results paired if and only if no result follows a plain message
  (`CompactionPairsIffNoStray`, `BlankIdBreaks`);
* a round cut between a reply with calls and the last of their results leaves the stored history unpaired, for every
  later run as well (`CallsSeePairedIffNoCut`, `AllCallsPairedIff`, `CutForever`, `OrphanedRun`, `PartlyAnsweredRun`);
* two chats can share a session of the scheduler, exactly when a colon within a chat shifts the boundary
  (`SharedSessionIff`, `SessionsCollide`);
* reconciliation can yield a ledger that its own validator refuses, exactly when a new title's id is taken
  (`SeededValidIff`, `TitleTakenReachable`);
* an outcome that passes its contract is recorded if and only if it succeeded or its error has text
  (`TerminalAcceptedIff`, `TextlessRefused`), and an error classified before the start of a run meets the contract
  unless it is a turn limit (`ClassifiedIff`, `TurnLimitBeforeStart`).

`dafny verify dfyconfig.toml` checks the whole project.

## Model

| member | source | states |
|---|---|---|
| `CheckpointOpened.RewindToLastOpened` | internal/checkpoint/restore.go:18-46 | from a fresh checkpointer, through any run of edits that follow a TrackEdit, deletions, mode changes, snapshots, evictions, earlier rewinds, toggles and restarts, with ids snapshotted before they are tracked under and fresh up to the last restart: each of the last opened snapshots, as many as the limit, can be rewound to by its id, which gives back the whole tree of the moment it was opened; no other id can |
| `CheckpointOpened.RetainedAreLastOpened` | internal/checkpoint/backup.go:68-77 | after any run whose restarts replay exactly, the retained snapshots and their trees are the last min(opened, limit) that were opened, in order |
| `CheckpointOpened.OpensWhen` | internal/checkpoint/backup.go:42-66 | a snapshot is opened by asking for another id than the latest one's; an edit without an id opens one only when there is none |
| `CheckpointOpened.EditBacksUp` | internal/checkpoint/backup.go:16-40 | a tracked edit leaves its path backed up in the latest snapshot, which is the one asked for if one is named, changes no file and forgets no tracked path; while disabled it does nothing |
| `CheckpointLog.RewindAfterRestarts` | internal/checkpoint/restore.go:18-46 | from a fresh checkpointer, through any run of edits that follow a TrackEdit, deletions, mode changes, snapshots, evictions, earlier rewinds, toggles and restarts, with ids snapshotted before they are tracked under and fresh up to the last restart, a rewind succeeds for exactly the retained ids, and then the whole workspace, data and mode, is what it was when that snapshot was opened; the checkpointer's own state is untouched |
| `CheckpointRewind.RewindAfterAnyRun` | internal/checkpoint/restore.go:18-46 | the same from any workspace and log, for runs whose restarts find a log that replays exactly |
| `CheckpointRewind.RewindRestores` | internal/checkpoint/restore.go:18-46 | under the invariant a rewind gives every tracked path its content at the snapshot, and no other path needs any |
| `CheckpointRewind.RewindReportsChanges` | internal/checkpoint/restore.go:29-45 | the reported paths are exactly those whose content the rewind changed |
| `CheckpointRewind.HasAnyChangesForeseesRewind` | internal/checkpoint/restore.go:92-116 | the change check answers yes exactly when a rewind to the same id would change some path |
| `CheckpointRewind.RewindTwice` | internal/checkpoint/restore.go:18-46 | a second rewind to the same id changes nothing and reports nothing |
| `CheckpointRewind.BackupForIsTrue` | internal/checkpoint/restore.go:147-152 | "this snapshot's backup, else the earliest one" names the content at the snapshot, also after the snapshots that first tracked the path were evicted |
| `CheckpointRewind.UnchangedIsTrue` | internal/checkpoint/snapshot.go:97-132 | when the modification-time shortcut or the comparison says unchanged, the backup does hold the present content |
| `CheckpointRewind.CopiesOnlyChanged` | internal/checkpoint/snapshot.go:34-60 | under the invariant a new snapshot takes a tracked path's newest backup over exactly when that holds the present content, and else a copy of its own under the next version |
| `CheckpointRewind.CopiesElsewhere` | internal/checkpoint/snapshot.go:34-60 | the copies a new snapshot takes overwrite no retained backup |
| `CheckpointRewind.StepKeepsInv` | internal/checkpoint/snapshot.go:14-64 | every event, a restart only where the log replays exactly, keeps the invariant that ties backups to a full copy of the tree per snapshot |
| `CheckpointRewind.TrackKeepsInv` | internal/checkpoint/backup.go:16-40 | tracking an edit, with its implied snapshot and eviction, keeps that invariant |
| `CheckpointOrder.TrackExactIff` | internal/checkpoint/backup.go:16-66 | from any state with that invariant, a TrackEdit keeps every rewind exact if and only if it opens no snapshot of its own, or its path has not departed from a first copy still in use and no other path from its oldest backup left after eviction |
| `CheckpointOrder.FirstCopyOverwritten` | internal/checkpoint/backup.go:28-38 | otherwise: a file is snapshotted under "1", tracked and rewritten; tracking it under "2", whose snapshot failed, makes a rewind to "1" give the new content |
| `CheckpointOrder.OtherPathFallsBack` | internal/checkpoint/backup.go:42-66 | and when another file is tracked under "2" instead, a rewind to "2" takes the first back to its content at "1" |
| `CheckpointRewind.RunKeepsInv` | internal/checkpoint/backup.go:68-77 | the invariant holds after any run, evictions included, whose restarts find a log that replays exactly |
| `CheckpointLog.AllRestartsExactIffFresh` | internal/checkpoint/persist.go:36-75 | for runs of any length with restarts anywhere in them, every restart and one more at the end give back snapshots, tracked files and both counters exactly if and only if no snapshot was ever opened under an id a retained snapshot carried |
| `CheckpointLog.RestartsExactIffFresh` | internal/checkpoint/persist.go:36-75 | the restarts within a run replay exactly if and only if ids were fresh up to each |
| `CheckpointLog.RestoreIsExactIffIdsFresh` | internal/checkpoint/persist.go:36-75 | after a run whose restarts did, replaying the log is exact if and only if every snapshot was opened under an id no retained snapshot carried |
| `CheckpointLog.ReusedIdLost` | internal/checkpoint/persist.go:117-133 | three snapshots, the third under the first one's id again: the log does not give back what is in memory |
| `CheckpointLog.FreshRunDistinct` | internal/checkpoint/restore.go:118-125 | in such histories the retained ids are distinct, so an id names one snapshot |
| `CheckpointLog.TrackedIsBackedUp` | internal/checkpoint/persist.go:135-142 | the tracked set rebuilt from the retained backups is the tracked set |
| `CheckpointClass.FileCheckpointer.MakeSnapshot` | internal/checkpoint/snapshot.go:14-64 | the loop over tracked files leaves the state, backup store and log that the specification gives; the latest snapshot then has the id and a backup of every tracked path |
| `CheckpointClass.FileCheckpointer.TrackEdit` | internal/checkpoint/backup.go:16-40 | the method leaves the state, store and log the specification gives |
| `CheckpointClass.FileCheckpointer.EnsureLatestSnapshot` | internal/checkpoint/backup.go:42-66 | nothing changes if the latest snapshot is the one asked for, or any when none is named; else an empty one is opened under the id, or under the number opened so far |
| `CheckpointClass.FileCheckpointer.AppendSnapshot` | internal/checkpoint/backup.go:68-77 | there is one snapshot more, or as many as the limit; counted from the newest, each is the one it was in the old list with the new one added |
| `CheckpointClass.FileCheckpointer.LatestBackupForFile` | internal/checkpoint/snapshot.go:77-85 | the backward search finds the last snapshot's entry for a path, if any snapshot has one |
| `CheckpointClass.FileCheckpointer.EarliestBackupForFile` | internal/checkpoint/snapshot.go:87-95 | the forward search finds the first |
| `CheckpointClass.FileCheckpointer.FileChanged` | internal/checkpoint/snapshot.go:97-132 | the comparison of a file with a backup, or the error of a missing copy |
| `CheckpointClass.FileCheckpointer.Rewind` | internal/checkpoint/restore.go:18-46 | the loop over known files leaves the files, and collects the changed paths, the specification gives; an unknown id touches nothing |
| `CheckpointClass.FileCheckpointer.RestoreFile` | internal/checkpoint/restore.go:154-178 | one path is removed or rewritten only if it differs |
| `CheckpointClass.FileCheckpointer.HasAnyChanges` | internal/checkpoint/restore.go:92-116 | the search for a differing path answers as the specification does |
| `CheckpointClass.FileCheckpointer.ReplayRecord` | internal/checkpoint/persist.go:117-133 | the first snapshot with the record's id is replaced by it, all others staying; a record of an unknown id is appended as a new snapshot is |
| `CheckpointClass.FileCheckpointer.RestoreStateFromLog` | internal/checkpoint/persist.go:36-75 | the scan of the log leaves the rebuilt state |
| `SchedulerRuns.ReachableStates` | internal/feishu/scheduler.go:39-138 | in every reachable state the active count is the number of sessions running, at most the limit, and completions fit their channel; until cancellation the ready list is duplicate-free and holds exactly the sessions with waiting tasks and none running |
| `SchedulerRuns.Conservation` | internal/feishu/runner.go:78-135 | when the loop may return, the outcomes are a permutation of the received tasks, in order within each session, and nothing is queued or running |
| `SchedulerRuns.RunOrCancelled` | internal/feishu/runner.go:78-135 | and each received task was run or cancelled, once in all |
| `SchedulerRuns.OutcomesInOrder` | internal/feishu/scheduler.go:39-87 | at any time a session's outcomes are a prefix of what it received, in order |
| `SchedulerRuns.TurnComes` | internal/feishu/scheduler.go:51-73 | a session at position p of the ready list has moved up by one for each pop, whatever else happened |
| `SchedulerRuns.ServedAtItsTurn` | internal/feishu/scheduler.go:51-87 | so after p pops of others it is its turn: it starts its first unexpired task, or all of them are reported expired |
| `SchedulerRuns.NoLostWakeup` | internal/feishu/scheduler.go:51-73 | after dispatch the limit is reached or nothing is ready, and work left means something runs that will wake the loop |
| `SchedulerRuns.CancellingWaitsForRunning` | internal/feishu/scheduler.go:122-142 | while cancelling, a loop that is not idle has a running task to wait for |
| `Scheduler.SharedSessionIff` | internal/feishu/scheduler.go:144-146 | two tasks share a session exactly when chat and sender are the same, or a colon within a chat lets the boundary between them shift; chats without a colon keep chats and senders apart |
| `Scheduler.SessionsCollide` | internal/feishu/scheduler.go:144-146 | two chats and two senders, one of the chats with a colon, that share a session |
| `SchedulerProofs.PopServes` | internal/feishu/scheduler.go:51-87 | a pop hands outcomes to the front of one session's tasks, in order, and to no other |
| `SchedulerProofs.CompletionsFit` | internal/feishu/scheduler.go:29-37 | running and completed tasks together never exceed the limit, so a completion never blocks |
| `SchedulerProofs.CancelAllKeepsInv` | internal/feishu/scheduler.go:122-138 | cancellation, in any order of sessions and with any buffered input, keeps the account of every task |
| `SchedulerClass.TaskScheduler.Enqueue` | internal/feishu/scheduler.go:39-49 | queues the task and marks its session ready as specified |
| `SchedulerClass.TaskScheduler.Dispatch` | internal/feishu/scheduler.go:51-73 | pops until the limit is reached or nothing is ready |
| `SchedulerClass.TaskScheduler.NextRunnable` | internal/feishu/scheduler.go:75-87 | expired tasks are reported and dropped in order; the first live one is taken |
| `SchedulerClass.TaskScheduler.Complete` | internal/feishu/scheduler.go:100-112 | frees the session's slot, and drops the session or marks it ready |
| `SchedulerClass.TaskScheduler.CancelAll` | internal/feishu/scheduler.go:122-138 | cancels all waiting tasks; sessions stay only while a task of theirs runs |
| `SchedulerClass.Runner.Start` | internal/feishu/runner.go:78-121 | the event loop keeps the invariant in any environment, and when it returns every received task had its outcome and nothing is left |
| `SchedulerClass.Runner.CancelBufferedTasks` | internal/feishu/runner.go:123-135 | what is still in the channel is received and cancelled, in order |
| `Gateway.DrainedOnce` | internal/feishu/gateway.go:171-217 | in every interleaving the drained channel is closed at most once, and is closed exactly when admission is closed and every handler has returned |
| `Gateway.NilMeansQuiet` | internal/feishu/gateway.go:171-189 | after a StopAccepting call returned nil no handler is active or ever starts, and nothing that happens later makes a send panic |
| `Gateway.TimeoutAborts` | internal/feishu/gateway.go:171-198 | after a StopAccepting call timed out no handler starts and none reaches its send that was not there already |
| `Gateway.CloseMayPanicIff` | cmd/feishu/main.go:118-148 | closing the task channel can lead to a send on it exactly when some handler may still reach its send; once deliveries are aborted that is a handler between its abort check and its send |
| `Gateway.TimedOutCloseRaces` | cmd/feishu/main.go:144-148 | both waits of the shutdown can time out with such a handler left, and the close then races its send |
| `Gateway.Admissions.BeginDelivery` | internal/feishu/gateway.go:200-208 | refused once closed, else counted |
| `Gateway.Admissions.FinishDelivery` | internal/feishu/gateway.go:210-217 | the last handler out after closing closes the channel |
| `Gateway.Admissions.StopAccepting` | internal/feishu/gateway.go:171-179 | the first call closes admission, and the channel if nobody is active |
| `Gateway.Admissions.AbortDeliveries` | internal/feishu/gateway.go:191-198 | sets the abort once |
| `GatewayOnce.EnqueuedOncePerWindow` | internal/feishu/gateway.go:108-151 | in every interleaving without a late rollback, two tasks enqueued for one message were reserved more than the retention apart; what a late one may do, LateRollbackHarmsIff says |
| `GatewayLate.LateRollbackHarmsIff` | internal/feishu/gateway.go:228-235 | after a rollback that comes later than its own retention, some continuation without another late one enqueues the message twice within the retention if and only if sends are still possible, another handler's unexpired reservation was on record, and one more handler can follow - two if that other handler is itself rolling back |
| `GatewayOnce.LateRollbackForgets` | internal/feishu/gateway.go:228-235 | a run in which it does: the rollback frees an id another handler has enqueued, and a third handler enqueues it again at once |
| `GatewayOnce.EnqueuesOrRollsBack` | internal/feishu/gateway.go:131-151 | a handler that enqueued never gives its reservation back, and one that gave up never enqueues |
| `GatewayOnce.DuplicatesNeverHold` | internal/feishu/gateway.go:108-151 | in every interleaving without a late rollback, as long as a handler's reservation is held and unexpired no other delivery of the message, waiting then or come since, has reserved it, let alone enqueued a task |
| `Delivery.FileDeliveryStore.ReserveContext` | internal/feishu/delivery_store.go:151-182 | true means the id was free, after dropping expired ones, and the file now holds it; a refusal leaves the file; false without an error means an unexpired reservation holds it |
| `Delivery.FileDeliveryStore.ReleaseContext` | internal/feishu/delivery_store.go:188-208 | the file either is untouched or has lost just this id; success means it is gone |
| `Delivery.FileDeliveryStore.Load` | internal/feishu/delivery_store.go:228-278 | both file versions load as specified, an old one dated at the reading |
| `Delivery.LastRecordCounts` | internal/feishu/delivery_store.go:228-278 | of several records of one id, compared without white space around it, the last one counts |
| `Delivery.LoadedFromRecords` | internal/feishu/delivery_store.go:228-278 | a file loads exactly when each of its records has an id, and holds no id that is not a record's |
| `Delivery.LegacyLoads` | internal/feishu/delivery_store.go:228-278 | a file of the first version holds exactly its ids, each reserved at the reading |
| `Delivery.FileDeliveryStore.PruneExpired` | internal/feishu/delivery_store.go:283-289 | exactly the reservations older than the retention go |
| `Delivery.FileDeliveryStore.Save` | internal/feishu/delivery_store.go:291-331 | a committed file loads as exactly what was saved; otherwise the file is as it was |
| `DeliveryRuns.FileRefinesMemory` | internal/feishu/delivery_store.go:53-82 | after any calls the file store refuses exactly the ids the memory store refuses whose last acceptance is within the retention |
| `DeliveryRuns.AlikeWithinRetention` | internal/feishu/delivery_store.go:53-82 | until one retention has passed the two stores decide alike |
| `DeliveryRuns.AcceptancesApart` | internal/feishu/delivery_store.go:151-182 | two acceptances of an id with no release between are more than the retention apart |
| `DeliveryRuns.ReleaseAllowsAnother` | internal/feishu/delivery_store.go:188-208 | a release in between lets an id be accepted again at once |
| `DeliveryRuns.MemoryDeliveryStore.ReserveContext` | internal/feishu/delivery_store.go:53-68 | accepts an id once, refusing blank ids and cancelled contexts |
| `DeliveryRuns.MemoryDeliveryStore.ReleaseContext` | internal/feishu/delivery_store.go:74-82 | forgets the id |
| `DeliveryLock.MutualExclusion` | internal/feishu/delivery_lock.go:18-49 | in every interleaving at most one client is inside per path, though lock objects are made, counted and dropped |
| `DeliveryLock.PathsIndependent` | internal/feishu/delivery_lock.go:18-26 | two clients share a lock object exactly when their paths are the same |
| `DeliveryLock.NoLeak` | internal/feishu/delivery_lock.go:42-49 | the table lists a path exactly while some client is concerned with it |
| `DeliveryLock.WaitingIsForSomeone` | internal/feishu/delivery_lock.go:28-39 | a waiting client may go in unless another is inside on its path, and returning the token never blocks |
| `DeliveryLock.LockTable.Enter` | internal/feishu/delivery_lock.go:19-26 | finds or makes the path's lock and counts the client |
| `DeliveryLock.LockTable.TakeToken` | internal/feishu/delivery_lock.go:28-33 | takes the lock's token if it is there, and says so |
| `DeliveryLock.LockTable.ReturnToken` | internal/feishu/delivery_lock.go:34-38 | puts it back |
| `DeliveryLock.LockTable.Release` | internal/feishu/delivery_lock.go:42-49 | uncounts the client and drops the entry with the last |
| `Compaction.CompactionKeeps` | internal/compaction/compactor.go:388-433 | the result is the system message, the anchor if there is one, the boundary, the summary and the messages from the split on, which are at least the recent ones, in that order and nothing else |
| `Compaction.CompactionPairsIffNoStray` | internal/compaction/compactor.go:388-453 | compaction with every window keeps calls and results paired if and only if no result with an id follows a message without one that is no call |
| `Compaction.CompactionKeepsPairing` | internal/compaction/compactor.go:388-453 | so it does for every paired history whose calls carry ids |
| `Compaction.BlankIdBreaks` | internal/compaction/compactor.go:443-453 | a call without an id before one with an id gives a history that the cut breaks |
| `Compaction.NamedCallsNoStray` | internal/compaction/compactor.go:443-453 | with named calls a result never follows a plain message |
| `Compaction.MoveSplitToProtocolBoundary` | internal/compaction/compactor.go:443-453 | the loop moves the split back as specified |
| `Compaction.DurableCutPairsIffNoStray` | internal/runtimecompaction/adapter.go:90-121 | the durable cut that opens a run keeps the records left paired for every window if and only if no result follows a plain message |
| `Compaction.DurableCutIsPaired` | internal/runtimecompaction/adapter.go:175-183 | so its own boundary move leaves a paired rest where there is no such result |
| `Engine.Session` | internal/runtime/context_controller.go:284-324 | over any number of runs and explicit compactions of a session, each model call sees a paired stored history if and only if no round before it was cut - by the executor's error, the batch's count or ids, or a failed append - unless a cut lacks first the result of a call without an id; in general all calls do if and only if every cut was repaid; while no round was cut, calls carry ids and thinking replies are plain, the context shown, compacted or not, is paired too |
| `SessionLog.CallsSeePairedIffNoCut` | internal/runtime/context_controller.go:719-733 | a call's stored history is paired if and only if no earlier round was cut, for rounds whose first missing result is of a call with an id |
| `SessionLog.AllCallsPairedIff` | internal/runtime/context_controller.go:593-608 | whatever ids the model gives, every call sees a paired history if and only if each cut round followed by a call lacked only results of calls without an id, no more than runs had begun since, whose user messages are taken for them |
| `SessionLog.CutForever` | internal/runtime/context_controller.go:593-608 | a cut round whose first missing result is of a call with an id spoils the stored history for good: the next run starts with its user message, and nothing appended then or later pairs it again |
| `SessionLog.OrphanedRun` | internal/engine/target.go:538-556 | two runs: the executor fails, and the second run's first call sees a request without its result |
| `SessionLog.PartlyAnsweredRun` | internal/runtime/context_controller.go:310-321 | two runs: the store takes the first of two results, and the second run's first call sees the other missing |
| `SessionLog.PairedIsRead` | internal/engine/target.go:570-590 | pairing as defined from the front is reading the history message by message with no call left owed |
| `Engine.Run` | internal/engine/target.go:343-513 | one run, whatever the environment does, stores its user message first and no other; only its last round can be cut, and then it failed in its tools; a completed run ends with a reply without calls; with a limit on turns it gets at most that many replies, fails for the limit only at that many, and goes on only below |
| `Engine.Think` | internal/engine/target.go:387-413 | the thinking call; its reply joins the turn's messages exactly if it says anything, and is not stored |
| `Engine.ExecuteTools` | internal/engine/target.go:538-597 | a batch is accepted exactly when counts match and each id is blank or its call's; the results then answer the calls in order |
| `Engine.RunTools` | internal/engine/target.go:538-597 | a reply's round is cut exactly when the executor failed, its batch was refused or an append failed, and then the store holds the reply and the results before that one |
| `Conversations.Conversation.StartRun` | internal/runtime/context_controller.go:719-733 | a run is shown the system message, the summary if there is one, and the records from the boundary on, so a cut round not summarized is shown as it is |
| `Conversations.Conversation.CompactHistory` | internal/runtimecompaction/adapter.go:90-121 | the first preparation of a run moves the summary up to the durable cut, the new summary being of the old one and the records between, and shows the records after it; or it leaves all as it was |
| `Conversations.Conversation.CompactManual` | internal/runtimecompaction/adapter.go:142-154 | an explicit compaction makes one summary of the old one and all records not covered by it |
| `Conversations.Conversation.Prepare` | internal/runtime/context_controller.go:225-265 | a model call is shown what the run began with or went on with, the records after the durable cut if it is the run's first, either compacted with the newest summary if it is its turn's first, and the turn's own messages behind |
| `Conversations.Conversation.PrepareAgain` | internal/runtime/context_controller.go:433-482 | after a prompt too long, the call is made again only with everything compacted with the newest summary, under half the window |
| `Conversations.Conversation.AppendResults` | internal/runtime/context_controller.go:310-321 | results are stored one by one up to the first append that fails, and the context follows the store |
| `Conversations.Compactor.Compact` | internal/compaction/compactor.go:388-433 | there is nothing to cut exactly when the split says so; otherwise one summary is asked for of the messages between the kept start and the split, and it and one boundary take their place |
| `Conversations.Compactor.MaybeCompact` | internal/compaction/compactor.go:284-335 | a pass hands back the same messages or the kept start, one boundary, the summary asked for of just the messages between, and the messages from the split on; three that cut nothing in a row stop further passes |
| `Conversations.Compactor.ForceCompact` | internal/compaction/compactor.go:337-377 | a forced pass does the same with half the window but not below four, and resets the count when it cuts |
| `Slug.SlugShape` | internal/autodev/slug.go:16-52 | a slug is letters and digits with single hyphens between, only its number takes it past 64 characters, and the search ends within one try more than slugs are taken |
| `Slug.KebabJoinsWords` | internal/autodev/slug.go:32-52 | the text is the runs of letters and digits of the title with one hyphen between each two, cut to 64 characters, or 63 where the cut would end with a hyphen |
| `Slug.LowerSpells` | internal/autodev/slug.go:32-40 | the case of a letter does not matter, and the letters and digits a slug can keep stay |
| `Slug.KebabSpellsTitle` | internal/autodev/slug.go:32-52 | its letters and digits are the first of the title's, all of them unless it was cut; it is empty only for a title with none |
| `Slug.KebabIdempotent` | internal/autodev/slug.go:32-52 | deriving a slug text again changes nothing |
| `Slug.KebabLoop` | internal/autodev/slug.go:32-52 | the loop computes the specified text |
| `Slug.Slug` | internal/autodev/slug.go:16-30 | the loop finds the base, `item` for a title without letters and digits, or the base with a hyphen and the least free number from 2 |
| `LedgerPaths.KebabIsComponent` | internal/autodev/ledger.go:439-458 | every slug made is a valid path component |
| `LedgerPaths.AutoBranchValid` | internal/autodev/ledger.go:460-487 | the branch named after a valid component is a valid branch |
| `LedgerPaths.NumberedComponentValid` | internal/autodev/worktree.go:61-67 | a numbered worktree name stays a valid component |
| `LedgerClass.Ledger.Validate` | internal/autodev/ledger.go:314-437 | the scan accepts exactly the lists whose records are valid with unique ids and source ids |
| `LedgerItems.ValidMeans` | internal/autodev/ledger.go:314-437 | in a valid record the requirement is frozen exactly if work has begun, done means past every stage, only an executable stage of an item in progress runs, verified remote stages have their numbers, attempts have ids of their own and tell nothing while running and an error unless they succeeded, and only failures may be retried |
| `LedgerClass.Ledger.Load` | internal/autodev/ledger.go:204-257 | a file is loaded exactly when it passes the validator |
| `LedgerClass.Ledger.Persist` | internal/autodev/ledger.go:1021-1073 | committed means the validated snapshot is the file; otherwise the file is untouched |
| `LedgerClass.Ledger.Commit` | internal/autodev/ledger.go:780-801 | a mutation reaches memory exactly when it reached the file, and only if both validators accept it; then no other record differs, and of this one neither whose it is nor what is to be built, its priority or place, or an issue number |
| `LedgerClass.Ledger.Mark` | internal/autodev/ledger.go:760-776 | a refused in-memory mutation leaves the record as it was |
| `LedgerClass.Ledger.Seed` | internal/autodev/ledger.go:538-653 | the loops compute the reconciliation of which OldFate, NewFate and SourceFate say what becomes of every record; refused sources leave memory untouched |
| `SeedFates.OldFate` | internal/autodev/ledger.go:598-623 | a record that a source is for - it carries the record's id or, the record having none, its title, with no id or one no record has - is bound to such a source and placed where that stands in the backlog: it is current, with the source's requirement and priority if it was not begun, or blocked if it is in progress and its requirement changed; any other record is orphaned if it was pending, blocked if in progress, historical if done, and otherwise as it was |
| `SeedFates.NewFate` | internal/autodev/ledger.go:624-650 | a new record is current and pending, with the id, requirement, priority and place of the source it was made for, and nothing else |
| `SeedFates.SourceFate` | internal/autodev/ledger.go:557-650 | every source has its record: an old one it is for, or one made for it |
| `SeedFates.CurrentListed` | internal/autodev/ledger.go:598-650 | after a reconciliation a record is current only if a source of the backlog has its id or, there being none, its title |
| `SeedFates.RefusedIff` | internal/autodev/ledger.go:538-596 | reconciliation is refused exactly when sources repeat an id, or a title without ids, when a source is for two records, or when a new source and a record no source is for cannot be told apart, by the record having no id or the same title |
| `SeedFates.FailsIff` | internal/autodev/ledger.go:603-616 | one that goes ahead reports an error exactly when it leaves a record in progress blocked |
| `SeedFates.MatchedIff` | internal/autodev/ledger.go:557-580 | a record is matched exactly when a source is for it |
| `LedgerClass.Ledger.MatchSources` | internal/autodev/ledger.go:557-584 | the matching loop computes the specified matching |
| `LedgerRuns.StartedStaysFrozen` | internal/autodev/ledger.go:780-816 | from when the file records an item as started, no interleaving of reconciliations, arbitrary mutations, failed writes and restarts changes its identity, requirement, recorded length and digest or priority, or makes it pending again |
| `LedgerRuns.BothValidatorsFreeze` | internal/autodev/ledger.go:386-396 | that takes both validators: each alone would let an item go back to pending |
| `LedgerRuns.OneEventEver` | internal/autodev/ledger.go:817-848 | in every ledger that reconciliations, commits of any mutations, failed writes and restarts build from an empty one, an item has at most one outbox event, in memory and in the file, only with an issue number, and in the file its own |
| `LedgerRuns.OneEventKept` | internal/autodev/ledger.go:817-848 | and from any ledger an item with at most one never gets a second |
| `LedgerRuns.TerminalAttemptStays` | internal/autodev/ledger.go:917-943 | an attempt keeps its place and identity for good, and a terminal one its record |
| `LedgerRuns.RunEvolves` | internal/autodev/ledger.go:803-850 | every later state of file and memory evolves from the file: issue numbers written once, events kept, delivery marks kept, attempts only grown or ended |
| `LedgerRuns.SeededEvolves` | internal/autodev/ledger.go:685-715 | reconciliation, refused or not, undoes none of that |
| `LedgerRuns.CandidateEvolves` | internal/autodev/ledger.go:803-850 | nor does any accepted mutation |
| `SeedTheorems.SeededValidIff` | internal/autodev/ledger.go:538-660 | from a valid ledger with distinct slugs, for any backlog, its ids trimmed as the source does, a reconciliation that goes ahead keeps slugs distinct, source ids unique and each record valid; the result passes the validator exactly when no new item without explicit id has a title whose derived id a record already has |
| `SeedTheorems.TitleTakenReachable` | internal/autodev/ledger.go:628-631 | such a ledger is reachable: three reconciliations without error, the last one refused when saved |
| `SeedRuns.EveryLedgerHealthy` | internal/autodev/ledger.go:538-660 | through any interleaving of reconciliations with any backlogs, commits of any mutations, failed writes and restarts from an empty ledger, the file is one SeededValidIff applies to, and every record in memory is valid with its own slug and source id |
| `SeedTheorems.ReconciledValid` | internal/autodev/ledger.go:685-715 | a matched record stays valid and keeps its identity |
| `SeedTheorems.FreshValid` | internal/autodev/ledger.go:624-650 | a new record is valid |
| `SeedProofs.NoRecordOfSource` | internal/autodev/ledger.go:564-584 | a source that took no record by its id left no record with that id |
| `SeedProofs.MatchSound` | internal/autodev/ledger.go:557-584 | no record is matched twice, and each by its id or, having none, by its title |
| `SeedAgain.SeedIdempotent` | internal/autodev/ledger.go:538-660 | after a reconciliation with any backlog without error the same backlog is accepted again, every source finds the record it found or got, none is added and none changes |
| `SeedAgain.ReconciledTwice` | internal/autodev/ledger.go:685-715 | reconciling a record twice with its source is reconciling it once |
| `CoreOutcome.TerminalAcceptedIff` | internal/autodev/core_outcome.go:71-112 | a valid outcome makes an acceptable terminal record exactly when it succeeded or its error has text; the record names session and run exactly if the run started |
| `CoreOutcome.TextlessRefused` | internal/autodev/core_outcome.go:71-112 | a failed outcome that passes its contract although its error says nothing, and whose record the ledger refuses |
| `CoreOutcome.ClassifiedIff` | internal/autodev/core_outcome.go:184-214 | classification meets the outcome contract exactly when a run that did not start failed for another reason than a turn limit and a named retry class is a known one; success, cancellation, never and a new runner follow from the error as stated |
| `CoreOutcome.TurnLimitBeforeStart` | internal/autodev/core_outcome.go:184-214 | a turn limit reported before the start is classified as turn-exhausted, which the contract refuses |
| `CoreOutcome.UpdateAttemptRecord` | internal/autodev/ledger.go:945-966 | the loop computes the specified history or conflict |
| `CoreOutcome.NextAttemptNew` | internal/autodev/core_outcome.go:216-234 | an attempt with a greater ordinal is new, and its running record is acceptable |
| `CoreOutcome.OutcomeRecorded` | internal/autodev/core_outcome.go:236-269 | its terminal record takes the running one's place, once |
| `CoreOutcome.RecordedOnce` | internal/autodev/ledger.go:945-966 | whatever records are offered in whatever order, attempt ids stay unique, every attempt keeps its place, a terminal record stays for good, and no attempt is recorded as ended that was not recorded as running before |
| `Mutations.BeginAccepted` | internal/autodev/orchestrator.go:171-176 | starting an item is accepted by both validators |
| `Mutations.IntendAccepted` | internal/autodev/orchestrator.go:226-233 | so is the intent for the stage that follows the recorded one |
| `Mutations.VerifyAccepted` | internal/autodev/orchestrator.go:248-257 | so is a verified pipeline stage with its feature directory |
| `Mutations.VerifyRemoteAccepted` | internal/autodev/remote.go:91-112 | so is a verified remote step with the issue and event, or the pull request, it bound |
| `Mutations.DeliverAccepted` | internal/autodev/remote.go:161-169 | so is a delivery mark |
| `Mutations.FinishAccepted` | internal/autodev/orchestrator.go:287-294 | so is the final record of a published item with its numbers |
| `Mutations.RunningAccepted` | internal/autodev/core_outcome.go:249-269 | so is a new running attempt |
| `Mutations.OutcomeAcceptedIff` | internal/autodev/core_outcome.go:236-269 | and its outcome, unless its error has no text, when the ledger refuses it |
| `Progress.NeverBack` | internal/autodev/orchestrator.go:215-279 | from a record of single durable steps: between any two durable states of a history of runs, crashes and restarts with any toggles, no item's stage or stage state goes back, and every record evolves |
| `Progress.VerifiedNeverDrivenAgain` | internal/autodev/remote.go:57-139 | once the file says a stage is verified, no stage up to it is driven again |
| `Progress.NoStageSkipped` | internal/autodev/stage.go:399-442 | an item past a pipeline stage, or past staging, committing or pushing, was durably recorded as having it verified at some earlier time |
| `Progress.DonePassedAll` | internal/autodev/orchestrator.go:287-294 | so an item recorded done has every one of them verified in its history |
| `Progress.DrivenSound` | internal/autodev/stage.go:90-298 | setting a durably running stage going keeps the record sound, and any attempt may run then |
| `Progress.AttemptRecordedFirst` | internal/autodev/stage.go:191-196 | a core attempt runs only while its running record ends its item's durable history, with a greater ordinal than all before it |
| `Progress.OrdinalsGrow` | internal/autodev/core_outcome.go:216-227 | an item's attempt ordinals grow in the order they ran, over retries, stages and restarts, because each run follows a durable state that just added its record |
| `Progress.DeliveredBeforePR` | internal/autodev/remote.go:37-139 | every event of an item whose durable stage is the pull request or done was delivered, and reported before that state was written |
| `Progress.AcceptedKeepsGood` | internal/autodev/ledger.go:780-801 | an accepted change of one record leaves a good ledger, further than before |
| `Progress.ExtendedSound` | internal/autodev/ledger.go:780-801 | a further durable state keeps the record of the history sound |
| `Stages.StageMachine.Record` | internal/autodev/orchestrator.go:165-170 | an accepted change is never refused: it is written or the run ends |
| `Stages.StageMachine.StartAttempt` | internal/autodev/stage.go:191-195 | the running record is durable before the attempt is logged as run, which takes that no earlier attempt of this drive forbids it; nothing else changes, and a failure leaves at most the record |
| `Stages.StageMachine.EndAttempt` | internal/autodev/stage.go:240-242 | the outcome takes the running record's place as it is, or nothing changes; it is refused only for an error without text |
| `Stages.StageMachine.RunCoreAttempt` | internal/autodev/stage.go:196-208 | an answer that names another attempt is made a failure of this one, never to be retried; any other is taken as it is |
| `Stages.StageMachine.ConcludeAttempt` | internal/autodev/stage.go:209-250 | a started attempt is drained and verified before its outcome is recorded; the step goes on only with the outcome recorded and the ground truth's answer known |
| `Stages.StageMachine.AttemptOnce` | internal/autodev/stage.go:191-254 | the step goes on only after the core answered this attempt, with one more record that says just what it answered |
| `Stages.StageContext.MayRetry` | internal/autodev/stage.go:255-291 | another attempt follows only an outcome that is not cancelled, and succeeded or is not never to be retried, and after one that asks for a new runner, that runner was put in place |
| `Stages.StageMachine.RunAttempt` | internal/autodev/stage.go:186-292 | an attempt ends the step well exactly with the ground truth's confirmation, as cancelled if it was; another follows only if the ground truth has not confirmed the stage and this attempt allows it |
| `Stages.StageMachine.RunStep` | internal/autodev/stage.go:98-298 | a step ends well only with the ground truth's last answer for it positive; however it ends, it is driven at most once and while durably running, all but its item's attempts is as it was, and every attempt it added but the last had ended, not cancelled, and succeeded or with a retry class other than never; it binds only its own number, and is cancelled exactly if its last attempt was |
| `Stages.StageContext.Settle` | internal/autodev/stage.go:98-172 | before the core is driven, a remote stage is checked for being there already, a resumed one has been denied by the ground truth, and the control stage is run and confirmed |
| `Stages.StageMachine.Supervise` | internal/autodev/stage.go:186-298 | the supervised loop ends only with the ground truth satisfied or with the run's end, and for a resumed stage begins only after the ground truth denied it; however it ends, every attempt it added to the durable history, save the last, had ended, not cancelled, and succeeded or with a retry class other than never |
| `Publisher.ResumeFollows` | internal/autodev/remote.go:175-209 | with whatever toggles, the first remote step driven was left running or follows the recorded stage; if none is left the item is published, with its pull request verified if that is wanted; no wanted issue is passed over but by an item already at its pull request |
| `Publisher.RemotePublisher.DeliverPendingEvents` | internal/autodev/remote.go:146-173 | exactly the unmarked events are reported, in order, each before its mark; a failure reports a prefix of them |
| `Publisher.RemotePublisher.PublishStep` | internal/autodev/remote.go:57-138 | a step ends verified, confirmed by the ground truth, with its event delivered, none of its attempts cancelled; however it ends only this record differs, only this stage was driven, and no number of another stage is bound |
| `Publisher.RemotePublisher.BindStep` | internal/autodev/remote.go:91-112 | only a confirmed step is recorded as verified; a number is bound only where there was none, and the record then agrees with the context |
| `Publisher.RemotePublisher.Publish` | internal/autodev/remote.go:37-140 | success means the sequence is through, every event is delivered, none of its attempts was cancelled and the numbers returned are the recorded ones; with a pull request wanted it is verified and has its number, with an issue wanted it has its number unless the item was at its pull request already; however it ends, an issue or a pull request not wanted is neither driven nor bound, and nothing of another record is; events an earlier run left unmarked are reported again, in order, before anything else |
| `Orchestrator.PipelineForward` | internal/autodev/orchestrator.go:310-323 | the first pipeline stage driven was left running or follows the recorded one; past the last, publishing follows |
| `Orchestrator.SelectByStatus` | internal/autodev/ledger.go:729-755 | exactly the current records of a status, by priority, backlog order and ledger order |
| `Orchestrator.FirstHasTurn` | internal/autodev/orchestrator.go:138-148 | the first pending record picked, with none in progress, is the one whose turn it is: no other is more urgent, or as urgent and earlier in the backlog, or as early and before it in the ledger |
| `Orchestrator.Control.BeginItem` | internal/autodev/orchestrator.go:165-176 | the record is in progress on the branch given, frozen, and otherwise as it was, or nothing changed |
| `Orchestrator.Control.CreateWorktree` | internal/autodev/worktree.go:46-96 | the branch is the recorded one, or a valid one: `auto/` and the slug, or the slug with a number from 2 to 100 |
| `Orchestrator.Control.PipelineStep` | internal/autodev/orchestrator.go:216-260 | a stage ends verified, with its intent durable first unless resumed, and none of its attempts cancelled; however it ends, only this record differs, no remote stage is driven and no number bound |
| `Orchestrator.Control.VerifiedStage` | internal/autodev/orchestrator.go:248-257 | a pipeline stage is recorded as verified only if the ground truth's last answer for it was positive, with the feature directory bound; nothing else changes |
| `Orchestrator.Control.ProcessItem` | internal/autodev/orchestrator.go:153-305 | success records the item as done, none of its attempts cancelled, with a pull request's number if one is wanted, and an issue's unless it came with its pull request under way; however it ends, every other record is left alone and only this one driven |
| `Orchestrator.Control.FinishItem` | internal/autodev/orchestrator.go:280-294 | the record is done and past every stage, and otherwise as it was, or nothing changed |
| `Orchestrator.Control.Drain` | internal/autodev/orchestrator.go:118-137 | the loop ends, for each item done leaves one current item less to do; on success no current item is left pending or in progress, and each one done has its pull request if that is wanted; it works only on records its backlog lists |
| `Orchestrator.Control.Reconcile` | internal/autodev/orchestrator.go:107-117 | a saved reconciliation is a further durable state, in which nothing was worked on; without error every in-progress record is current and every current one listed in the backlog |
| `Orchestrator.Control.Run` | internal/autodev/orchestrator.go:88-138 | one process, ending anywhere, keeps the record of the history sound; every record it drove or changed the status of is listed in its own backlog, and it drives no issue or pull request, and binds no number, that is not wanted |
| `Orchestrator.Operate` | internal/autodev/orchestrator.go:88-138 | any number of processes over one file, each ending anywhere, with any backlogs and toggles: at most one item is in progress in any durable state, and each was begun when none other was and no other current one waiting came before it; no item goes back between any two durable states, no verified stage is driven again, no mandatory stage is skipped, every core attempt was recorded first and under a growing ordinal, and within one drive of a stage runs only after every earlier attempt ended, not cancelled, and succeeded or with a retry class other than never, by a new runner where one asked for it; every event came before its pull request; no change is ever refused but that of an attempt failing with an error without text |
| `Orchestrator.SeededGood` | internal/autodev/ledger.go:598-623 | a reconciled ledger that was saved has at most one item in progress and is no step back |
| `Orchestrator.SeededCurrent` | internal/autodev/ledger.go:598-623 | after a reconciliation without error every in-progress record is current |
| `Orchestrator.OneLess` | internal/autodev/orchestrator.go:123-135 | an item done shrinks the set of current items still to do |
| `Common.TrimIs` | internal/autodev/ledger.go:658-660 | trimming an id takes white space from both ends and nothing else |

## Left out

- Checkpointing: filesystem errors other than a missing backup copy, symbolic links, the order of the reported paths, the digest in backup file names (taken to be injective), line-diff statistics, and a clock read more than once within one call. File size is part of the compared data. The rewind theorem is for runs in which every write, deletion or mode change follows a TrackEdit of its path that had effect (while checkpointing is disabled it has none), writes stamp the clock, and a path is tracked under an id only after that id's snapshot was made; TrackExactIff says what one call that breaks the last rule does. Whether an id is fresh matters only to restarts.
- Scheduler: session locks and their expiry, task execution, delivery of text, panics of a task, and the identity of queue pointers. A task's expiry is read from the environment when it is looked at.
- Gateway: HTTP, event parsing, approval callbacks, the server's own shutdown and its timeouts. The capacity of the task channel is an environment choice at the send.
- Delivery.FileDeliveryStore.Save: writes the records in any order, because loading does not depend on the order they are sorted in; the temporary file and the operating system's file lock are one atomic step.
- Engine: facts, usage, tool streaming, cancellation between messages, and the file behind the stored records. Rewinding a conversation, which truncates the records, is not part of this model. An append either stores its message or fails without storing it.
- Engine.Session: claims the pairing of the context shown only while the model gives every call an id and the thinking replies of the run carry no calls, because BlankIdBreaks is a history the cut breaks otherwise; of a context shown after a round was cut it says what StartRun does, since a later summary may cover the round.
- Compaction: token estimates, thresholds and the words put around a summary; the summary is a user message with the text obtained, the boundary a system message, both without calls.
- Slug: lower-casing is modelled where a slug can tell the difference, which is the letters A to Z and the two other characters that lower to an ASCII letter.
- Ledger: timestamps, JSON, and the schema versions before the current one with their migration; a record still waiting for its binding to a backlog item is part of the model. Item ids and requirement digests are the texts they are made from. Control characters in backlog text and the parsing of the backlog are left out.
- LedgerClass.Ledger.Load: files of older schema versions, which the source migrates, are not modelled; a file of the current version is loaded exactly when it passes the validator.
- SeedTheorems.SeededValidIff: starts from records whose id, when it was derived from a source id, still goes with that source id; EveryLedgerHealthy says that every ledger built from an empty one is such a ledger.
- Core runs, git, gh, the completion gate, reviews, prompts, document contents and workspace files are answers of the environment. GitHub numbers are positive. The outbox starts empty with the item.
- Stages.StageMachine.Supervise: the number of attempts is unbounded in the source; the loop here stops after an arbitrary number, which covers every finite part of a run, and nothing is claimed about an endless one.
- Orchestrator.SelectByStatus: sorts by insertion, where the source calls a stable library sort; the contract determines the result.
- Orchestrator.Control.CreateWorktree: which directories and branches are free, and what is in them, is left to the environment.
- The stage hook run before a first attempt, and the seam for another pipeline, are not used by the fixed pipeline and are left out.
- Approval, interaction, child runtimes, MCP, configuration, providers and presentation are not part of this model.
