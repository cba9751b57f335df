# A verified model of the store's migration, election and placement

This project models the parts of a replicated in-memory key-value store where several
actors change shared state at once, and proves what those parts are for. It is written in
Dafny 4.11; `dafny verify dfyconfig.toml` checks all of it.

The system has managers, workers and clients. Managers elect a leader by unanimous vote;
the leader maps 4096 partitions to workers; workers hold the records of their partitions in
memory, last write wins with tombstones, and move partitions between each other when the
mapping changes, while clients keep writing; clients follow the leader's table to decide
whom to read from and write to.

## How the model is laid out

| file | content |
|---|---|
| `Common.dfy` | identifiers, output queues, ascending scans of an ordered map |
| `RuntimeStore.dfy`, `RuntimeStoreClass.dfy` | the value of a worker's store; the store as a class whose methods update it in place |
| `StableRevision.dfy` | the writer-guard protocol at the level of single atomic operations |
| `Convergence.dfy` | last write wins, over sequences of writes |
| `SyncModel.dfy` | messages, per-recipient bookkeeping, and a recipient's job cut at every call into the store |
| `Coverage.dfy` | what a recipient has of a sender's records: applied, journaled, covered by a batch |
| `Migration.dfy` | the migration of a partition as a state machine: clients, expiry, the service loop, the network and the recipients interleave between any two store calls |
| `MigrationSteps.dfy`, `MigrationCalls.dfy`, `MigrationTicks.dfy` | every step keeps the invariant |
| `MigrationTheorems.dfy`, `MigrationLimits.dfy` | what follows for every run, and runs that show where it ends |
| `Progress.dfy` | an undisturbed migration ends |
| `Tick.dfy`, `WorkerSync.dfy`, `Receiving.dfy` | the worker's service as a class, loop by loop, proved against what a tick, a batch and an acknowledgement should do |
| `TickRuns.dfy` | the class's tick is one of the state machine's runs |
| `Election.dfy` | handlers as values, runs of any number of managers, workers and clients, theorems |
| `Placement.dfy`, `Topology.dfy` | placement arithmetic; bookkeeping across membership changes; completion marks |
| `ElectionProgress.dfy` | what elections get done, and that followers never go back |
| `ManagerService.dfy`, `Broadcast.dfy` | the manager's service as a class; its table on the way to those who follow it |
| `Client.dfy` | the client's topology, reads and writes |

Code that changes state in place is modelled by classes and loops; each method's contract
ties the new state to a function of the old one, and the theorems are about those functions
and the state machines over them.

Three modelling decisions carry the migration. The sender tells acknowledgements apart by
sender and greatest key alone, and every batch ever sent stays deliverable and every
acknowledgement of a delivered batch stays receivable, across runs. A step of a run may
*rely on* some batches: while the snapshot is paged, those of the current run; while the
journal is replayed, those sent for the stretch being confirmed that reach its end. A run
starts *clean* and stays so until a step is confirmed by the acknowledgement of any other
batch. A tick is *calm* when no writer is inside the partition as it begins and
nobody else touches the partition before it ends. What a recipient has *applied* is the
newest version of each key that reached it in a batch; what it stores may differ only by
newer writes and by its own expiry.

Where code and documentation disagree the code is followed: the repository's README.md says
at line 308 that deletes leave no tombstones, and the store keeps them
(`crates/no-sql-store/src/worker/runtime_store.rs`, lines 17 and 180 to 188).

## Model

| member | source | states |
|---|---|---|
| `MigrationTheorems.CompletionIsSafe` | crates/no-sql-store/src/worker/service/partitions.rs:158-275 | over any number of runs, with client writes, expiry, drops and re-creations, pruning, and acknowledgements and batches of this and of earlier runs lost, repeated, delayed or reordered: a run that is clean at that moment is declared complete only when no writer is inside and the recipient has applied, for each key the last scan found stored, a mutation at least as new, and still stores one unless it expired the key itself |
| `MigrationTheorems.EmptyStartsCompleteOnlyWhenEmpty` | crates/no-sql-store/src/worker/service/partitions.rs:166-188 | a run that found nothing to send completes only if nothing is stored at that very moment, whatever was written, expired, dropped or re-created since it looked: the second look at the revision notices every write in between |
| `MigrationTheorems.OrderlyCompletionIsSafe` | crates/no-sql-store/src/worker/service/partitions.rs:158-275 | when no waiting run is resent or dropped and no batch is acknowledged twice, every completion is safe, with no further condition and over any number of runs: acknowledgements are then in step by themselves |
| `MigrationTheorems.DistinctKeysMakeCompletionSafe` | crates/no-sql-store/src/worker/service/partitions.rs:12-31 | on any network, with any resends and any number of runs, completion is safe for a recipient if the sender, before it sends, checks that the batch's greatest key is not that of a batch it must not rely on |
| `MigrationTheorems.ConfusedExactlyByEqualKeys` | crates/no-sql-store/src/worker/service/partitions.rs:19-28 | in every reachable state, an acknowledgement makes a clean run unclean if and only if the run waits, the batch acknowledged is not one to rely on, and its greatest key is the one waited for |
| `MigrationTheorems.DeclarationsStayTrue` | crates/no-sql-store/src/worker/service/partitions.rs:240-275 | in every later state, a recipient once declared complete by a clean run has applied, and still stores unless it expired the key itself, a version at least as new of everything the last scan saw |
| `MigrationTheorems.SnapshotAcksSurviveBadNetwork` | crates/no-sql-store/src/worker/service/partitions.rs:199-225 | with messages lost, repeated, delayed or reordered and timeouts resending, a confirmation at key K in the snapshot phase covers every stored key up to K (applied at least as new, or journaled above the start revision), unless an acknowledgement of an earlier run was taken for one of this run; a recipient's first run needs no such condition |
| `MigrationTheorems.PruningKeepsNeededHistory` | crates/no-sql-store/src/worker/service/partitions.rs:94-114 | every recipient with a run in progress still finds every entry journaled above its own cursor since the partition was last created, with its key |
| `MigrationTheorems.HandOverIsSafe` | crates/no-sql-store/src/worker/service/partitions.rs:67-95 | an undisturbed tick reaches erasure only if every recipient it had to serve was declared complete on it; those whose run was clean dominate every record about to be erased |
| `MigrationTheorems.OrderlyHandOverIsSafe` | crates/no-sql-store/src/worker/service/partitions.rs:342-358 | when no waiting run is resent or dropped and no batch is acknowledged twice, an undisturbed tick erases only when each served owner completed on it and dominates every erased record |
| `MigrationTheorems.DistinctKeysMakeHandOverSafe` | crates/no-sql-store/src/worker/service/partitions.rs:342-358 | the same for an owner whose batches the sender can tell apart, on any network |
| `MigrationTheorems.RepliesNameTheAwaitedKey` | crates/no-sql-store/src/worker/service/partitions.rs:501-538 | in every reachable state, any answer to the outstanding batch names this partition alone with exactly the key the sender waits for: batches never leave their partition |
| `MigrationTicks.StepKeepsInv` | crates/no-sql-store/src/worker/service/partitions.rs:67-115 | every step of client, expiry, service loop, network and recipient keeps the migration invariant: each stored key is above the cursor, journaled above the run's revision, in the outstanding batch, or already dominated |
| `MigrationTicks.RunKeepsInv` | crates/no-sql-store/src/worker/service/partitions.rs:33-65 | so does every run |
| `MigrationCalls.StoreCallStep` | crates/no-sql-store/src/worker/service/partitions.rs:191-316 | each store call of a recipient's job keeps the invariant, whatever happened since the previous call |
| `MigrationSteps.WriteIsOutside` | crates/no-sql-store/src/worker/runtime_store.rs:229-240 | a client write between any two store calls keeps what every run has established, because it journals what it changes |
| `MigrationSteps.ExpiryLeavesIsOutside` | crates/no-sql-store/src/worker/runtime_store.rs:49-58 | so does a writer that takes a revision without journaling |
| `MigrationSteps.DropIsOutside` | crates/no-sql-store/src/worker/runtime_store.rs:168-174 | so does dropping the emptied partition, because revisions are counted store-wide |
| `MigrationSteps.ConfirmedRun` | crates/no-sql-store/src/worker/service/partitions.rs:12-31 | the acknowledgement of a batch to rely on confirms soundly: any batch of the run while the snapshot is paged, and while the journal is replayed any batch sent for the stretch being confirmed that reaches its end |
| `MigrationSteps.RepliesName` | crates/no-sql-store/src/worker/service/partitions.rs:523-538 | whatever was sent to a recipient, however long ago, is answered with this partition alone and the batch's greatest key |
| `MigrationSteps.DeliverStep` | crates/no-sql-store/src/worker/service/partitions.rs:501-538 | a batch delivered once or often, in order or not, keeps the invariant |
| `MigrationTicks.PruneStep` | crates/no-sql-store/src/worker/runtime_store.rs:157-166 | pruning up to the least cursor keeps the invariant for all concurrent recipients |
| `MigrationLimits.ResendsCanCompleteEarly` | crates/no-sql-store/src/worker/service/partitions.rs:298-315 | a concrete run, every batch delivered and acknowledged once but one resent, that declares completion while the recipient holds an older version than the last scan saw |
| `MigrationLimits.EarlierRunsCanCompleteEarly` | crates/no-sql-store/src/worker/service/partitions.rs:12-31 | a concrete run in which the second acknowledgement of a resent batch of a completed run is taken for the first batch of the next run, with the same outcome |
| `MigrationLimits.DroppedRunsCanCompleteEarly` | crates/no-sql-store/src/worker/service/partitions.rs:75-77 | a concrete run without any resend in which the recipient disconnects while it is waited for, comes back, and its late acknowledgement does the same |
| `MigrationLimits.WriterInFlightCanCostRecords` | crates/no-sql-store/src/worker/service/partitions.rs:342-358 | a concrete run in which an expiry writer is inside when the tick starts and the worker is about to erase a record that no recipient has: the undisturbed-tick hypothesis cannot be dropped |
| `Coverage.PageCovers` | crates/no-sql-store/src/worker/service/partitions.rs:371-397 | a page of records covers every stored key up to its last one |
| `Coverage.NoPageSettles` | crates/no-sql-store/src/worker/service/partitions.rs:214-224 | an empty page means that everything stored is applied or journaled above the start revision |
| `Coverage.ChangesCarry` | crates/no-sql-store/src/worker/service/partitions.rs:399-430 | a batch of journal entries carries every key journaled up to its last revision |
| `Coverage.DrainedDominates` | crates/no-sql-store/src/worker/service/partitions.rs:266-274 | an exhausted journal means that the recipient dominates every record |
| `Coverage.AppliedSettles` | crates/no-sql-store/src/worker/service/partitions.rs:24-28 | a batch that was applied settles every key it covers |
| `TickRuns.JobIsRun` | crates/no-sql-store/src/worker/service/partitions.rs:117-156 | a recipient's job run without interruption is a run of store calls of the interleaved model, ending in the same bookkeeping |
| `TickRuns.ServesAreRun` | crates/no-sql-store/src/worker/service/partitions.rs:79-92 | serving all recipients, in any order, is such a run |
| `TickRuns.TickIsRun` | crates/no-sql-store/src/worker/service/partitions.rs:67-115 | a whole tick as the worker performs it is such a run, from one idle moment to the next: the theorems about runs apply to the worker's own ticks |
| `WorkerSync.TickedIsRun` | crates/no-sql-store/src/worker/service/partitions.rs:33-65 | the tick contract of the worker class, partition by partition, is met by a run of the interleaved model |
| `WorkerSync.AcknowledgedIsStep` | crates/no-sql-store/src/worker/service/partitions.rs:12-31 | the class takes an acknowledgement exactly as the interleaved model does |
| `Progress.ConfirmedTickAdvances` | crates/no-sql-store/src/worker/service/partitions.rs:191-275 | with no writer in flight, a confirmed step completes the run or sends a batch with strictly fewer keys and journal entries left |
| `Progress.DrainingAdvances` | crates/no-sql-store/src/worker/service/partitions.rs:399-416 | skipping journal stretches with no live record terminates, and ends in completion or a batch with less left |
| `Progress.PruningKeepsRemaining` | crates/no-sql-store/src/worker/service/partitions.rs:97-109 | pruning up to a run's cursor takes away nothing the run still has to replay |
| `Progress.TicksToComplete` | crates/no-sql-store/src/worker/service/partitions.rs:191-275 | an undisturbed run with every batch acknowledged completes within as many ticks as it has keys and entries left, plus one |
| `Progress.TimeoutsResend` | crates/no-sql-store/src/worker/service/partitions.rs:277-316 | a waiting run is left alone until it times out; then the page after the last confirmed key, or the first live stretch after the last confirmed revision, is sent again and its greatest key waited for, while what is being confirmed stays the same |
| `Progress.EmptyPartitionsCompleteAtOnce` | crates/no-sql-store/src/worker/service/partitions.rs:166-188 | a partition without records completes at once and sends nothing, unless a writer is inside |
| `TickModel.JournalIsPrunedExactly` | crates/no-sql-store/src/worker/service/partitions.rs:94-114 | after a tick a journal entry remains if and only if some run in progress still needs it or, with none in progress, it is above the stable revision |
| `SyncModel.JobShrinks` | crates/no-sql-store/src/worker/service/partitions.rs:399-416 | every store call of a job lowers its rank or the number of journal entries left to read |
| `SyncModel.AcknowledgementRoundTrip` | crates/no-sql-store/src/worker/service/partitions.rs:418-449 | for a batch of one partition the reply names exactly that partition and exactly the key being waited for, and each mutation is rebuilt unchanged |
| `SyncModel.ReplyNamesOnePartition` | crates/no-sql-store/src/worker/service/partitions.rs:523-532 | any reply to a non-empty batch of one partition is that partition with the batch's greatest key |
| `SyncModel.MaxKeyIsGreatest` | crates/no-sql-store/src/worker/service/partitions.rs:418-418 | the key waited for is in the batch and no key of the batch is above it |
| `SyncModel.OpeningFinishes` | crates/no-sql-store/src/worker/service/partitions.rs:158-189 | what starting a run undisturbed comes to, in closed form |
| `SyncModel.DrainingFinishes` | crates/no-sql-store/src/worker/service/partitions.rs:240-275 | continuing with the journal undisturbed sends its first stretch with a live record, or settles |
| `SyncModel.RedrainingFinishes` | crates/no-sql-store/src/worker/service/partitions.rs:298-315 | a timed-out journal batch is resent from the confirmed revision with the pending revision kept |
| `Receiving.ReceivingMerges` | crates/no-sql-store/src/worker/service/partitions.rs:501-521 | a received batch merges into each partition exactly its own records, in order |
| `Receiving.ReceivingJournals` | crates/no-sql-store/src/worker/runtime_store.rs:49-58 | each received record is journaled under its own store-wide revision, and no other entry changes |
| `Receiving.StoredAt` | crates/no-sql-store/src/worker/service/partitions.rs:508-521 | applying a batch to the whole store is applying it to each partition separately |
| `Receiving.ReplyToIsReply` | crates/no-sql-store/src/worker/service/partitions.rs:523-538 | the answer names every partition of the batch with the greatest key applied to it, and no other |
| `Receiving.AbsorbingMerges` | crates/no-sql-store/src/worker/service/partitions.rs:501-538 | the recipients of the interleaved model store what receiving a batch stores |
| `Convergence.Convergent` | crates/no-sql-store/src/worker/runtime_store.rs:229-240 | the same mutations in any two orders, with any repetitions and no two different ones tied, give equal stores |
| `Convergence.ReorderingConverges` | crates/no-sql-store/src/worker/runtime_store.rs:180-188 | in particular any permutation does |
| `Convergence.ReapplyingChangesNothing` | crates/no-sql-store/src/worker/service/partitions.rs:508-521 | re-applying any sequence of batches changes nothing, ties included |
| `Convergence.NeverOlder` | crates/no-sql-store/src/worker/runtime_store.rs:185-187 | a stored mutation, a tombstone in particular, is never replaced by an older one |
| `Convergence.NewestWins` | crates/no-sql-store/src/worker/runtime_store.rs:235-239 | what a key ends up with: the last of the newest writes, unless something strictly newer was stored before |
| `Convergence.TwoOrdersAgree` | crates/no-sql-store/src/worker/runtime_store.rs:235-239 | two writes to a key commute if and only if they are the same, differ in version, or both lose to what is stored |
| `StableRevision.StableRevisionIsSound` | crates/no-sql-store/src/worker/runtime_store.rs:74-82 | over every interleaving of the writers' single atomic steps: a returned revision r was the revision at an instant inside the call with no writer active, all numbers taken by then finished and journaled, and all later ones above r; when the call ended no writer was active either; nothing is returned only if a writer was inside |
| `StableRevision.RunKeepsInv` | crates/no-sql-store/src/worker/runtime_store.rs:49-82 | the invariant of the writer-guard protocol behind it, over every run |
| `StoreModel.RecordPageExact` | crates/no-sql-store/src/worker/runtime_store.rs:104-120 | a record page holds exactly the stored keys of the stretch it covers, ascending, with what is stored, no more than asked for, and all there are if that is fewer |
| `StoreModel.ChangePageExact` | crates/no-sql-store/src/worker/runtime_store.rs:130-155 | a journal page is found while entries are left, and accounts for every journaled live key up to its last revision |
| `StoreModel.ChangePageStored` | crates/no-sql-store/src/worker/runtime_store.rs:145-153 | everything in a journal page is what is stored now |
| `Ordered.PageUnique` | crates/no-sql-store/src/worker/runtime_store.rs:113-119 | an ascending scan is determined by what it promises |
| `Ordered.TakeAbove` | crates/no-sql-store/src/worker/runtime_store.rs:113-119 | the scan loop yields that page |
| `RuntimeStores.RuntimeStore.Put` | crates/no-sql-store/src/worker/runtime_store.rs:229-240 | one complete write: last write wins, journaled under the next revision, other partitions untouched |
| `RuntimeStores.RuntimeStore.DeleteAt` | crates/no-sql-store/src/worker/runtime_store.rs:180-188 | likewise with a tombstone |
| `RuntimeStores.RuntimeStore.GetVersioned` | crates/no-sql-store/src/worker/runtime_store.rs:190-219 | a read answers a tombstone, a record without a lifetime and one whose lifetime is not over, changing nothing; a record whose lifetime is over is answered as absent and removed, with a new revision and no journal entry, and an emptied partition is dropped |
| `RuntimeStores.RuntimeStore.GetPartitionMutations` | crates/no-sql-store/src/worker/runtime_store.rs:104-120 | the record page after a key |
| `RuntimeStores.RuntimeStore.GetPartitionChanges` | crates/no-sql-store/src/worker/runtime_store.rs:130-155 | the journal page after a revision |
| `RuntimeStores.RuntimeStore.PrunePartitionChanges` | crates/no-sql-store/src/worker/runtime_store.rs:157-166 | exactly the entries above the given revision remain |
| `RuntimeStores.RuntimeStore.RemoveExpired` | crates/no-sql-store/src/worker/runtime_store.rs:242-270 | every partition keeps exactly its tombstones, its records without a lifetime and those whose lifetime is not over, as they were, with its journal, or is dropped when none is left; each removal takes one revision |
| `WorkerSync.Worker.SyncPage` | crates/no-sql-store/src/worker/service/partitions.rs:371-397 | sends the page after a key and answers its last key, or does nothing |
| `WorkerSync.Worker.FindChanges` | crates/no-sql-store/src/worker/service/partitions.rs:408-416 | the first journal stretch after a revision with a live record |
| `WorkerSync.Worker.SyncChanges` | crates/no-sql-store/src/worker/service/partitions.rs:399-430 | sends it and answers its last revision and greatest key |
| `WorkerSync.Worker.StartSync` | crates/no-sql-store/src/worker/service/partitions.rs:158-189 | ends as the job of a recipient without a run ends |
| `WorkerSync.Worker.ContinueConfirmedSync` | crates/no-sql-store/src/worker/service/partitions.rs:191-238 | ends as the job of a confirmed run ends |
| `WorkerSync.Worker.ContinueChanges` | crates/no-sql-store/src/worker/service/partitions.rs:240-275 | ends as a journal replay ends |
| `WorkerSync.Worker.RetryTimedOutSync` | crates/no-sql-store/src/worker/service/partitions.rs:277-316 | ends as the job of an unconfirmed run ends, timed out or not |
| `WorkerSync.Worker.SyncPartitionToRecipient` | crates/no-sql-store/src/worker/service/partitions.rs:117-156 | changes this recipient's run and output as its job says, and nothing else |
| `WorkerSync.Worker.RecordCompletedSync` | crates/no-sql-store/src/worker/service/partitions.rs:318-340 | marks the recipient if this worker owns the partition, and tells the leader if there is one |
| `WorkerSync.Worker.ServeRecipients` | crates/no-sql-store/src/worker/service/partitions.rs:79-92 | serves each recipient exactly once, each job starting from the run the recipient had before the tick |
| `WorkerSync.ServedRuns` | crates/no-sql-store/src/worker/service/partitions.rs:79-92 | the order in which recipients are served does not matter to their runs |
| `WorkerSync.ServedMarks` | crates/no-sql-store/src/worker/service/partitions.rs:89-91 | the completions of a tick are marked one by one, as a run of completions |
| `WorkerSync.Worker.LeastCursor` | crates/no-sql-store/src/worker/service/partitions.rs:97-105 | the least journal position the runs still need, or none when there is no run |
| `WorkerSync.Worker.PruneJournal` | crates/no-sql-store/src/worker/service/partitions.rs:94-114 | forgets confirmed runs and prunes to the least cursor, or to the stable revision when no run is left |
| `WorkerSync.Worker.SyncPartition` | crates/no-sql-store/src/worker/service/partitions.rs:67-115 | a partition's part of a tick: disconnected recipients dropped, targets served, confirmed runs forgotten, journal pruned, all else unchanged |
| `WorkerSync.Worker.RemoveCompletedSyncsAndObsoletePartitions` | crates/no-sql-store/src/worker/service/partitions.rs:342-358 | only entries with a run in progress stay; exactly the unowned partitions among the others are erased |
| `WorkerSync.Worker.SyncPartitions` | crates/no-sql-store/src/worker/service/partitions.rs:33-65 | a whole tick, partition by partition: each ends as planned from the state at its start, an entry stays only with a run in progress, a partition is erased exactly when it had an entry, no run is left and it is not owned, an owned partition or one with a run in progress loses no record, and batches, notices and marks are exactly those of the recipients planned, each served once |
| `WorkerSync.AllSaidExactly` | crates/no-sql-store/src/worker/service/partitions.rs:33-65 | what a whole tick sends, from the plans alone: exactly the batch of each recipient that gets one and the notices of the completed |
| `WorkerSync.NoticesAreCounted` | crates/no-sql-store/src/worker/service/partitions.rs:333-339 | a known leader is told of each completed recipient once |
| `WorkerSync.Worker.HandleSyncBatch` | crates/no-sql-store/src/worker/service/partitions.rs:501-538 | applies the batch to the store record by record and answers with the greatest key of each partition |
| `WorkerSync.Worker.HandleSyncBatchResponse` | crates/no-sql-store/src/worker/service/partitions.rs:12-31 | confirms exactly the sender's runs that wait for the key named |
| `WorkerSync.Worker.HandleLeader` | crates/no-sql-store/src/worker/service/election.rs:5-35 | follows a later epoch's leader if it is a known manager, and otherwise asks the other managers |
| `WorkerSync.Worker.HandleClusterState` | crates/no-sql-store/src/worker/service/cluster_state.rs:6-72 | a worker without an epoch, at an earlier one, or at this one with this leader takes epoch, leader and table, a different table gets a later stamp, and unknown nodes are to be connected to; any other worker changes nothing |
| `ElectionTheorems.OneWinnerPerEpoch` | crates/no-sql-store/src/manager/service/election.rs:22-70 | in every run, two different managers that each knew the other as a manager when they won did not win the same epoch, although a voter may change its vote within an epoch |
| `ElectionTheorems.BirthPrecedes` | crates/no-sql-store/src/manager/service/election.rs:106-217 | the ordering argument: a winner known to another winner of its epoch voted for it after that election's birth and before the birth of its own |
| `ElectionTheorems.TwoWinnersWithoutMutualKnowledge` | crates/no-sql-store/src/manager/service/election.rs:132-146 | a concrete run with two winners of one epoch that do not know each other: the hypothesis cannot be dropped |
| `ElectionTheorems.FollowedLeadersWon` | crates/no-sql-store/src/manager/service/election.rs:81-93 | in every reachable state, an epoch and leader held by a manager, worker or client name a manager that won that epoch |
| `ElectionTheorems.LeaderAgreement` | crates/no-sql-store/src/manager/service/cluster_state.rs:15-23 | when winners know each other, no two participants at one epoch follow different leaders |
| `ElectionTheorems.WinnersKeepTheirFloor` | crates/no-sql-store/src/manager/service/election.rs:145-160 | a manager that won epoch e never again holds a lower epoch and never again votes for e or lower |
| `ElectionTheorems.ManagersStayInShape` | crates/no-sql-store/src/manager/service/partitions.rs:54-62 | at most one election is kept, a leader is held only with an epoch, and the leader's broadcast never lacks either |
| `ElectionProgress.UncontestedElectionSucceeds` | crates/no-sql-store/src/manager/service/election.rs:22-217 | an election that is due and uncontested succeeds: every other manager is asked for the next epoch, an open voter answers with a vote, the votes in any order elect, and a voter told so follows the winner at that epoch |
| `ElectionProgress.AsksForTheNextEpoch` | crates/no-sql-store/src/manager/service/election.rs:22-70 | when an election is due, and only then, every other manager is asked once, for the least epoch above the candidate's own and above all it keeps elections for |
| `ElectionProgress.VotesForLaterEpochsAndEarlierElections` | crates/no-sql-store/src/manager/service/election.rs:178-208 | a manager behind the epoch votes when its elections are all for earlier epochs, or when its last one began later |
| `ElectionProgress.RefusesOtherwise` | crates/no-sql-store/src/manager/service/election.rs:186-216 | any other request changes nothing, and is answered only with the candidate that has the vote for that epoch |
| `ElectionProgress.UnanimityElects` | crates/no-sql-store/src/manager/service/election.rs:129-160 | the approval that completes the set of all other managers elects, in whatever order they came, and none before it |
| `ElectionProgress.FollowersNeverGoBack` | crates/no-sql-store/src/worker/service/cluster_state.rs:15-23 | over every run, no worker and no client goes back to an earlier epoch or changes its leader within one |
| `ElectionRuns.StepKeepsInv` | crates/no-sql-store/src/manager/service/election.rs:22-217 | every message, timer, connection and disconnection keeps the election invariant |
| `ElectionRuns.RunKeepsInv` | crates/no-sql-store/src/manager/service/election.rs:22-217 | so does every run |
| `ManagerService.Service.StartElectionIfNeeded` | crates/no-sql-store/src/manager/service/election.rs:22-70 | starts an election for a later epoch than any known and asks every other manager once, exactly when it has no leader, knows an epoch and another node, and its last election is old |
| `ManagerService.Service.HandleVoteRequest` | crates/no-sql-store/src/manager/service/election.rs:178-217 | votes for a later epoch or an earlier-born election, repeats an earlier vote for the same epoch, or stays silent |
| `ManagerService.Service.HandleVoteResponse` | crates/no-sql-store/src/manager/service/election.rs:106-176 | counts an approval of its election and wins when every other manager has approved; asks around about an unknown leader |
| `ManagerService.Service.HandleLeader` | crates/no-sql-store/src/manager/service/election.rs:72-104 | drops elections for a later epoch and follows its leader if it is a known manager |
| `ManagerService.Service.HandleClusterState` | crates/no-sql-store/src/manager/service/cluster_state.rs:6-79 | a manager without an epoch, at an earlier one, or at this one with this leader takes epoch, leader, table and membership, unknown managers are to be connected to and unknown workers join; any other manager changes nothing |
| `ManagerService.Service.HandleGetClusterState` | crates/no-sql-store/src/manager/service/cluster_state.rs:81-121 | answers with its whole state exactly when it has an epoch and a leader |
| `ManagerService.Service.HandleRemoveOldPartition` | crates/no-sql-store/src/manager/service/cluster_state.rs:123-150 | takes exactly that replica off exactly that partition's old replicas and leaves no empty entry; the leader passes it on to every node but the two involved and itself |
| `ManagerService.Service.HandleNodeDisconnected` | crates/no-sql-store/src/manager/service/connection.rs:5-14 | forgets the node, and the leader if it was that node or only one node is left |
| `ManagerService.Service.HandleNewConnection` | crates/no-sql-store/src/manager/service/connection.rs:16-53 | adds the node, and asks a new manager for its state unless it leads itself |
| `ManagerService.Service.ForgetSilentLeader` | crates/no-sql-store/src/manager/service/heartbeat.rs:28-43 | forgets another manager as leader and never itself |
| `ManagerService.Service.WorkerPartitions` | crates/no-sql-store/src/manager/service/partitions.rs:6-52 | the leader recalculates exactly when the set of workers changed since the last calculation, and then tells every other node once |
| `Broadcast.TellWorker` | crates/no-sql-store/src/manager/service/partitions.rs:34-46 | the table the leader sends after a recalculation, delivered to a worker that follows it at its epoch, makes the two tables equal, whether or not the worker has taken one from it before |
| `Broadcast.TellManager` | crates/no-sql-store/src/manager/service/cluster_state.rs:15-26 | the same for another manager |
| `ManagerService.CalcReplicaIndex` | crates/no-sql-store/src/manager/service/partitions.rs:166-182 | the index loop is (master - replica) mod n |
| `ManagerService.PlacePartition` | crates/no-sql-store/src/manager/service/partitions.rs:113-134 | the inner loop yields the master and the replicas at those indices |
| `ManagerService.PlaceAll` | crates/no-sql-store/src/manager/service/partitions.rs:106-135 | the nested loops yield the mapping of all partitions |
| `ManagerService.FindNewcomers` | crates/no-sql-store/src/manager/service/partitions.rs:137-161 | new replicas of each remapped partition: its new owners less its previous ones; other entries stay |
| `ManagerService.CopyCurrentMappingToOld` | crates/no-sql-store/src/manager/service/partitions.rs:85-104 | current owners join the old replicas, departed workers leave them, and empty entries go |
| `ManagerService.SortWorkers` | crates/no-sql-store/src/manager/service/partitions.rs:13-30 | the workers in ascending order |
| `Placement.PlacementSpreads` | crates/no-sql-store/src/manager/service/partitions.rs:112-135 | each partition has exactly min(factor, n) distinct owners |
| `Placement.MasterAmongReplicas` | crates/no-sql-store/src/manager/service/partitions.rs:119-133 | the master is among the replicas if and only if the factor exceeds the number of workers |
| `Placement.MastersAreBalanced` | crates/no-sql-store/src/manager/service/partitions.rs:113-114 | the numbers of partitions mastered by two workers differ by at most one |
| `Placement.OwnersAreIndexed` | crates/no-sql-store/src/manager/service/partitions.rs:112-135 | the owners are the workers at the indices of the first factor places |
| `Topology.NoHolderForgotten` | crates/no-sql-store/src/manager/service/partitions.rs:85-104 | over any run of recalculations and releases, whoever has had a partition, stayed and was not released is still an owner or an old replica |
| `Topology.TableIsExact` | crates/no-sql-store/src/manager/service/partitions.rs:85-164 | over any run of recalculations and releases, the owners of a partition are those of the last recalculation that found a worker, and its old replicas are exactly the owners and old replicas that recalculation found present, less those released since |
| `Topology.RecalculationKeepsHolders` | crates/no-sql-store/src/manager/service/partitions.rs:85-164 | a recalculation makes exactly the surviving holders old replicas |
| `Topology.ReleaseKeepsHolders` | crates/no-sql-store/src/manager/service/cluster_state.rs:131-135 | a release takes exactly the released worker off the old replicas of exactly that partition, leaves no empty entry and leaves the rest of the table alone |
| `Topology.ClientsReachEveryHolder` | crates/no-sql-store-client/src/lib.rs:375-401 | so every such holder is among the read targets of a client with the latest table |
| `Topology.PlanCoversEveryOwner` | crates/no-sql-store/src/worker/service/partitions.rs:451-499 | after a recalculation with a surviving holder, new replicas are the owners less the previous owners, and each connected owner is the holder itself or is served by it |
| `Topology.WhoDoesNotServe` | crates/no-sql-store/src/worker/service/partitions.rs:451-499 | no worker serves itself or anybody not connected; nobody serves who neither has had nor has the partition, or is not an old replica while one is left, or is itself a newcomer |
| `CompletionMarks.MarksAreExact` | crates/no-sql-store/src/worker/service/state.rs:29-50 | below saturation, the recipients counted as synchronised are exactly those completed since the table last changed |
| `CompletionMarks.ChangeClearsMarks` | crates/no-sql-store/src/worker/service/cluster_state.rs:26-30 | a changed table makes everybody eligible again if and only if the stamp is not saturated, or nobody was marked |
| `CompletionMarks.CompletedRecipientsRest` | crates/no-sql-store/src/worker/service/partitions.rs:482-492 | while no old replica is left, a connected newcomer is served if and only if it was not completed since the last change |
| `ClientModel.FoldAnswers` | crates/no-sql-store-client/src/lib.rs:234-252 | folding the answers keeps the first of the newest records, and succeeds if and only if somebody answered |
| `ClientModel.Get` | crates/no-sql-store-client/src/lib.rs:212-258 | the master's record settles a read; otherwise the newest fallback record does; it fails if the master fails or every fallback does |
| `ClientModel.Read` | crates/no-sql-store-client/src/lib.rs:212-258 | a read over the stores: the value of what the master stores; if it has nothing, of a newest mutation over the fallback stores; a tombstone reads as absent either way, and so does a key nobody stores |
| `ClientModel.WritesReachEveryOwner` | crates/no-sql-store-client/src/lib.rs:403-424 | a write goes to the owners and nobody else, and once acknowledged every owner stores at least its version, whatever else arrives |
| `ClientModel.KnownTopology.ApplyState` | crates/no-sql-store-client/src/lib.rs:303-343 | takes a state unless it is of an earlier epoch or of another leader of the same epoch; nodes without an address are passed over, an update without nodes keeps the known ones, and rejected states change nothing |
| `ClientModel.ReadsNeverGoBack` | crates/no-sql-store-client/src/lib.rs:403-424 | under a fixed topology, once every owner has acknowledged a write, the master answers every read from a mutation of at least its version, whatever else arrives in whatever order |
| `ClientModel.FallbackReadsShowTheNewest` | crates/no-sql-store-client/src/lib.rs:229-254 | when every fallback answers, the record folded out of the answers is a newest one over their stores, and none only if none of them stores the key |

## Left out

- MigrationTheorems.CompletionIsSafe: for runs confirmed by an acknowledgement of a batch they must not rely on nothing is claimed, because the claim is false there: MigrationLimits.ResendsCanCompleteEarly, EarlierRunsCanCompleteEarly and DroppedRunsCanCompleteEarly are such runs. When that happens is exact (MigrationTheorems.ConfusedExactlyByEqualKeys), and two conditions that rule it out are proved enough (no resend, no dropped run and single acknowledgements; distinct greatest keys); that an unclean run is always incomplete is not claimed, since a confused acknowledgement may happen to do no harm.
- MigrationTheorems.HandOverIsSafe: covers recipients that the tick had to serve; recipients that left the cluster, and ticks with a writer in flight, are outside it, and MigrationLimits.WriterInFlightCanCostRecords shows why for the latter.
- MigrationTheorems.DeclarationsStayTrue: a recipient that later erases its own copy of the partition is not modelled; of what recipients lose, only expired keys are.
- ElectionTheorems.OneWinnerPerEpoch: needs the winners to know each other and a manager's own election timestamps not to repeat; ElectionTheorems.TwoWinnersWithoutMutualKnowledge shows that the first cannot be dropped.
- CompletionMarks.MarksAreExact: below saturation of the 64-bit stamp only; CompletionMarks.ChangeClearsMarks says exactly what happens at saturation.
- ClientModel.ReadsNeverGoBack: no expiry and no removal of the partition, as these take records away.
- WorkerSync.Worker.SyncPartitions: runs to its end without interruption; clients acting between its store calls are the subject of Migration, and TickRuns connects the two.
- ManagerService.Service.HandleClusterState: a snapshot is a map from nodes to their kinds, so a list naming one node twice is not modelled; addresses and heartbeat times are not carried.
- Old replicas being released only after all their recipients finished: the worker reports each completed recipient by itself, so the claim does not hold of the code.
- Newest-wins among snapshots of one epoch from one leader: they carry no version, so there is nothing to compare.
- Overflow of 64-bit revisions, epochs, keys and timestamps: unbounded numbers, except for the saturating completion stamp; the subtraction of times in the timeout test is a nondeterministic choice.
- Clocks, random timeouts and heartbeat times: nondeterministic inputs; only the step that forgets a silent leader is kept of the heartbeats.
- Scans of the store racing with an expiry removal entry by entry: each scan is one step, and removals fall between scans.
- Writes by several clients to one partition at once: the store holds the partition exclusively for a put or a delete, so each is one step; the finer interleavings of writers are modelled in StableRevision alone.
- The order in which hash maps and sets are walked: any order, with what does not depend on it proved not to.
- Transport, sessions, streams, signal handling, command line, configuration, message formats, address handling, client connections and retries: plumbing around the modelled steps; messages are sets or sequences that may be lost, repeated, delayed and reordered.
- Key hashing and identifier parsing: keys and node identifiers are numbers.
