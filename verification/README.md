# Baymax runtime: a Dafny model of its durable and concurrent core

Baymax is an agent runtime. This project models the parts of it whose promises
span many operations, crash points or interleavings, and proves those promises
for every input, every run and every interleaving.

| component | modules |
|---|---|
| checkpoint store and native continuation (`core/checkpoint`, `core/runner`) | `CheckpointModel`, `CheckpointSafety`, `CheckpointRuns`, `CheckpointChains`, `CheckpointGenerations`, `CheckpointStore`, `NativeContinuation` |
| filesystem memory engine (`memory`) | `Text`, `MemoryModel`, `MemoryRecovery`, `MemoryRuns`, `MemoryRetention`, `MemoryEngine` |
| event journal and projection ledger (`core/history`) | `HistoryModel`, `HistoryLaws`, `HistoryRuns`, `HistoryLag`, `HistoryStore` |
| dynamic-action resume and run controls (`core/runner`) | `ResumeModel`, `ResumeRuns`, `ResumeEngine` |
| host connection (`host`) | `HostBarrier`, `HostPending`, `HostCommands`, `HostConnection` |
| context pruning and threshold tuning (`context/assembler`) | `ContextPruning`, `ThresholdTuning` |
| version ranges and adapter health (`adapter`) | `SemverOrder`, `AdapterHealth` |

## How the model is built

- `...Model` modules hold the entities and, for every operation, a function from
  the old state and the inputs to the new state and the answer, with the
  source's branches and error order. `...Store`, `...Engine` and the classes of
  `HostBarrier`, `HostConnection` and `AdapterHealth` hold the same operations
  as objects with fields, loops, rollbacks and file steps; each method is proved
  equal to its function.
- `...Runs` modules, `HistoryLag` and `HostCommands` are about whole runs: a run
  is a sequence of states joined by steps, and a step is an operation by any
  caller, a failed publication, a crash, a reopen or one critical section of one
  goroutine.
- Validators, digests, sizes, text matching, token estimates and the host's
  answer are arbitrary pure functions or inputs. Encodings (JSON, base64,
  hashes as identities) are exact and injective. Time is a natural number read
  from a clock that does not run backwards; 0 is the zero time. Floating point
  is `real`.
- A file replace and a WAL line are each written whole or not at all. The memory
  engine's `snapshot.next` and index are truncated in one step and written in the
  next, and are torn in between. Every point between two steps is a possible crash.

## What is proved

- **Checkpoints.** A checkpoint is granted to one non-duplicate claim at most,
  whatever fails, crashes or races; its continuation starts at most once; tokens
  die as soon as their record moves; a claim unfinished at a crash is never run
  or committed again; a completed claim replays its result exactly until expiry
  and retention have both passed; a saved checkpoint loads back unchanged; every
  published snapshot is readable again;
  committed results form disjoint finite chains of constant lineage.
- **Memory engine.** A crash after any file step, also inside compaction or
  while opening, leaves a directory that opens again if and only if every WAL
  line is short and neither the index nor the snapshot that counts is torn; it
  then recovers exactly the unexpired records of the log, and the live engine
  agrees with that between operations. A directory that does not open is left by
  every later attempt as one that does not. Power loss costs less than one fsync
  batch between operations, on top of the tail that was unsynced when the engine
  opened and until the first sync or truncation.
- **History.** The journal retains exactly floor+1..sequence; a reader that
  follows its cursors misses nothing and expires exactly when it must; the
  ledger never runs ahead of or differs from its journal. A ledger at or above
  the journal's floor catches up by ordered repair. Below the floor only a repair
  that was checked before its event was trimmed still moves it, and without one
  in flight it never moves again. The lag passes one event exactly when an append
  publishes while the ledger is already behind, and the steps into that state are
  listed exactly.
- **Interleavings.** One decision per pause, for the generation the host saw and
  never after an accepted cancellation; one outcome per pending host request, and
  for a human-in-the-loop (HITL) command exactly one by the time it returns, never
  ahead of its own response; deferred items commit as a FIFO prefix behind the
  delivered response.
- **Algorithms.** Pruning keeps its evidence floor although its counter is only a
  lower bound; the tuned threshold is optimal over the continuum [0, 1]; version
  comparison is the precedence of Semantic Versioning 2.0.0 and ranges are
  intervals; the circuit breaker's counters agree, recovery needs a clean
  half-open episode, and the trial counter is exact until a trial phase starts
  over a trial that still runs.

## Where the code differs from what one would expect

Each of these is modelled as the code does it.

- `nextGeneration` wraps at 64 bits. A record whose generation reaches zero is
  published but refused on reopen. `CheckpointGenerations.GenerationBoundIsExact`
  shows, whatever else the store holds, that all three publications of a resume
  are readable if and only if the saved generation is below 2^64 - 3, provided
  that these three fit the size limit; `CheckpointSafety.Legal` is that bound,
  together with attempt ids that are not empty, as `newID` makes them.
- `Upsert` changes memory before it rejects a blank id and logs nothing for that
  batch. `MemoryRuns.RejectedBatchDiverges` shows that memory and log then still
  agree if and only if the first id was the blank one.
- Expiry is never logged, so recovery and memory agree on unexpired records.
- The WAL is read with a line scanner of the default size. A line of 65536 bytes
  or more is stored and answered with success, and from then on the directory
  does not open, even after a clean close, until a compaction by the running
  engine: `MemoryRuns.LongLineLocksOut`.
- The index is truncated before it is written, and an empty index is an error on
  opening. Every accepted upsert passes through such a directory
  (`MemoryRuns.UpsertTearsIndex`), although the index never changes a record
  (`MemoryRuns.IndexNeverMatters`). A torn `snapshot.next` is harmless except in
  the first compaction, where it is promoted (`MemoryRuns.FirstCompactionTears`).
- An engine that opens after a crash counts 0 unsynced lines over whatever tail
  it finds: `MemoryRuns.OpenCount`.
- The ledger trims records but keeps their acknowledgements, and reopening
  requires every acknowledged record: `HistoryLaws.LedgerReopensIff` and
  `HistoryLaws.TrimmingAckedEventLocksLedger`.
- The ledger's lag is not bounded by one. Reconciling a duplicate clears the
  recovery flag without repairing anything
  (`HistoryLaws.DuplicateRepairLetsLagGrow`), and so does reopening
  (`HistoryLag.ReopenLetsLagGrow`). `HistoryLag.LagPastOneIff` and
  `HistoryLag.ExposedIff` give the exact conditions.
- The journal checks a repair and then lets go of its lock, so a repair can move
  a ledger below the journal's floor:
  `HistoryLag.RepairInFlightMovesBelowFloor` is such a run of nine steps.
- The branches of a HITL command for a missing, open or full barrier
  (`host/host.go:752-769`) are never taken: `HostCommands.HitlAlwaysQueues`.
- When the configured initial backoff exceeds the effective cap, the delay is the
  cap and lies below the initial delay (`AdapterHealth.ComputeBackoffDelay`).
- The half-open in-flight counter stays within its budget, but it is reset when
  the circuit re-enters half-open, so more trials than the budget can run:
  `AdapterHealth.TrialBudgetOverrun`. `AdapterHealth.TrialCounterLostIff` says
  exactly when the counter and the running trials part.

## Model

| member | source | states |
|---|---|---|
| `CheckpointSafety.StepKeepsInv` | core/checkpoint/store.go:186-555 | every operation, failed publication, crash and reopen keeps the invariant (records acceptable to the reader, claims fitting their checkpoint and budget, links sound, memory equal to disk) and moves each stored record along one allowed edge |
| `CheckpointSafety.ClaimWriteOk` | core/checkpoint/store.go:307-396 | what a granted claim writes: a record claimed with the next generation, for the same mode, dependencies and generation, with a budget that keeps what was spent and shrinks nothing |
| `CheckpointSafety.MarkWriteOk` | core/checkpoint/store.go:398-415 | marking writes only claimed to running, with a larger generation and the same claim |
| `CheckpointSafety.CommitWriteOk` | core/checkpoint/store.go:416-466 | committing writes the completed record and, in the same publication, a fresh successor that names predecessor, attempt and lineage |
| `CheckpointSafety.ControlWriteOk` | core/checkpoint/store.go:467-505 | cancelling writes only an unclaimed record, and leaves its generation |
| `CheckpointSafety.PublishOk` | core/checkpoint/store.go:622-674 | whatever the publication's outcome, disk and a healthy owner's memory stay consistent |
| `CheckpointSafety.OpenOk` | core/checkpoint/store.go:565-621 | opening a directory left by any earlier owner succeeds and keeps the invariant |
| `CheckpointRuns.RunEvolves` | core/checkpoint/store.go:186-555 | over any run no stored record is lost, replaced or taken back to an earlier stage |
| `CheckpointRuns.RunMoves` | core/checkpoint/store.go:398-466 | a claim moves only claimed to running to completed, or claimed to completed |
| `CheckpointRuns.ClaimedAtMostOnce` | core/checkpoint/store.go:307-396 | over any run with failures, crashes and reopens, a checkpoint is granted to at most one non-duplicate claim |
| `CheckpointRuns.ClaimIdentityNeverChanges` | core/checkpoint/store.go:346-396 | attempt, request and identity of a stored claim never change, its generation never falls, and it fits its checkpoint's mode, dependencies and budget |
| `CheckpointRuns.NeverClaimedAndCanceled` | core/checkpoint/store.go:467-505 | a checkpoint claimed at any point of a run is canceled at no point of it |
| `CheckpointRuns.CancelFencesForever` | core/checkpoint/store.go:467-505 | after a successful cancellation no later claim on that checkpoint is granted |
| `CheckpointRuns.SavedCheckpointLoads` | core/checkpoint/store.go:186-263 | a saved checkpoint loads back unchanged through any later operations, crashes and reopens, exactly until it has expired and no retained result keeps it readable |
| `CheckpointRuns.PublishedSnapshotReopens` | core/checkpoint/store.go:565-674 | at every point the directory reads back to the stored records, with exactly the unfinished claims marked recovered |
| `CheckpointRuns.PoisonedIffPublishFailed` | core/checkpoint/store.go:622-627 | at every point of every run the owner is poisoned if and only if one of its publications since it was opened did not report success |
| `CheckpointRuns.PoisonedUntilStopped` | core/checkpoint/store.go:211-213 | after a failed publication no operation of that owner succeeds or changes anything until it is gone |
| `CheckpointRuns.GrantedTokenIsCurrent` | core/checkpoint/store.go:386-466 | a claim handed out is the one stored, with the stored generation |
| `CheckpointRuns.UsedClaimIsTheStoredOne` | core/checkpoint/store.go:524-531 | marking or committing succeeds only with the stored claim's attempt, generation and identity |
| `CheckpointRuns.SupersededTokenIsDead` | core/checkpoint/store.go:529-543 | a token whose record has moved since changes nothing and fails, at every later point |
| `CheckpointRuns.UnfinishedAtCrashStaysUnfinished` | core/checkpoint/store.go:398-432 | a claim unfinished at a crash stays exactly as it was, and no operation that uses it succeeds under any later owner |
| `CheckpointRuns.DuplicateClaimIsInert` | core/checkpoint/store.go:346-366 | a claim on a claimed checkpoint changes nothing, succeeds only for the stored identity with the stored result, and is told to recover only when a crash left the claim |
| `CheckpointRuns.CompletedClaimReplays` | core/checkpoint/store.go:346-366 | a completed claim answers the same identity with the identical result, changing nothing, exactly until expiry and retention have both passed |
| `CheckpointChains.ChainsAreFinite` | core/checkpoint/store.go:433-466 | no chain of committed successors revisits a checkpoint, and its length is bounded by the capacity |
| `CheckpointChains.ChainsAreDisjoint` | core/checkpoint/store.go:433-456 | two chains that meet agree link by link in both directions, so successors are not shared |
| `CheckpointChains.ChainKeepsLineage` | core/checkpoint/store.go:442-448 | each link names its predecessor and attempt, and the ten lineage fields are constant along a chain |
| `CheckpointChains.LinksArePermanent` | core/checkpoint/store.go:417-423 | a committed link never changes |
| `CheckpointGenerations.GenerationBoundIsExact` | core/checkpoint/store.go:759-802 | next to any other readable records, with or without a successor, the three snapshots published by a resume, each within the size limit, are all readable if and only if the saved generation leaves room for three increments below 2^64 |
| `CheckpointStore.Store.Open` | core/checkpoint/store.go:565-621 | the header checks and the loops over the records accept and mark exactly what the reader function does |
| `CheckpointStore.Store.PublishRecords` | core/checkpoint/store.go:622-674 | the directory after success, failure before and failure after the replace, and the poisoning |
| `CheckpointStore.Store.Save` | core/checkpoint/store.go:186-230 | the whole new state and answer, including the rollback when publishing fails |
| `CheckpointStore.Store.Load` | core/checkpoint/store.go:231-263 | the answer of a load, with its errors in order |
| `CheckpointStore.Store.ReadResumeClaim` | core/checkpoint/store.go:265-305 | the answer of reading a claim, with its errors in order |
| `CheckpointStore.Store.ClaimResume` | core/checkpoint/store.go:307-396 | the whole new state and answer of a claim |
| `CheckpointStore.Store.MarkRunning` | core/checkpoint/store.go:398-415 | the whole new state and answer, including the repeated mark that republishes |
| `CheckpointStore.Store.CommitResumeResult` | core/checkpoint/store.go:416-466 | the whole new state and answer, with and without a successor, including the repeated commit |
| `CheckpointStore.Store.Control` | core/checkpoint/store.go:467-505 | the whole new state and answer of a cancellation |
| `NativeContinuation.PauseInheritsLineage` | core/runner/native_continuation.go:252-260 | a pause of a resumed run is refused as foreign at commit if and only if the engine's binding differs from the checkpoint's |
| `NativeContinuation.SystemKeepsInv` | core/runner/native_continuation.go:379-450 | every step of every resumer keeps each claim with at most one resumer that may still start it |
| `NativeContinuation.ContinuationStartsAtMostOnce` | core/runner/native_continuation.go:379-437 | over any interleaving of resumers, each with the binding of its own engine, of failures, crashes and reopens, no checkpoint's continuation is started twice |
| `NativeContinuation.StartedContinuationsAreClaimed` | core/runner/native_continuation.go:379-437 | a continuation only starts under a claim that is already stored |
| `Text.TrimTwice` | memory/filesystem_engine.go:245-257 | trimming white space is idempotent, which is what recovery relies on when it trims stored keys again |
| `MemoryModel.TrimSpaceOk` | memory/filesystem_engine.go:473-474 | cutting white space off both ends is a trimming as the recovery proofs need it |
| `MemoryRecovery.SnapshotRoundTrip` | memory/filesystem_engine.go:470-482 | records written to a snapshot in any order read back to the same map |
| `MemoryRecovery.ReplayPrefix` | memory/filesystem_engine.go:485-532 | replaying a prefix of the WAL over the snapshot succeeds if and only if each of its lines is short enough for the scanner, and then gives the log up to the last entry either covers |
| `MemoryRecovery.RecoverExact` | memory/filesystem_engine.go:398-567 | recovery succeeds if and only if every WAL line is short and neither the index nor the snapshot that counts is torn; it then restores the sequence number and agrees with the whole log on unexpired records |
| `MemoryRecovery.CompactOk` | memory/filesystem_engine.go:887-944 | every file step of a compaction, with its torn `snapshot.next` and index, leaves a directory that stands for the same log |
| `MemoryRecovery.WriteIndexOk` | memory/filesystem_engine.go:612-664 | neither step of an index rewrite changes what the directory stands for |
| `MemoryRecovery.UpsertOk` | memory/filesystem_engine.go:211-310 | an upsert, with its trim entry, index rewrite and compaction, leaves a directory that stands for the log so far at every file step, and agreement afterwards |
| `MemoryRecovery.DeleteOk` | memory/filesystem_engine.go:312-387 | the same for a delete |
| `MemoryRecovery.OpenOk` | memory/filesystem_engine.go:398-567 | opening succeeds if and only if the directory is readable, and every file step of it, also when it fails, leaves a directory that stands for the same log |
| `MemoryRecovery.StoreItemsLogged` | memory/filesystem_engine.go:243-279 | what the upsert loop puts into memory is exactly what its WAL entry puts back |
| `MemoryRecovery.QueryAgrees` | memory/filesystem_engine.go:191-209 | record maps that agree on unexpired records answer every query alike |
| `MemoryRuns.CrashAnywhereRecovers` | memory/filesystem_engine.go:211-567 | over any run, a crash after any file step leaves a directory that recovers and opens if and only if it is readable, and then recovers, at every later time, exactly the unexpired records of all appended entries |
| `MemoryRuns.LiveAgreesWithRecovered` | memory/filesystem_engine.go:148-209 | between operations the directory recovers if and only if every WAL line is short, and then live engine, log and reopened engine agree at every later time and answer every query alike |
| `MemoryRuns.IndexNeverMatters` | memory/filesystem_engine.go:534-567 | over any run, with any index in the place of the one that a crash leaves, the directory opens if and only if it is readable with that one, and to the same unexpired records |
| `MemoryRuns.LockedOutForever` | memory/filesystem_engine.go:398-567 | a directory that does not open is left by every later attempt as one that does not open |
| `MemoryRuns.LongLineLocksOut` | memory/filesystem_engine.go:498-530 | an upsert whose WAL line reaches 65536 bytes succeeds, and without compaction the directory does not open again even after a clean close |
| `MemoryRuns.UpsertTearsIndex` | memory/filesystem_engine.go:604-660 | every accepted upsert passes through a directory that does not open |
| `MemoryRuns.FirstCompactionTears` | memory/filesystem_engine.go:411-444 | a compaction passes through a torn snapshot if and only if there was no snapshot before it |
| `MemoryRuns.RejectedBatchDiverges` | memory/filesystem_engine.go:245-272 | after a rejected batch memory and log agree if and only if the first id was blank |
| `MemoryRuns.RanFsync` | memory/filesystem_engine.go:738-795 | every operation keeps `pendingFsyncOps` below a batch and equal to the unsynced tail, but for the tail left at opening until the first sync or truncation; at every file step the tail is within one batch plus that rest |
| `MemoryRuns.OpenCount` | memory/filesystem_engine.go:101-121 | an engine opens with a count of 0 over the tail it finds, so count and tail agree if and only if the WAL was fully synced |
| `MemoryRuns.SyncFsync` | memory/filesystem_engine.go:780-795 | a sync with pending lines leaves every line synced, and count and tail agree |
| `MemoryRuns.CompactFsync` | memory/filesystem_engine.go:920-943 | so does the truncation of a compaction |
| `MemoryRuns.PowerLossKeepsPrefix` | memory/filesystem_engine.go:485-532 | a directory that lost unsynced WAL lines recovers if and only if what is left is readable, and then a prefix of the log that misses at most those lines |
| `MemoryRuns.PowerLossBound` | memory/filesystem_engine.go:738-795 | from the opening of an engine on, power loss at any file step misses at most one batch plus the tail that was unsynced at opening, and fewer entries than that between operations |
| `MemoryRuns.PowerLossBoundOnceSynced` | memory/filesystem_engine.go:780-795 | after an event of the lifetime in which a sync or a truncation left every line synced, power loss misses at most one batch for the rest of the lifetime |
| `MemoryRetention.SurplusIsTail` | memory/filesystem_engine.go:829-852 | what retention drops is the tail of the namespace sorted newest first, then by id |
| `MemoryRetention.RetentionKeepsNewest` | memory/filesystem_engine.go:821-852 | retention leaves exactly min(bound, size) records, and every kept one outranks, and is no older than, every dropped one |
| `MemoryEngine.FilesystemEngine.Open` | memory/filesystem_engine.go:398-567 | all file steps, the snapshot load, the replay and the index of an opening, and the directory it leaves when it fails |
| `MemoryEngine.FilesystemEngine.PrepareSnapshotFiles` | memory/filesystem_engine.go:411-444 | which snapshot counts, and the file steps that make it so |
| `MemoryEngine.FilesystemEngine.RecoverIndex` | memory/filesystem_engine.go:534-567 | a torn index fails, an absent or drifted one is rewritten, a fitting one is left alone |
| `MemoryEngine.FilesystemEngine.WriteIndexState` | memory/filesystem_engine.go:612-664 | the two file steps of an index rewrite |
| `MemoryEngine.FilesystemEngine.LoadSnapshot` | memory/filesystem_engine.go:470-482 | the loop loads the snapshot's records under their trimmed keys |
| `MemoryEngine.FilesystemEngine.ReplayWAL` | memory/filesystem_engine.go:485-532 | the loop replays exactly the newer entries, and fails on a line that is too long whatever its sequence and on a newer one with an empty namespace |
| `MemoryEngine.FilesystemEngine.ApplyEntry` | memory/filesystem_engine.go:695-736 | the effect of an upsert or delete entry on the records |
| `MemoryEngine.FilesystemEngine.AppendEntry` | memory/filesystem_engine.go:738-778 | the WAL line, the counters and the sync once a batch is full |
| `MemoryEngine.FilesystemEngine.SyncWAL` | memory/filesystem_engine.go:780-795 | syncing covers the whole WAL and resets the counter, and does nothing without pending lines |
| `MemoryEngine.FilesystemEngine.CompactNow` | memory/filesystem_engine.go:887-944 | the file steps of a compaction in their order, down to the index, with a snapshot that lists exactly the records |
| `MemoryEngine.FilesystemEngine.MaybeCompactNow` | memory/filesystem_engine.go:865-885 | when compaction happens |
| `MemoryEngine.FilesystemEngine.ApplyTTL` | memory/filesystem_engine.go:797-808 | exactly the expired records leave memory |
| `MemoryEngine.FilesystemEngine.ApplyRetention` | memory/filesystem_engine.go:821-852 | sorting and dropping removes exactly the surplus and returns its ids |
| `MemoryEngine.FilesystemEngine.StoreBatch` | memory/filesystem_engine.go:243-272 | the upsert loop, which keeps what it stored when it meets a blank id |
| `MemoryEngine.FilesystemEngine.Upsert` | memory/filesystem_engine.go:211-310 | the whole new state, every file step in between, and the error |
| `MemoryEngine.FilesystemEngine.Delete` | memory/filesystem_engine.go:312-387 | the whole new state, every file step in between, and the error |
| `MemoryEngine.FilesystemEngine.QueryRecords` | memory/filesystem_engine.go:191-209 | the loop collects exactly the unexpired matching records of the namespace |
| `HistoryLaws.JournalExtends` | core/history/journal.go:158-186 | appending and trimming keeps exactly floor+1..sequence within the bound |
| `HistoryLaws.JournalReopens` | core/history/journal.go:104-137 | a journal in that shape reopens unchanged |
| `HistoryLaws.FindInWindow` | core/history/projection_ledger.go:328-335 | a lookup finds the record of that sequence exactly when it is retained |
| `HistoryLaws.RetainedAckMatches` | core/history/projection_ledger.go:247-281 | while its event is retained, an acknowledgement carries the record's digest and cursor |
| `HistoryLaws.LedgerReopensIff` | core/history/projection_ledger.go:370-395 | a ledger reopens if and only if every acknowledged event is still retained, and then unchanged |
| `HistoryLaws.TrimmingAckedEventLocksLedger` | core/history/projection_ledger.go:172-177 | when the oldest retained event is acknowledged and the ledger is full, one more commit makes the ledger unopenable |
| `HistoryLaws.RepairCatchesUp` | core/history/journal.go:202-278 | offered in ascending order, retained events pass every check, advance the ledger by one each and clear the recovery flag |
| `HistoryLaws.ReconcileIff` | core/history/projection_ledger.go:185-245 | a source event moves the ledger if and only if it is the next one and is saved, and succeeds if and only if it does so or is still retained; the second kind is reported as a duplicate |
| `HistoryLaws.DuplicateRepairLetsLagGrow` | core/history/journal.go:269-276 | a duplicate reconcile clears the flag, and the next append widens the lag by one |
| `HistoryLaws.PageIsNextEvents` | core/history/journal.go:349-395 | a read is expired, a gap, exactly the next events up to the limit with the right cursors and completeness, or invalid when that very page is too large |
| `HistoryRuns.StepKeepsInv` | core/history/journal.go:139-278 | appends, the three sections of a repair, acknowledgements, reads, crashes between the two files and reopens keep one history |
| `HistoryRuns.JournalRetainsContiguous` | core/history/journal.go:474-486 | at every point of every run the journal file retains exactly floor+1..sequence within its bound and reopens |
| `HistoryRuns.LedgerAgreesWithJournal` | core/history/projection_ledger.go:150-183 | the ledger's sequence never passes the journal's, and what both retain under one sequence is the same event |
| `HistoryRuns.RepairFromAnyRun` | core/history/journal.go:200-278 | in any reachable state with the ledger at or above the journal's floor, ordered repair ends with both level |
| `HistoryRuns.LedgerReopensAfterAnyRun` | core/history/projection_ledger.go:67-96 | the ledger file of any run reopens if and only if no acknowledged event was trimmed |
| `HistoryRuns.ReaderMissesNothing` | core/history/journal.go:349-395 | a reader that follows its cursors has seen each event once and in order, expires exactly when an unseen event was trimmed, and otherwise gets exactly the next ones unless they make a page too large |
| `HistoryRuns.HistoryOnlyGrows` | core/history/journal.go:187-190 | published history is append-only across failed persists, crashes and reopens |
| `HistoryRuns.AcksAreFinal` | core/history/projection_ledger.go:267-273 | a stored acknowledgement is never replaced |
| `HistoryLag.LedgerMovesIff` | core/history/projection_ledger.go:150-245 | in any reachable state a step moves the ledger, by one, if and only if it is an append committed to a level ledger or a saved repair by the next event |
| `HistoryLag.BelowFloorMovesIff` | core/history/journal.go:200-278 | below the journal's floor a step moves the ledger if and only if it is a saved repair whose event was checked before and is the next one |
| `HistoryLag.StuckBelowFloorForever` | core/history/journal.go:244-257 | below the floor with no such repair in flight the ledger never moves again, through appends, repairs, acknowledgements, crashes and reopens |
| `HistoryLag.RepairInFlightMovesBelowFloor` | core/history/journal.go:262-278 | for any event whose three stamped forms pass the check, a run of nine steps in which a repair checked earlier moves a ledger below the floor |
| `HistoryLag.LagPastOneIff` | core/history/journal.go:139-198 | a step widens the lag past one event if and only if it is an append that publishes while the ledger is already behind |
| `HistoryLag.ExposedIff` | core/history/journal.go:269-276 | the state behind and ready to append is entered exactly by opening files that are not level, by a repair that clears the flag while the ledger is still behind, or by an append without a ledger |
| `HistoryLag.ClearingIsHeld` | core/history/journal.go:268-276 | a repair that clears the flag is of an event that the ledger holds by then, so one that enters that state is of an event at or below a ledger that is not level |
| `HistoryLag.LagPastOneWasExposed` | core/history/journal.go:139-198 | in every run a lag above one was preceded by that state |
| `HistoryLag.ReopenLetsLagGrow` | core/history/journal.go:104-137 | reopening forgets the recovery flag, so a crash, a reopen and an append widen the lag |
| `HistoryStore.ProjectionLedger.Open` | core/history/projection_ledger.go:67-96 | accepts exactly what the ledger reader accepts |
| `HistoryStore.ProjectionLedger.Validate` | core/history/projection_ledger.go:370-395 | the loops over records and acknowledgements decide exactly the ledger's validity |
| `HistoryStore.ProjectionLedger.Lookup` | core/history/projection_ledger.go:328-335 | the loop finds the first record with that id |
| `HistoryStore.ProjectionLedger.CommitRetained` | core/history/projection_ledger.go:150-183 | the whole new state, file and answer, with rollback |
| `HistoryStore.ProjectionLedger.ReconcileSourceEvent` | core/history/projection_ledger.go:185-245 | the whole new state, file and answer, with duplicates and rollback |
| `HistoryStore.ProjectionLedger.AcknowledgeProjection` | core/history/projection_ledger.go:247-281 | the whole new state, file and answer, with duplicates and rollback |
| `HistoryStore.EventJournal.Open` | core/history/journal.go:104-137 | accepts exactly what the journal reader accepts |
| `HistoryStore.EventJournal.Validate` | core/history/journal.go:474-486 | the loop decides exactly whether the events are floor+1..sequence |
| `HistoryStore.EventJournal.Append` | core/history/journal.go:139-198 | journal, file, bound ledger, recovery flag and answer after an append, with rollback |
| `HistoryStore.EventJournal.ReconcileProjection` | core/history/journal.go:202-278 | every check and error of a repair, then the ledger's reconcile and the flag |
| `HistoryStore.EventJournal.ReadPage` | core/history/journal.go:349-395 | the read loop returns exactly the page |
| `ResumeRuns.StepKeepsInv` | core/runner/dynamic_action_resume.go:91-331 | every critical section of every goroutine keeps generations unique, admissions used up, the lock holder's view current and cancellations final |
| `ResumeRuns.GenerationsNamePauses` | core/runner/dynamic_action_resume.go:99-127 | no two stored or pending pauses ever share a generation, and a newly allocated one is above all of them |
| `ResumeRuns.OneDecisionPerGeneration` | core/runner/dynamic_action_resume.go:225-277 | every decision is admitted for the pause it names, which is the one the host revalidated, and no two for the same pause |
| `ResumeRuns.NoAdmissionAfterCancel` | core/runner/control.go:343-375 | once a cancellation is accepted on a control no decision is admitted on it |
| `ResumeRuns.ContinuesAtMostOnce` | core/runner/dynamic_action_resume.go:273-303 | each pause is continued at most once, and only for the confirmed decision admitted for it |
| `ResumeRuns.ReplaysComeFromAdmissions` | core/runner/dynamic_action_resume.go:307-317 | a duplicate is answered from an earlier admission of the identical decision |
| `ResumeEngine.Engine.BeginActiveRun` | core/runner/control.go:206-235 | registration of a run's control, with duplicate and limit errors |
| `ResumeEngine.Engine.CancelRun` | core/runner/control.go:343-375 | unknown run, session mismatch, closed, duplicate and accepted cancellation |
| `ResumeEngine.Engine.FinishActiveRun` | core/runner/control.go:294-311 | a control is closed and only its own registration is removed |
| `ResumeEngine.Engine.PauseForDynamicAction` | core/runner/dynamic_action_resume.go:91-132 | a pause gets a generation above every stored one and becomes the only checkpoint with it; a pause that is invalid or not persisted uses its generation up and stores nothing |
| `ResumeEngine.Engine.DynamicResumePreflight` | core/runner/dynamic_action_resume.go:305-331 | replay, in-progress, stale, expired, terminal, conflict and fresh, in that order |
| `ResumeEngine.Engine.AdmitDecision` | core/runner/dynamic_action_resume.go:225-277 | the second check, the control check and the commit of a confirmed or refused decision |
| `ResumeEngine.Engine.CompleteContinuation` | core/runner/dynamic_action_resume.go:292-301 | the result is stored unless a newer pause has replaced the checkpoint |
| `HostBarrier.StepKeepsInv` | host/host.go:232-292 | every section of the handler and of the producers keeps each item in exactly one place and in order |
| `HostBarrier.CommitsAreFifoPrefix` | host/host.go:248-276 | committed items are a prefix in order of deferral, only after the response was delivered; an open barrier holds nothing |
| `HostBarrier.EndsAtMostOnce` | host/host.go:248-292 | no item ends twice, and none is both committed and aborted |
| `HostBarrier.AllItemsEnd` | host/host.go:494-541 | once the handler has returned and no producer is still aborting, every deferred item has ended |
| `HostBarrier.SoleHandlerEndsAll` | host/host.go:751-771 | a command whose producers never abort, such as a HITL response, ends all its items before it returns |
| `HostBarrier.ExecutedOrReleased` | host/host.go:637-678 | a run reservation is executed or released, exactly once, and executed only behind a delivered response |
| `HostBarrier.CommandResponseBarrier.DeferDelivery` | host/host.go:232-246 | deferred, passed on an open barrier, or refused when full |
| `HostBarrier.CommandResponseBarrier.Abort` | host/host.go:278-292 | the barrier opens and everything pending is aborted in order |
| `HostBarrier.CommandResponseBarrier.Commit` | host/host.go:248-276 | items are committed up to the first that fails; that one and the rest are aborted |
| `HostPending.ClaimKeeps` | host/host.go:970-984 | a claim takes a request out of the registry and leaves it with exactly one owner |
| `HostPending.PublishKeeps` | host/host.go:985-998 | an owner's publication is the request's first and only one, and fits it |
| `HostPending.SettleKeeps` | host/host.go:1011-1028 | a waiter that gives up settles its request only while it is registered |
| `HostPending.CloseKeeps` | host/host.go:405-433 | closing fails every registered request and none that is owned or published |
| `HostCommands.StepKeepsInv` | host/host.go:456-541 | every section of commands, responses, waiters, producers and close keeps each request with exactly one owner, each message id with one command, and each HITL barrier to its own command |
| `HostCommands.PublishedAtMostOnce` | host/host.go:435-441 | over any race of responses, commands, timeouts, cancellations, failed deliveries and close, a request is published at most once and every waiter gets that outcome |
| `HostCommands.AnswersFitTheirRequest` | host/host.go:970-988 | a waiter is answered only with a response to its own request, session and run |
| `HostCommands.CloseLeavesNoneRegistered` | host/host.go:405-433 | a closed connection has nothing registered and stays closed |
| `HostCommands.HitlAlwaysQueues` | host/host.go:752-769 | a HITL command about to queue finds its own barrier under its message id, closed and empty, so it is never missing, open or full |
| `HostCommands.ClaimedIsPublishedByReturn` | host/host.go:456-541 | when the handler of a HITL command has returned, a request it claimed at any time has exactly one outcome, published by this command |
| `HostCommands.AnswerFollowsResponse` | host/host.go:967-969 | a HITL answer is published only after the command's own response was delivered |
| `HostCommands.UnpublishedIsOwned` | host/host.go:970-1028 | an unpublished request is registered or owed by exactly one response or command, never both |
| `HostConnection.PendingRegistry.RegisterPending` | host/host.go:929-953 | registration with its four errors |
| `HostConnection.PendingRegistry.PreparePendingResponse` | host/host.go:970-1002 | the claim of a request, with unknown id and mismatch |
| `HostConnection.PendingRegistry.SettlePending` | host/host.go:1011-1028 | only the registered request itself is settled |
| `HostConnection.PendingRegistry.CloseWithCause` | host/host.go:405-433 | the loop fails exactly the registered requests and empties the registry |
| `HostConnection.HostRunExecution.Execute` | core/runner/control.go:113-126 | only the first use of a reservation executes |
| `HostConnection.HostRunExecution.Release` | core/runner/control.go:128-137 | only an unused reservation is released |
| `ContextPruning.SelectPruneCandidate` | context/assembler/context_pressure_recovery.go:1681-1731 | the eligible message of least score, then least index, or -1 exactly when none is eligible |
| `ContextPruning.ShouldRetainEvidence` | context/assembler/context_pressure_recovery.go:1766-1780 | evidence by non-blank keyword or by standing in the recent window |
| `ContextPruning.RetainedEvidenceCount` | context/assembler/context_pressure_recovery.go:1753-1764 | the number of evidence messages that are not system messages |
| `ContextPruning.IsProtected` | context/assembler/context_pressure_recovery.go:1789-1802 | protected by a critical or immutable keyword, which a blank keyword always is |
| `ContextPruning.RemovalKeepsEvidence` | context/assembler/context_pressure_recovery.go:1766-1787 | removing a message costs at most its own place in the evidence count although the recent window slides |
| `ContextPruning.RemainingKeepsEvidence` | context/assembler/context_pressure_recovery.go:1655-1678 | the counter stays a lower bound of the real evidence and above its floor through all removals |
| `ContextPruning.RemainingIsFinal` | context/assembler/context_pressure_recovery.go:1656-1667 | pruning stops only on target or when nothing is eligible |
| `ContextPruning.PruneMessages` | context/assembler/context_pressure_recovery.go:1639-1679 | a subsequence is kept, its complement is what was removed, no system or protected message is removed, and at least min(initial evidence, MinRetainedEvidence) evidence remains |
| `ContextPruning.ApplyColdStoreQuota` | context/assembler/context_pressure_recovery.go:334-356 | the longest suffix of the records that fits the quota stays |
| `ThresholdTuning.CalcMetrics` | context/assembler/threshold_tuning.go:129-158 | the loop computes precision, recall and F1 of the counts |
| `ThresholdTuning.F1IsQuotient` | context/assembler/threshold_tuning.go:145-157 | F1 equals 2tp / (2tp + fp + fn), is 0 without true positives, and lies in [0, 1] |
| `ThresholdTuning.CollectThresholds` | context/assembler/threshold_tuning.go:107-127 | sorted, and exactly the clamped scores with 0 and 1 |
| `ThresholdTuning.CandidateForThreshold` | context/assembler/threshold_tuning.go:107-134 | every threshold in [0, 1] has the same metrics as some collected candidate |
| `ThresholdTuning.BestCandidate` | context/assembler/threshold_tuning.go:60-73 | the candidate of greatest F1, and the least of those |
| `ThresholdTuning.RunThresholdTuning` | context/assembler/threshold_tuning.go:44-86 | the recommended threshold has the greatest F1 over every real in [0, 1] and is the least candidate reaching it; acceptance, reason, confidence, readiness and both errors |
| `SemverOrder.CompareSemver` | adapter/manifest/semver.go:187-255 | the index loop computes the comparison |
| `SemverOrder.CompareIsPrecedence` | adapter/manifest/semver.go:187-255 | the sign of the comparison is the precedence of section 11 of Semantic Versioning 2.0.0 in both directions, and it is antisymmetric |
| `SemverOrder.CompareTransitive` | adapter/manifest/semver.go:218-255 | comparison is transitive, strictly so when either step is, for pre-release lists of any lengths |
| `SemverOrder.EvaluateRange` | adapter/manifest/semver.go:40-47 | a version is in the range exactly when every comparator matches |
| `SemverOrder.ComparatorConvex` | adapter/manifest/semver.go:169-185 | each comparator accepts what lies between two accepted versions |
| `SemverOrder.RangesAreConvex` | adapter/manifest/semver.go:31-47 | every range is convex |
| `AdapterHealth.CountersAgree` | adapter/health/health.go:199-341 | over any overlap of probes: opens equal half-opens plus one exactly when open, recoveries do not exceed half-opens, a closed circuit is below its failure threshold, the in-flight counter is within its budget |
| `AdapterHealth.TrialCounterNeverExceeds` | adapter/health/health.go:199-275 | at every point the half-open counter is at most the number of trials that are running |
| `AdapterHealth.TrialCounterLostIff` | adapter/health/health.go:205-215 | from equality, counter and running trials part if and only if a probe re-enters half-open while a trial still runs |
| `AdapterHealth.TrialBudgetHolds` | adapter/health/health.go:225-234 | in a run without such a step the counter is exact and never more trials run than the budget allows |
| `AdapterHealth.TrialBudgetOverrun` | adapter/health/health.go:205-215 | a run of six steps after which two trials run although the budget is one |
| `AdapterHealth.RecoveryNeedsHealthyEpisode` | adapter/health/health.go:282-305 | a recovery ends one half-open episode with exactly the threshold number of healthy and no unavailable results |
| `AdapterHealth.GrownMonotone` | adapter/health/health.go:628-635 | more failures never shorten the delay before jitter |
| `AdapterHealth.ComputeBackoffDelay` | adapter/health/health.go:612-649 | the delay never exceeds the cap, reaches the initial delay if and only if that is within the cap, and without jitter is the capped power |
| `AdapterHealth.HealthRunner.BeforeProbeGovernance` | adapter/health/health.go:199-255 | the new state of one target and the gate's answer; other targets are untouched |
| `AdapterHealth.HealthRunner.AfterProbeGovernance` | adapter/health/health.go:257-341 | the new state of one target after a result; other targets are untouched |

## Left out

- Coordinator mode of the store and the journal (leases, compare-and-swap): its owner package defines those guarantees.
- File locks, directory syncs and platform replace calls: one writer and an atomic durable replace are taken as given.
- The in-memory checkpoint store: it is the file store with a publication that always succeeds and nothing to reopen.
- Context cancellation of store and journal calls: it is only looked at before anything changes.
- Repeated clock readings inside one operation, except the two of `validateRecord` and the two of `Upsert`: they are one reading.
- I/O errors that the memory engine returns from a file step and survives: a step succeeds or the process ends.
- Torn WAL lines: a line is one write, and recovery returns an error for a part of one.
- Power loss for the snapshot and index files, which are synced when they are written, and as an event inside a run: it is stated for every file step of every run.
- The profile, model and policy names in the memory index: they do not change between openings, so only the checksum can drift.
- Record metadata of the memory engine and the sorting and limiting of query answers: they would only add easy members.
- MemoryEngine.FilesystemEngine.CompactNow: the order of records in the snapshot file is not modelled, because reading it back does not depend on it.
- The nested namespace maps of the memory engine are one map keyed by namespace and id.
- The public `ProjectionLedger.Commit`: on a bound ledger it advances independently of the journal.
- 64-bit wrap-around of event sequences, which no run reaches.
- The native path of `ResumeDynamicAction` and of `CancelRun` on a paused native run: the store operations they call are covered by `NativeContinuation`.
- Model calls, Run and Stream loops, realtime ingress and runtime input lanes.
- `HostBarrier` takes every deferred item to have a commit action, as both producers of the source give it one.
- Liveness of `deliver`: only the safety of claims, barriers and publications is stated.
- Parsing of version strings and ranges, manifest validation, configuration normalisation, capability negotiation.
- Health caching, result decoration and reason codes.
- The squash, spill and tier steps of context assembly, except the cold-store quota.
- Floating-point rounding and NaN in threshold tuning and backoff.
