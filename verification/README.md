# Recording transcription: the transactional task lifecycle

A recording is uploaded, transcribed and summarized by a pool of workers in one process, over four MySQL
tables and a flat data directory. This project models that protocol in Dafny and proves what it is built to
guarantee: one writer per attempt, rows that are the replay of their event log, summaries that belong to the
transcript beside them, files that agree with rows at every crash point, deletion that cannot be undone, and a
boot sequence that recovers from any state a crash can leave.

## Reading order

* `Lifecycle`, `Tables`: statuses and matrix, the tables, and each transaction as a guard and an effect on them.
* `EventLog`, `Invariant`, `Fencing`: the log as an automaton of its own; the invariant every transaction keeps;
  what follows for whole histories of transactions.
* `Database`, `BatchReset`: the transactions statement by statement on a mutable database object, with a failing
  statement, a rollback and the two kinds of lost commit reply, each proved equal to its effect.
* `RowLocks`: the inside of the transactions (hash-lock row, row locks, reads, writes, commits of many clients
  interleaved) and the proof that it refines whole transactions; `Deadlocks`: when clients block each other.
* `Bytes`, `Uuid`, `Utf8`, `SummaryJson`, `Backing`, `FileStore`, `CancelTable`, `WakeUps`, `Queries`: the parts
  with a specification of their own.
* `Clients`, `Writes`, `Processing`, `Services`: the worker's round and its bounded write loop, upload with
  compensation, deletion, cleanup and boot recovery, as programs over those objects.
* `World` and `WorldInv`: the whole service as one step system with crashes and its invariant; `WorldRounds`,
  `WorldUploads`, `WorldDeletions`, `WorldRuns` prove that every step keeps it; `WorldHistory`, `WorldSafety`,
  `WorldOwners` and `WorldBoot` draw the conclusions for whole runs; `Instances` reaches, from an empty service,
  the states where the negative results begin.

`Sound` is the invariant of the tables kept folded, `LocksOk` that of the lock machine, `Taken` a step; they
unfold only where a proof mentions what is inside. The steps of `World` use the transactions as the contracts of
`Database` describe them; a lost commit reply takes effect at that step or never, so it has settled before the
next boot.

## Where the code and its documents differ

* docs/design/retry-and-summary-stream.md:9 gives a manual retry a new budget of automatic attempts. The code
  compares the absolute attempt with 3 (internal/infrastructure/persistence/mysql/processing_tx.go:401), so it
  does not; the model follows the code, and at most two automatic retries happen in a task's whole life.
  After a manual retry from attempt a at most max(0, 2 - a) automatic retries follow; since attempts start at
  1, that is never the full budget of two (`ManualRetryKeepsBudget`, `ManualRetryBudget`, `ThirdFailureStaysFinal`).
* The deletion mark and the scan of an upload that reuses content lock the recording before its task; all other
  transactions lock the task first. So deadlocks are possible, and `Deadlocks` says exactly when; a victim is a
  rolled-back client.
* The boot reset looks at in-flight rows whether or not their recording is marked, so it may write to a task
  being deleted, if it was found in flight (`MarkedTasksExactly`, `ResetReachesMarked`).
* "Every in-flight row has a worker" is lost by lost claim replies, by rounds that end without a write, and by
  crashes, and by nothing else (`OwnerLost`, `OwnerOrLost`).

## Model

| member | source | states |
|---|---|---|
| WorldHistory.AlwaysOk | internal/application/processing/process.go:69-238 | In every state any run of the service can reach, whatever the interleaving of rounds, uploads, deletions, retries, boots, failed inspections, crashes and lost commit replies, the tables are in order and agree with the directory, the worker rounds and the cancel table |
| WorldRuns.StepKeeps | internal/application/processing/process.go:69-238 | The same as one step: every action of every part of the service keeps the global invariant |
| WorldHistory.DoneRowsAreGenuine | internal/application/processing/process.go:113-151 | In every reachable state a done row's summary is what one summary call returned when given exactly the row's transcript, that transcript is what the same round's transcription call returned, and that round is the one whose claim of the row's current attempt took effect; the three moments are exhibited in the run, in the order claimed, heard, made, before the state |
| WorldSafety.ClaimedAtMostOnce | internal/infrastructure/persistence/mysql/processing_tx.go:90-109 | Over a whole run, crashes included, no attempt of a task is claimed by two rounds |
| WorldSafety.OneRoundPerAttempt | internal/infrastructure/persistence/mysql/processing_tx.go:42-149 | In every reachable state two rounds past their claim that hold the same key are the same round |
| WorldOwners.OwnerLost | internal/application/processing/process.go:69-238 | For every step but the boot reset: a row in flight loses its owner exactly if the step is a claim whose reply is lost, the end of the round that holds its key, or the crash of the process with such a round; and a row without owner stays in flight and without one until it is gone |
| WorldOwners.OwnerOrLost | internal/application/processing/process.go:69-238 | In every reachable state a row in flight has a round at work on it, or lost it at an earlier step of the run that is one of those, and has been in flight without owner ever since |
| WorldOwners.OwnerClaimed | internal/infrastructure/persistence/mysql/processing_tx.go:90-149 | In every reachable state a row in flight was claimed, and whoever works on it is the round that claimed its current attempt |
| WorldOwners.ResetLosesNothing | internal/infrastructure/persistence/mysql/processing_tx.go:526-639 | The boot reset finds nobody working, and when it takes effect no row in flight is left without owner |
| WorldOwners.LostClaimLeavesNoOwner | internal/infrastructure/persistence/mysql/processing_tx.go:133-149 | So at least one owner does not hold: from any state with a round claiming and a claimable row, the claim can take effect while its reply is lost, leaving an in-flight row whose key no round holds |
| Instances.OwnerlessReached | internal/infrastructure/persistence/mysql/processing_tx.go:133-149 | That is reached: a run from an empty service ends in service with a row in flight, of a recording in use, that nobody works on |
| WorldSafety.RowsNeverMoveBack | internal/infrastructure/persistence/mysql/processing_tx.go:352-443 | Between any two moments of a run at which a task exists, its attempt never decreased, and within an attempt its status never went back |
| WorldSafety.RowsAreTheirLogs | internal/infrastructure/persistence/mysql/processing_tx.go:86-131 | In every reachable state a row has the shape of its status, its stored events are numbered exactly 1 to event_seq, the row is the replay of that log, and status and attempt match the last event (attempt one more after a scheduled automatic retry) |
| WorldSafety.AtMostNineStored | internal/infrastructure/persistence/mysql/processing_tx.go:398-435 | In every reachable state, however long the log: if the stored events of a task after some number are worker events or the deletion request, at most nine of them are worker events |
| WorldSafety.DeletionIsForever | internal/infrastructure/persistence/mysql/recording_tx.go:246-360 | Over any run a recording once marked or gone stays marked or gone, its marked row never changes, and once gone its identifier never reappears |
| WorldSafety.PurgedTasksStayGone | internal/infrastructure/persistence/mysql/recording_tx.go:376-397 | A task identifier that was purged never reappears in the run |
| WorldBoot.MarkedTasksExactly | internal/infrastructure/persistence/mysql/processing_tx.go:80-84 | After the mark a step that does not purge the task alters its row, products or log exactly if it is a boot reset that takes effect and the row was in flight |
| WorldBoot.ResetReachesMarked | internal/infrastructure/persistence/mysql/processing_tx.go:526-545 | That happens: from service with a marked recording whose task is in flight, a crash and a boot that could not finish the deletion lead to a reset that writes to the marked task |
| Instances.MarkedResetReached | internal/infrastructure/persistence/mysql/processing_tx.go:526-545 | That is reached: such a run from an empty service, in which the task of a marked recording is altered after the mark |
| WorldSafety.HaltsExactly | internal/application/processing/process.go:191-238 | While the run goes on, a step halts the service exactly if it is the third try of a write and ends in an error, whatever the error; in a stopped run exactly if the loop ends, at the third try or early, with a last error that is not a cancellation |
| WorldSafety.HaltedSince | internal/application/processing/process.go:191-238 | In every reachable state a halted service halted at an earlier step of the run that is one of those, a third error if the run was going on, and was halted ever since |
| WorldSafety.FilesMatchRows | internal/application/recording/upload.go:57-145 | In every reachable state each recording not being deleted has its file with the recorded size and hash, and shares its path with no other recording |
| WorldSafety.LiveFilesStay | internal/application/recording/delete.go:91-111 | No step removes or changes the file of a recording that is in use when the step begins |
| WorldSafety.SilencedForEver | internal/application/processing/process.go:99-113 | Once a deletion marked its recording and ran CancelTask to its end, at no later moment is a round inside a transcription or summary call for the task, or between its recheck and such a call, with a live context |
| WorldSafety.SilencedGrows | internal/application/recording/delete.go:91-95 | A task counts as silenced from the moment a deletion that marked its recording has cancelled the last collected handle, and stays silenced |
| WorldRounds.RoundCalls | internal/application/processing/process.go:99-107 | The only way into an external call leads through a recheck that found the recording not being deleted |
| WorldDeletions.CollectCovers | internal/infrastructure/worker/canceltable.go:52-60 | Every round inside a call for the task is in the table when CancelTask collects |
| WorldRounds.RoundKeeps | internal/application/processing/process.go:69-151 | Every step of a worker round keeps the global invariant |
| WorldRounds.ClaimIsNew | internal/infrastructure/persistence/mysql/processing_tx.go:86-109 | The attempt a claim takes was never claimed before |
| WorldUploads.UploadKeeps | internal/application/recording/upload.go:50-159 | Every step of an upload, with its three transaction outcomes and its compensation, keeps the global invariant |
| WorldUploads.EndKeeps | internal/application/recording/upload.go:115-141 | Compensation deletes a file that no recording was created for, and a vanished upload harms nothing |
| WorldDeletions.DeletionKeeps | internal/application/recording/delete.go:91-135 | Every step of marking, cancelling, removing and purging keeps the global invariant |
| WorldDeletions.RemoveFiles | internal/application/recording/delete.go:98-111 | The file a deletion removes belongs to no recording in use and to no upload in progress |
| WorldBoot.InspectionPassesAlways | internal/application/processing/recover.go:61-69 | In every reachable boot the integrity inspection finds nothing and lets the boot go on |
| WorldBoot.BootLeavesAlone | bootstrap/wire.go:143-157 | No step of the boot sequence, nor of the deletions it resumes, touches row or log of a pending, done or failed task whose recording is in use |
| WorldBoot.BootEndsClean | bootstrap/wire.go:149-157 | When the boot begins to serve, no row is in flight, and after a sweep the directory holds exactly the files found that are referenced under a final name or whose deletion failed |
| WorldBoot.BootSucceeds | bootstrap/wire.go:130-164 | From every state a crash can leave, the boot sequence can run through to service: every marked recording is deleted for good, exactly the in-flight rows of the others are reset in the chosen mode, nothing is in flight then, and the directory holds exactly the still referenced files that were there |
| WorldRuns.SweptFiles | internal/application/processing/recover.go:113-124 | Deleting a temporary or unreferenced file takes no file of a recording in use |
| RowLocks.InterleavingsAreAtomic | internal/infrastructure/persistence/mysql/recording_tx.go:66-130 | For every interleaving of uploads, marks, purges, worker transactions, retries and rollbacks at lock, read, write and commit granularity: the tables stay in order, each step is one whole transaction or none, and at most one recording that is not being deleted exists per content hash |
| RowLocks.CommitIsAtomic | internal/infrastructure/persistence/mysql/recording_tx.go:66-370 | Whenever the tables change, the guard of the committing transaction holds on the committed tables at that moment, and what it wrote from rows read earlier under lock is the effect of the whole transaction |
| RowLocks.ReuseIsCurrent | internal/infrastructure/persistence/mysql/recording_tx.go:89-110 | A reused upload names the one recording that is active with its content at the commit point, with its task and the task's status |
| RowLocks.StepKeepsLockInv | internal/infrastructure/persistence/mysql/recording_tx.go:246-370 | Each move keeps what every open transaction knows: rows read under lock are still current, an absence found under the hash lock still holds |
| Deadlocks.StuckIffWaiting | internal/infrastructure/persistence/mysql/recording_tx.go:66-370 | At lock granularity a client cannot take its next step exactly when the lock it needs is another client's, where a claim that finds its task's row locked skips it instead of waiting |
| Deadlocks.ReachableDeadlocks | internal/infrastructure/persistence/mysql/recording_tx.go:274-287 | Deadlock freedom does not hold, and exactly when: a reachable state contains a set of clients that wait for each other if and only if a mark or a reuse scan that holds a recording and waits for its task, and a claim, stage write, retry or purge that holds the task and waits for the recording, cross |
| Deadlocks.DeadlockNeedsRecordingFirst | internal/infrastructure/persistence/mysql/processing_tx.go:50-67 | In every reachable state in which no mark and no reuse scan stands between its two row locks, some open transaction can take its next step |
| Deadlocks.CrossingStays | internal/infrastructure/persistence/mysql/recording_tx.go:274-287 | A crossing lasts, whatever anybody does, until one of the two is rolled back |
| Deadlocks.MarkCanCross | internal/infrastructure/persistence/mysql/recording_tx.go:274-287 | From any tables with a claimable task, a mark and a claim of it can be interleaved into a crossing |
| Deadlocks.ScanCanCross | internal/infrastructure/persistence/mysql/recording_tx.go:89-98 | So can an upload of the same content, whose scan locks the recording and then its task |
| Deadlocks.StepKeepsLocksOk | internal/infrastructure/persistence/mysql/recording_tx.go:79-98 | Every lock belongs to an open transaction that has come far enough to hold it, and every move keeps that |
| Invariant.OpKeeps | internal/infrastructure/persistence/mysql/processing_tx.go:42-639 | Every transaction whose guard holds keeps the tables linked, logged, shaped, parsed and unique |
| Invariant.GuardedAccepted | internal/domain/recording/task.go:25-66 | What each transaction writes is accepted by the independent log automaton: the status change is an edge of the domain matrix or the deletion request, the event continues the row, and the new row is the automaton's new state |
| Invariant.CreateUnique | internal/infrastructure/persistence/mysql/recording_tx.go:89-98 | The absence found by the join of two tables rules out every active recording with the hash, because no recording is without a task |
| Invariant.NextNumberFree | internal/domain/recording/task.go:83-86 | The number AllocateEventSeq gives the next event of a task is free in the event table |
| EventLog.LastEvent | internal/infrastructure/persistence/mysql/processing_tx.go:86-131 | Status, attempt, update time and event_seq of a row can be read off the last event of any log that replays |
| EventLog.LogChains | internal/infrastructure/persistence/mysql/processing_tx.go:112-127 | In a log that replays each event starts at the status where its predecessor ended, along an edge of the matrix or on the spot for a deletion request, with attempts that never decrease |
| EventLog.ClaimsAdvance | internal/infrastructure/persistence/mysql/processing_tx.go:90-127 | Two claims in one log carry strictly increasing attempts |
| EventLog.AtMostTwoAutomaticRetries | internal/infrastructure/persistence/mysql/processing_tx.go:398-421 | A task is retried automatically at most twice in its whole life, since the budget test looks at the absolute attempt |
| EventLog.ManualRetryBudget | internal/infrastructure/persistence/mysql/processing_tx.go:398-421 | After a manual retry from attempt a at most max(0, 2 - a) automatic retries follow in the log, and none if the task had failed because its automatic attempts were used up |
| Fencing.ManualRetryKeepsBudget | internal/infrastructure/persistence/mysql/processing_tx.go:398-435 | A failed task of attempt a that is retried by hand, claimed and fails, with or without a transcript, goes back to pending with a scheduled retry exactly if a + 1 < 3, and fails otherwise; each of these transactions finds its guard true |
| Fencing.ThirdFailureStaysFinal | internal/infrastructure/persistence/mysql/processing_tx.go:401-401 | The concrete row at which a manual retry opens no new budget: failed at its third attempt, retried by hand, it fails for good at its next failure |
| Instances.ThirdFailureReached | internal/infrastructure/persistence/mysql/processing_tx.go:398-435 | That row is reached: a history of transactions on empty tables leaves exactly it, on a recording in use |
| EventLog.OnlyBootWritesAfterDeletion | internal/infrastructure/persistence/mysql/processing_tx.go:526-639 | Everything a log holds after the deletion request was written by boot recovery |
| EventLog.DeletionRequestedOnce | internal/infrastructure/persistence/mysql/recording_tx.go:311-347 | A log holds the deletion request exactly once if the recording is marked and never otherwise |
| EventLog.AtMostNineTransitions | internal/infrastructure/persistence/mysql/processing_tx.go:398-435 | Between manual retries and restarts a task makes at most nine worker transitions |
| Fencing.OutdatedForever | internal/infrastructure/persistence/mysql/processing_tx.go:352-377 | Once a row left an attempt behind, no history makes the old key valid again: a save, complete or fail that carries it leaves the database unchanged |
| Fencing.StageWriteOnce | internal/application/processing/process.go:191-238 | A stage write takes effect at most once per key, whatever transactions run between its tries |
| Fencing.ClaimOnce | internal/infrastructure/persistence/mysql/processing_tx.go:90-109 | A later claim of the same task carries a larger attempt |
| Fencing.DeletionIrreversible | internal/infrastructure/persistence/mysql/recording_tx.go:246-397 | No history of transactions clears the mark or brings a purged recording back |
| Fencing.DeletionShields | internal/infrastructure/persistence/mysql/processing_tx.go:187-193 | Claims, stage writes and retries leave row and log of a marked recording's task untouched |
| Fencing.PurgeExact | internal/infrastructure/persistence/mysql/recording_tx.go:376-397 | A purge removes exactly the rows of its recording from the three tables and keeps everything else, hash locks included |
| Fencing.StoredEventsChain | internal/infrastructure/persistence/mysql/processing_tx.go:112-127 | In the event table every event after the first continues its predecessor along the matrix |
| Fencing.StoredClaimsAdvance | internal/infrastructure/persistence/mysql/processing_tx.go:112-127 | In the event table the claims of a task have strictly increasing attempts |
| Fencing.RowMatchesLastEvent | internal/infrastructure/persistence/mysql/processing_tx.go:424-452 | Row and last stored event agree on status, attempt and time |
| Fencing.StoredRetryBudget | internal/infrastructure/persistence/mysql/processing_tx.go:398-401 | In any tables in order a task has at most two automatic retries, and one deletion request exactly if marked |
| Fencing.StageTerminates | internal/infrastructure/persistence/mysql/processing_tx.go:401-435 | On the tables every claim, save, complete and fail brings its task strictly closer to rest, within nine steps |
| BatchReset.BatchIsPointwise | internal/infrastructure/persistence/mysql/processing_tx.go:526-639 | The bulk update with its list of prepared events equals resetting each in-flight row by itself, in any order, in both modes |
| BatchReset.BatchKeeps | internal/infrastructure/persistence/mysql/processing_tx.go:526-639 | The batch keeps the tables in order, leaves nothing in flight, and touches no other row |
| BatchReset.ResetsLeave | internal/infrastructure/persistence/mysql/processing_tx.go:544-612 | What a reset does in each mode, field by field: interrupt ends the attempt as failed with code 30003, reset opens the next attempt with an empty row; the event of the row is its last one; all other rows, recordings and events stay |
| BatchReset.SecondRunChangesNothing | internal/infrastructure/persistence/mysql/processing_tx.go:526-552 | A second reset finds nothing and changes nothing |
| BatchReset.BatchNumbersFree | internal/infrastructure/persistence/mysql/processing_tx.go:569-586 | Each prepared event carries the event_seq its row gets, and that number is still free when it is inserted |
| Database.MySql.ClaimNext | internal/infrastructure/persistence/mysql/processing_tx.go:42-149 | Claims the pending, due, unlocked row with the least creation time, identifiers breaking ties, if its recording is in use, and leaves that row transcribing, without error and due time, with its event; without marked recordings it finds nothing only if no unlocked pending row is due; gives up on a candidate being deleted; otherwise changes nothing; a lost reply means the same claim did or did not take effect |
| Database.MySql.SaveTranscription | internal/infrastructure/persistence/mysql/processing_tx.go:155-240 | Commits exactly the transcript write for the row of this key in transcribing, or nothing: without a fault it succeeds exactly if the key names a transcribing row of a recording in use in this attempt; row and event are given field by field |
| Database.MySql.CompleteTask | internal/infrastructure/persistence/mysql/processing_tx.go:246-345 | Commits exactly the completion with the stored form of the summary for the row of this key in summarizing, or nothing, whatever the summary; the stored document holds summary, key points and todos each under its own name; the tables stay in order if the summary is valid |
| Database.MySql.FailTask | internal/infrastructure/persistence/mysql/processing_tx.go:352-474 | Commits the failure of an in-flight row of this key, or nothing: attempt 1 is due again 1000 ms later, attempt 2 after 2000 ms, both as the next attempt and with that number in the event; from attempt 3 on the row is failed without a due time; the products are gone, code and message are stored |
| Database.MySql.RetryTask | internal/infrastructure/persistence/mysql/recording_tx.go:139-239 | Commits exactly the new attempt of a failed task of a recording in use with a clean row, and returns that attempt; without a fault it succeeds exactly for those; the refusals tell not visible from not retryable |
| Database.MySql.CreateOrReuse | internal/infrastructure/persistence/mysql/recording_tx.go:66-130 | Creates the three rows exactly when no active recording has the content, otherwise names the task of a recording in use with the same hash; the rows are given field by field; every failure leaves the business tables unchanged |
| Database.MySql.MarkDeleting | internal/infrastructure/persistence/mysql/recording_tx.go:246-360 | Sets the time of the mark and appends the deletion request once, for the task every recording has; a repeated mark succeeds and changes nothing; without a fault it succeeds exactly for a recording that is there with a hash |
| Database.MySql.PurgeRecording | internal/infrastructure/persistence/mysql/recording_tx.go:376-397 | Removes the rows of the recording from the three tables in one transaction or not at all, whatever the identifier |
| Database.MySql.InspectIntegrity | internal/infrastructure/persistence/mysql/processing_tx.go:481-517 | Reports exactly the tasks without recording and the active recordings without task; on tables in order, none |
| Database.MySql.ResetInFlight | internal/infrastructure/persistence/mysql/processing_tx.go:526-639 | Scan, prepared events, one bulk update and the inserts leave exactly what resetting the scanned rows one by one leaves: in interrupt mode every in-flight row failed in its attempt with code 30003, otherwise pending in the next attempt without products, error, start and end, each with its event last; the edge check, the row count and the inserts never fail |
| Database.MySql.ScanInFlight | internal/infrastructure/persistence/mysql/processing_tx.go:533-545 | Lists every in-flight task once |
| Database.MySql.PrepareEvents | internal/infrastructure/persistence/mysql/processing_tx.go:555-590 | Every scanned row passes the recovery edge and gets its event under its next number: task_interrupted with code 30003 in its attempt, or task_recovered in the next one |
| Database.MySql.UpdateInFlight | internal/infrastructure/persistence/mysql/processing_tx.go:592-620 | The bulk update rewrites exactly the scanned rows and its row count equals the scan |
| Database.MySql.InsertAll | internal/infrastructure/persistence/mysql/processing_tx.go:622-632 | All prepared events are inserted, none meets a taken number |
| Database.MySql.ListStoragePaths | internal/infrastructure/persistence/mysql/processing_tx.go:642-648 | The paths of all recordings, marked ones included |
| Processing.ProcessService.Persist | internal/application/processing/process.go:191-238 | One to three tries, each a call of the transaction on the tables the earlier tries and the other clients left; it goes on exactly after errors while the run goes on; success, stale and interrupted mean what the last reply, the context and the wait say; at most one try took effect; the service halts exactly when the loop ends in an error that is not the run's cancellation |
| Writes.LandsOnce | internal/application/processing/process.go:191-238 | Over any sequence of tries of one stage write, with ambiguous commits and other clients in between, at most one takes effect |
| Writes.PersistedOnce | internal/application/processing/process.go:201-203 | A success took effect with its last try and with none before |
| Writes.CalmWrite | internal/application/processing/process.go:193-210 | Without other clients and without a fault the first try settles it: it persists exactly if the row still matches, and otherwise is dropped as stale |
| Writes.ThreeTries | internal/application/processing/process.go:191-238 | At most three tries, exactly three if all fail in a run that goes on, which exhausts the write; in a stopped run a failure ends it and is an interruption exactly if the wait was interrupted before the third try or the error itself is a cancellation and not an unknown commit |
| Processing.ProcessService.Process | internal/application/processing/process.go:69-152 | One round: it claims exactly if the service is not halted and, without a fault, the first ready task has its recording in use; how it ends follows from its recheck, the answers of its calls and the tries of its writes; a calm round completes; every exit leaves the cancel table without the round's key |
| Processing.ProcessService.Execute | internal/application/processing/process.go:75-97 | The claimed part with its deferred calls: the stages as told, which need the key registered under a live handle, that handle cancelled and the key gone from the cancel table however it ends, and after a panic one recovery write |
| Processing.ProcessService.Stages | internal/application/processing/process.go:99-151 | Recheck, transcribe, save, summarize, complete: the round stops, fails with which code, panics, is not saved or completes exactly as its recheck, the answers of the external calls and the tries of the writes say, and only exhausted writes halt the service |
| Processing.ProcessService.Recheck | internal/application/processing/process.go:99-107 | Passes exactly when both reads succeed and show the row still transcribing in this attempt and its recording not being deleted, on the two states they saw |
| Processing.ProcessService.Finish | internal/application/processing/process.go:135-151 | From a saved transcript on: stopped, failed with the classified code, panicked or completed exactly as the summary call answered, with the tries of its last write |
| Processing.ProcessService.FailRound | internal/application/processing/process.go:176-185 | The failure write carries the shortened cause and goes through the loop, with its tries and their outcome |
| Processing.ProcessService.RecoverRound | internal/application/processing/process.go:157-172 | After a panic at most one failure write, none when the run is being stopped |
| Processing.CompletionHolds | internal/application/processing/process.go:113-151 | Whatever the others did and however often the writes were tried, a persisted completion left the row, as long as it has not moved, with the very summary made from the very transcript of the round |
| Processing.CalmRoundCompletes | internal/application/processing/process.go:99-151 | A round without faults and other clients on a row it holds goes through all its stages and leaves exactly the saved and completed row |
| Clients.Perform | internal/infrastructure/persistence/mysql/processing_tx.go:42-474 | Whatever other clients call, a task moves forward only and keeps its products while it does not move |
| Queries.GetTask | internal/infrastructure/persistence/mysql/query.go:27-48 | Finds the task exactly if its row is in the first read and its recording in use in the second, and shows the fields of that row, an error exactly if it has a code |
| Queries.GetRecording | internal/infrastructure/persistence/mysql/query.go:51-90 | An inconsistency is reported exactly when the recording was purged between the two reads, so never on one state; a result is shown exactly for done tasks and is the stored summary read back |
| Queries.StoredSummaryReadable | internal/infrastructure/persistence/mysql/query.go:217-226 | On tables in order exactly the done rows have a summary, and it parses back to a valid one whose stored form it is |
| Queries.GetDeleting | internal/infrastructure/persistence/mysql/query.go:152-162 | A cleanup view exists exactly for marked recordings |
| Queries.ListDeleting | internal/infrastructure/persistence/mysql/query.go:166-196 | Every marked recording once, by the time of its mark and then by its identifier, with its path and its own task |
| Services.UploadService.Upload | internal/application/recording/upload.go:50-159 | Refused exactly when the content or the storage is at fault; otherwise, without a database fault, accepted with its rows, its file and one notification if no active recording has the content, and reusing the one that has it if there is one; reuse and rollback delete the stored file again, an unknown commit keeps it; a created row carries size and hash of the bytes received, a reused one their hash; recordings in use keep their files throughout |
| Services.UploadService.Commit | internal/application/recording/upload.go:109-145 | Without a fault the content decides between acceptance and reuse; each outcome of the transaction decides between keeping and deleting the stored file |
| Services.DeleteService.Finalize | internal/application/recording/delete.go:91-135 | Cancels every registered execution of the task, deletes the file, then purges; exactly when both work are the rows gone; otherwise the recording stays marked |
| Services.DeleteService.Delete | internal/application/recording/delete.go:47-69 | Deleted means row and file are gone; pending means the recording is no longer active; in every case rows, tasks and events of other recordings are untouched |
| Services.MarkStaysInside | internal/infrastructure/persistence/mysql/recording_tx.go:246-360 | Everything a mark writes belongs to the recording it marks |
| Services.DeleteService.CleanupPending | internal/application/recording/delete.go:73-85 | One pass removes exactly the marked recordings whose file could be deleted and whose purge took effect, whatever happens to the others |
| Services.CleanPassClearsAll | internal/application/recording/delete.go:73-135 | A pass without trouble removes every marked recording and its file |
| Services.LaterPassFinishes | internal/application/recording/delete.go:73-85 | A pass leaves marked, unchanged, exactly the recordings it could not finish, and a later pass without trouble ends, in tables and in files, where a first one without trouble would have |
| Services.CleanupSparesActive | internal/application/recording/delete.go:73-135 | Whatever the trouble, recordings in use keep row, task, log and file |
| Services.RecoverService.RemoveOrphanFiles | internal/application/processing/recover.go:100-131 | Keeps exactly the referenced names without the prefix tmp- and the files whose deletion failed, counts the deleted ones, and deletes nothing if the directory or the references cannot be read |
| Services.RecoverService.Boot | bootstrap/wire.go:130-157 | The sequence as one program: ready means nothing in flight, the rows that were in flight reset as configured, finished deletions gone, and a swept directory |
| CancelTable.Table.CancelTask | internal/infrastructure/worker/canceltable.go:52-64 | Cancels exactly the handles registered for the task and leaves the table as it was |
| CancelTable.Table.Register | internal/infrastructure/worker/canceltable.go:25-29 | A later registration of a key replaces the earlier one |
| CancelTable.Table.Unregister | internal/infrastructure/worker/canceltable.go:32-36 | Removes exactly this key |
| CancelTable.Table.Cancel | internal/infrastructure/worker/canceltable.go:40-47 | Cancels the handle of this key, nothing for a key nobody registered |
| WakeUps.NoLostWakeUp | internal/infrastructure/worker/pool.go:81-115 | For every interleaving of notifiers and worker loops, a worker busy or waiting with an empty channel has begun a round after every notification that reached it |
| WakeUps.HappensKeeps | internal/infrastructure/worker/pool.go:81-115 | Every step of a loop or notifier keeps the order of stamps on which this rests |
| WakeUps.Pool.Notify | internal/infrastructure/worker/pool.go:108-115 | Every channel is full afterwards, and no send blocks |
| WakeUps.Pool.Start | internal/infrastructure/worker/pool.go:49-68 | Only the first call launches the workers |
| WakeUps.Pool.Drain | internal/infrastructure/worker/pool.go:119-127 | Cancels claiming once, only after Start, and never the running rounds |
| WakeUps.Pool.Stop | internal/infrastructure/worker/pool.go:133-149 | Cancels claiming and running at the first call after Start; a call before Start uses the flag up |
| FileStore.Store.StreamCopy | internal/infrastructure/filestore/local/store.go:75-105 | The outcome is the verdict on the whole byte stream, whatever the chunks, unless a cancellation or a failing write strikes, and it succeeds exactly if the verdict does and neither strikes; on success file, size and hash are those of the whole stream, the hash being the text of the state reached by absorbing every byte in turn |
| FileStore.Store.Save | internal/infrastructure/filestore/local/store.go:43-71 | Succeeds exactly when the reader does not fail, the length is between one byte and the limit, and no storage trouble strikes; success stores exactly the stream under the final name; every failure whose cleanup works leaves the directory as it was |
| FileStore.ChunkingDoesNotMatter | internal/infrastructure/filestore/local/store.go:79-100 | Splitting a read, inserting an empty one or delivering data together with the end gives the same stream |
| FileStore.Store.Delete | internal/infrastructure/filestore/local/store.go:108-120 | A missing file counts as deleted; failure leaves the directory as it was |
| FileStore.Store.ListStored | internal/infrastructure/filestore/local/store.go:124-136 | Every name once, or nothing when the directory cannot be read |
| Bytes.AbsorbChunks | internal/infrastructure/filestore/local/store.go:96-97 | Hashing chunk after chunk is hashing the whole |
| Bytes.HashesOnce | internal/infrastructure/filestore/local/store.go:91-104 | A hash is that of the data exactly if it is the text of the last of a chain of states that starts with the initial one and absorbs one byte after the other |
| Lifecycle.ProcessingTask.Transition | internal/domain/recording/task.go:57-66 | Moves exactly along the nine edges of the matrix for the current attempt; a refusal leaves the task as it was, a stale attempt is refused first |
| Lifecycle.ProcessingTask.TransitionForRecovery | internal/domain/recording/task.go:71-80 | Leaves only in-flight statuses, only for pending or failed, always along the matrix |
| Lifecycle.ProcessingTask.AllocateEventSeq | internal/domain/recording/task.go:83-86 | Numbers are consecutive, the first is 1 |
| SummaryJson.RoundTrip | internal/domain/recording/summary.go:20-58 | What is stored parses back to the same summary exactly when it was valid; a nil slice cannot be read back |
| SummaryJson.ParseAccepts | internal/domain/recording/summary.go:17-58 | Accepts exactly the documents with the three fields, non-empty strings throughout; every accepted value is valid, and its stored form is the document that was read |
| SummaryJson.ParseReads | internal/domain/recording/summary.go:31-57 | What is read is what the document says: its summary, key_points and todos, each from the field of that name, element by element |
| SummaryJson.MissingIsNamed | internal/domain/recording/summary.go:40-47 | A missing or null field is told apart from an empty list, and the first one missing is named |
| SummaryJson.CheckNonEmptyElements | internal/domain/recording/summary.go:64-71 | Passes exactly when no element is empty |
| Utf8.TruncateMessage | internal/application/processing/process.go:255-267 | Short messages stay; long ones become the prefix ending before the last start byte within the limit plus the ellipsis, at most 503 bytes; valid text stays valid and is cut at most three bytes below the limit |
| Utf8.SanitizeFilename | internal/domain/recording/recording.go:38-51 | The rune loop computes the specification the next rows are about; its result has at most 255 bytes and no byte of a control character |
| Utf8.SanitizedShape | internal/domain/recording/recording.go:36-51 | At most 255 bytes of valid UTF-8 without control characters, a prefix of the repaired name that ends only where the next character would not fit |
| Utf8.SanitizedFixes | internal/domain/recording/recording.go:36-51 | Exactly the valid, control-free names of at most 255 bytes stay as they are |
| Utf8.CleanBytes | internal/domain/recording/recording.go:42-44 | A valid text is free of control characters exactly if no byte is below 0x20 or 0x7F and no 0xC2 stands before a byte below 0xA0 |
| Utf8.PrintableFilters | internal/domain/recording/recording.go:41-49 | On code points: exactly U+0000 to U+001F and U+007F to U+009F are left out, everything else stays in order |
| Utf8.ToValidRepairs | internal/domain/recording/recording.go:39-39 | Valid text is left alone, and each run of bytes that start no character becomes one U+FFFD |
| Utf8.ValidEncodes | internal/domain/recording/recording.go:39-39 | A valid text is the encoding of a sequence of code points without surrogates up to U+10FFFF, as section 3 of RFC 3629 defines it |
| Utf8.EncodingIsValid | internal/domain/recording/recording.go:39-39 | And every such encoding is valid |
| Utf8.SanitizeIsIdempotent | internal/domain/recording/recording.go:38-51 | Sanitizing twice is sanitizing once |
| Utf8.SplitAtStart | internal/application/processing/process.go:267-267 | In valid text a byte that is not a continuation byte is a character boundary |
| Utf8.StartWithinFour | internal/application/processing/process.go:260-265 | Among four consecutive bytes of valid text one starts a character |
| Uuid.New | internal/pkg/uuid/uuid.go:8-24 | The text is canonical, shows the drawn bytes with version and variant set, and nothing else |
| Uuid.IsValid | internal/pkg/uuid/uuid.go:28-47 | The scan accepts exactly 36 characters with dashes at 8, 13, 18 and 23 and hexadecimal digits elsewhere |
| Uuid.TextDetermines | internal/pkg/uuid/uuid.go:8-24 | Different bytes give different text |
| Uuid.NamesApart | internal/infrastructure/filestore/local/store.go:48-69 | A generated final name never carries the prefix of temporary files |

## Left out

* HTTP routing, handlers, DTOs, SSE, static pages, configuration, SQL file splitting and migrations: plumbing.
* The LLM client and the transcribers: any text, any valid summary, any classified error, a cancellation or a panic.
* InnoDB and GORM beyond row locks and atomic commits. Claims skip an arbitrary set of locked rows; fairness of
  SKIP LOCKED and deadlock detection are not modelled; a rollback is possible at any moment.
* Real time, tickers, timeouts and shutdown budgets: times are parameters, draining and stopping are steps that
  close claiming or cancel running.
* SHA-256 is a streaming fold over an opaque state; random bytes, free disk space and clocks are parameters;
  identifiers and generated names are assumed fresh.
* Event identifiers, request identifiers, instance identifiers and the mirroring of events to log files,
  `task_deleted` included: they carry no protocol state.
* `CreateWithTask` bypasses the hash lock and upload does not use it; `ListRecordings`, `RetryService`,
  `QueryService` and the error-code table delegate or list, and hold no protocol state of their own.
* Text in rows is a sequence of characters; `Utf8.Column` takes a byte string over byte by byte.
* A reader that never ends: the copy loop is proved for readers whose last call ends the stream.
- SummaryJson.Parse: works on JSON values, so it does not model field names matched without regard to case,
  duplicate keys, or text around the value, because those are decided by encoding/json before it.
- Database.MySql.MarkDeleting: runs as one uninterrupted call, so the recording found by its unlocked first read
  cannot be gone at its locked read; the interleaved form is in `RowLocks`.
- Services.UploadService.Upload: runs without other clients between its steps; the interleavings, with a crash at
  every point, are in `World`.
- Services.DeleteService.CleanupPending: reads its list and the rows from one state; later rows that meanwhile
  disappear are covered by `World`, where each row of a pass waits on its own.
- Processing.ProcessService.Process: panics come from the two external calls only; `World` lets a round panic
  anywhere after its claim.
