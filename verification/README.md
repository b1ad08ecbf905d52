# Backup control plane: a verified model

The Go server keeps backup plans, batches, tasks, attempts, jobs and snapshots in one SQLite database that it opens
with a single connection (`apps/server/internal/persistence/store.go:37`). Every transaction, and every statement
outside one, is therefore one atomic step. This project models those steps, the programs that issue them, and the
file operations around them, and proves what they keep over whole runs. `dafny verify dfyconfig.toml` covers the whole
project.

How the files fit together:

- `Tables`, `QueueSpec`: the rows of one tenant, and one function per transaction. `QueueStore`: the same
  transactions as methods of a class that runs their statements in order, each proved equal to its function.
- `QueueInvariants`: what each transaction keeps. `QueueRuns`: workers with a program counter and a lease token,
  callers, recovery, failing calls and crashes, interleaved one transaction at a time, with a history of each task.
  `QueueTheorems`, `QueueSafety`, `QueueCounters`, `QueueLaws`, `QueueRecords`, `QueueOrphans`, `QueueDelivery`,
  `QueueOwnership`: what holds after any sequence of such steps.
- `PlanRuns`, `Scheduling`: expanding a plan into a batch, and catching up on missed occurrences.
- `Scopes`, `SourceScan`: rewriting a path selection, partitioning a scan, filtering it.
- `Retention`, `Library`: which snapshots a retention run keeps, and the deletions it makes.
- `Listing`, `Cursors`, `Paging`: ordered queries, cursor texts, reading page by page.
- `Paths`, `Archive`, `ScannedTrees`, `Commit`: path checks, archive names and export, and the commit of a snapshot.
- `Text`, `Sets`: strings and finite sets.

A statement that returns an error and a process that dies leave the same tables behind, so both are the
nondeterministic branches (`if *`) of the methods. Where a method takes a `calm` parameter, a calm call takes none
of them, and its contract also says when such a call succeeds. Ids, lease tokens, clocks, the schedule, the state
of the source directories and the bytes read from them are parameters or arbitrary choices. An id drawn by
`randomID` is one that no row uses. Strings are sequences of bytes. Times are whole seconds as stored; `RunDue`
compares them with a clock in nanoseconds.

## What the proofs found

- A succeeded job does not mean that its task can succeed. A task whose job has succeeded is lost exactly when no
  worker on its way to completing it holds its current lease (`QueueDelivery.OrphanedExactly`). Exactly three kinds
  of steps bring that about: a commit by a worker that does not hold the task's current lease, the death or a failed
  call of the worker that does, and a recovery of its lease (`QueueDelivery.OrphaningSteps`). The first is
  decided by a comparison the committing worker could make (`QueueDelivery.CommitOrphansExactly`), and
  `QueueOrphans.StaleCommitOrphans` is a run in which it happens.
- A job is created before the task that names it. A stop in between leaves a queued job that no worker ever starts
  (`QueueOwnership.StraysEnd`, `QueueOwnership.StraysNeverRan`) and that keeps its deployment busy
  (`QueueOwnership.StrayBlocks`). It stays until it gets its task or is ended, by its id or with the queued work of its
  plan, and a run leaves such a job exactly when it created one and none of that has happened since
  (`QueueOwnership.StraysOverRuns`).
- The batch counters `queued`, `failed` and `skipped` drift apart, by one common amount
  (`QueueSafety.BatchCounters`), when a queued task is cancelled, or ended with its plan by a superseding edit or a
  pause. A batch is off exactly when that has happened to a task of it and no later step has recounted the batch
  (`QueueCounters.MiscountsExactly`); `QueueCounters.CancellationMiscounts` is such a run.
- `RunPlan` that stops after writing its batch row leaves a batch that every later call reports as the existing
  one: the contract of `PlanRuns.RunPlan` says such a call changes nothing. A plan none of whose targets exists
  any more leaves a batch that stays QUEUED (`PlanRuns.FinishedUnlessNobodyLives`).
- The comment above `RunPlan` says that targets that are no longer backupable are recorded as skipped. The code
  drops targets that are gone, and a target that exists but is not backupable ends the call with an error. The
  model follows the code.
- `Delete` moves the directory before it writes the row. Stopped in between, it leaves an active row without a
  directory; no later deletion of it succeeds, and a retention run that wants it gone fails there
  (`Library.InterruptedDeletionStrands`, `Library.Library.ApplyRetention`).
- `CommitArchive` falls back to a second directory name without looking whether that one is free. Rows keep their
  archives as long as no active row lives in the directory it takes. If one does, it keeps its archive in an accepted
  commit exactly when it describes the same bytes, and in one that is refused after the move never, because the
  clean-up removes the directory (`Commit.Engine.Execute`, `Commit.RefusalUnbacks`). When a row may live there is
  `Commit.ChosenIsUnclaimed`, and three jobs that bring it about are `Commit.CollidingWorks`.
- A task that is recorded as skipped has no end time: the insertion leaves it empty although the caller passes one
  (`PlanRuns.TargetsPassedOver`).
- A selected path may end in a parent step: `docs/..` passes the tests for unsafe paths (`Scopes.UnsafeEscapes`,
  `Scopes.TrailingParentPasses`).
- A cursor for a row whose id is empty or holds a NUL byte is refused by the next request
  (`Cursors.CursorRoundTrip`).

## Model

| member | source | states |
|---|---|---|
| QueueStore.Store.ClaimNextTask | apps/server/internal/persistence/queue.go:429-466 | Claims the task of the highest priority that waits, among those the one available longest, then the oldest, then the least id; opens attempt number attempt_count+1 and recounts the batch; claims nothing and changes nothing exactly when no task waits |
| QueueStore.Store.SetTaskStatus | apps/server/internal/persistence/queue.go:468-481 | Moves a leased task to another status only under its current token, else reports not found |
| QueueStore.Store.HeartbeatTask | apps/server/internal/persistence/queue.go:492-495 | Extends a lease only under its current token and only while the task has not ended |
| QueueStore.Store.CompleteTask | apps/server/internal/persistence/queue.go:497-525 | Ends task, lease and running attempts and recounts the batch, under the current token only |
| QueueStore.Store.RetryTask | apps/server/internal/persistence/queue.go:527-558 | Requeues task and failed job with a delay; when reopening the job trips the active-instance index all four tables are as before |
| QueueStore.Store.FinishTaskFailure | apps/server/internal/persistence/queue.go:560-588 | Ends the task with a failure status and code under the current token only |
| QueueStore.Store.CancelTask | apps/server/internal/persistence/queue.go:590-606 | Cancels a queued task and then its queued job, without a recount; reports success without effect for a leased task |
| QueueStore.Store.CancelQueuedTask | apps/server/internal/persistence/queue.go:595-600 | First of the two statements of a cancellation |
| QueueStore.Store.CancelQueuedJob | apps/server/internal/persistence/queue.go:600-603 | Second of the two statements of a cancellation |
| QueueStore.Store.RequeueExpiredTasks | apps/server/internal/persistence/queue.go:608-646 | Requeues exactly the tasks that are neither queued nor ended and whose lease expiry has come, in whatever order the query lists them, with job, attempts and batch |
| QueueStore.Store.ResetTaskForManualRetry | apps/server/internal/persistence/queue.go:648-677 | Requeues a failed, timed-out, interrupted or cancelled task with its job, or leaves everything as it was |
| QueueStore.Store.RefreshBatch | apps/server/internal/persistence/queue.go:699-726 | Rewrites the five counters, status and time stamps of one batch from its tasks |
| QueueStore.Store.EndQueuedWork | apps/server/internal/persistence/queue.go:65-72 | Ends every queued task and every queued job of a plan, and nothing else |
| QueueStore.Store.EditPlan | apps/server/internal/persistence/queue.go:40-96 | Replaces the plan row and optionally ends its queued work; an invalid or repeated target undoes all of it |
| QueueStore.Store.PausePlanForScope | apps/server/internal/persistence/queue.go:196-216 | Disables the plan, clears its cursor and skips its queued work |
| QueueStore.Store.Advance | apps/server/internal/persistence/queue.go:218-221 | Moves the stored cursor of a plan |
| QueueStore.Store.InsertBatch | apps/server/internal/persistence/queue.go:253-263 | Adds a batch unless its id or its (plan, time) is taken, and says which |
| QueueStore.Store.InsertTask | apps/server/internal/persistence/queue.go:265-298 | Adds a task with an empty lease and recounts its batch, unless a unique key is taken |
| QueueStore.Store.CreateBackupJob | apps/server/internal/persistence/store.go:622-650 | Adds a queued job unless the deployment has an active one |
| QueueStore.Store.StartBackupJob | apps/server/internal/persistence/store.go:652-665 | Starts a queued job and no other |
| QueueStore.Store.FailBackupJob | apps/server/internal/persistence/store.go:667-680 | Fails a queued or running job and no other |
| QueueStore.Store.InsertSnapshot | apps/server/internal/persistence/store.go:697-732 | Stores the snapshot and the job's success together, only for a running job that has none yet |
| QueueStore.Store.MarkSnapshotTrashed | apps/server/internal/persistence/library.go:47-60 | Moves an active row to the trash once |
| Text.LessMeans | apps/server/internal/persistence/queue.go:436 | The order of ids: one is a proper beginning of the other, or has the smaller byte where they first differ |
| QueueInvariants.ClaimKeeps | apps/server/internal/persistence/queue.go:429-466 | A claim keeps leases, attempts, counters and jobs consistent and leaves the batch counted exactly |
| QueueInvariants.CompleteKeeps | apps/server/internal/persistence/queue.go:497-525 | Completing keeps them, given that the job delivered the snapshot, and counts the batch exactly |
| QueueInvariants.RetryKeeps | apps/server/internal/persistence/queue.go:527-558 | An automatic retry keeps them and counts the batch exactly |
| QueueInvariants.FinishFailureKeeps | apps/server/internal/persistence/queue.go:560-588 | A final failure keeps them and counts the batch exactly |
| QueueInvariants.ResetKeeps | apps/server/internal/persistence/queue.go:648-677 | A manual retry keeps them and counts the batch exactly |
| QueueInvariants.RequeueAllKeeps | apps/server/internal/persistence/queue.go:608-646 | Recovering any list of expired tasks in one transaction keeps them |
| QueueInvariants.AddTaskKeeps | apps/server/internal/persistence/queue.go:265-298 | A new task keeps them and counts the batch exactly |
| QueueInvariants.UpdatePlanKeeps | apps/server/internal/persistence/queue.go:40-77 | A plan edit keeps them although it recounts nothing |
| QueueInvariants.PausePlanKeeps | apps/server/internal/persistence/queue.go:196-216 | A scope pause keeps them although it recounts nothing |
| QueueInvariants.CancelTaskRowKeeps | apps/server/internal/persistence/queue.go:590-600 | The first half of a cancellation keeps them on its own |
| QueueInvariants.CancelJobRowKeeps | apps/server/internal/persistence/queue.go:600-603 | The second half keeps them on its own |
| QueueInvariants.CommitSnapshotKeeps | apps/server/internal/persistence/store.go:697-732 | Storing a snapshot keeps them |
| QueueInvariants.RecountIsExact | apps/server/internal/persistence/queue.go:699-726 | A recount is exact for all counters, which add up to the total |
| QueueInvariants.Drift | apps/server/internal/persistence/queue.go:699-726 | What the queued counter has too much is what failed and skipped lack |
| QueueTheorems.StepKeeps | apps/server/internal/queue/service.go:386-465 | Every step of every worker, caller, recovery or crash keeps the whole invariant, the fencing of tokens and the finality of ended rows |
| QueueSafety.ReachableIsGood | apps/server/internal/queue/service.go:345-465 | The invariant holds after every sequence of steps from an empty database |
| QueueSafety.LeasesAndAttempts | apps/server/internal/persistence/queue.go:429-677 | Lease token, lease status, lease expiry and exactly one running attempt coincide; attempts are numbered 1..attempt_count, so claiming never meets the attempt key |
| QueueSafety.BatchCounters | apps/server/internal/persistence/queue.go:699-726 | total, succeeded and running always equal a recount; the other counters drift together; a finished batch has nothing queued or running |
| QueueSafety.BatchStatus | apps/server/internal/persistence/queue.go:699-726 | In every reachable state the row of a batch with a task, if finished or counting its queued tasks right, is finished exactly when all tasks have ended, failed exactly when one of them went wrong, else succeeded exactly when one went well, skipped exactly when all were, queued exactly when all wait, and running otherwise |
| QueueCounters.StepCounts | apps/server/internal/persistence/queue.go:429-726 | After any step a batch's counters are exact exactly when the step recounts it, or they were exact and the step ends no queued task of the batch without a recount; both conditions are guards a caller can read before the step |
| QueueCounters.StepExact | apps/server/internal/persistence/queue.go:40-96 | Where all counters of all batches are exact, a step leaves them so exactly when it ends no queued task without a recount: no cancellation of a queued task, and no accepted superseding edit and no effective pause of a plan that has one |
| QueueCounters.EndQueuedAt | apps/server/internal/persistence/queue.go:65-72 | The bulk update of a superseding edit or a pause leaves a batch exact exactly when it was and the plan has no queued task in it |
| QueueCounters.CancelAt | apps/server/internal/persistence/queue.go:590-603 | So does the first statement of a cancellation, for its one task |
| QueueCounters.MiscountsExactly | apps/server/internal/persistence/queue.go:699-726 | After every run from an empty database a batch miscounts its tasks exactly when some step ended a queued task of it without a recount and no step since has recounted it |
| QueueCounters.RecountSays | apps/server/internal/persistence/queue.go:699-726 | A step that recounts a batch leaves its row with the status its tasks then amount to |
| QueueCounters.RunSays | apps/server/internal/persistence/queue.go:699-726 | So does every run that leaves the batch counted right |
| QueueCounters.ExactThroughout | apps/server/internal/persistence/queue.go:699-726 | All counters are exact after every step of a run exactly when no step of it ends a queued task without a recount |
| QueueCounters.CancellationMiscounts | apps/server/internal/persistence/queue.go:590-606 | A concrete run: one batch, one task, cancelled while it waits; the batch row still says one task is queued and none is |
| QueueSafety.Fencing | apps/server/internal/persistence/queue.go:468-588 | A token that stopped being current never again has an effect through any of the five guarded statements |
| QueueSafety.SucceededAndSkippedAreFinal | apps/server/internal/persistence/queue.go:468-677 | Succeeded and skipped tasks keep that status in every later state |
| QueueSafety.OnlyResetReopens | apps/server/internal/persistence/queue.go:648-677 | Any other ended task changes only through a manual retry of that very task |
| QueueSafety.JobsAndSnapshots | apps/server/internal/persistence/store.go:697-732 | A job has at most one snapshot, every snapshot's job succeeded with it, and every succeeded task carries its job's snapshot |
| QueueSafety.SucceededJobsAreFinal | apps/server/internal/persistence/store.go:652-732 | A succeeded job never changes again and refuses every further snapshot |
| QueueSafety.OneActiveJob | apps/server/internal/persistence/store.go:113-114 | No deployment ever has two active jobs, and creating, starting and recovering cannot trip the index |
| QueueSafety.ReopenRefusedExactly | apps/server/internal/persistence/queue.go:527-558 | Reopening is refused exactly when it would break the index, and then retry and reset change nothing |
| QueueSafety.FactorsClosed | apps/server/internal/queue/service.go:447-453 | The delays of m automatic retries add up to 2^m-1 units for m up to 7 and to 191 for 8 |
| QueueSafety.RetryBudget | apps/server/internal/queue/service.go:447-457 | Over a task's whole life, with crashes and manual retries, automatic retries number at most max_retries and their delays stay within the closed form |
| QueueSafety.RetryWaits | apps/server/internal/queue/service.go:447-457 | The attempt after an automatic retry of attempt n is number n+1 and is not claimed before base*2^min(n-1,6) seconds |
| QueueSafety.QueueConservation | apps/server/internal/persistence/queue.go:265-298 | Entries into the queue minus exits equal 1 if the task is queued and 0 otherwise; attempt_count is the number of claims |
| QueueLaws.ClaimLaw | apps/server/internal/persistence/queue.go:429-466 | A claim takes effect exactly for an idle worker, a fresh token and the foremost task that waits; row, attempt and worker then read as written here, and the first start stays |
| QueueLaws.VerdictLaw | apps/server/internal/queue/service.go:440-461 | After one of eight error codes, or beyond max_retries, the verdict of a worker whose lease is current ends its task, timed out or failed, with that code; after any other it puts task and failed job back, to be claimed after base*2^min(n-1,6) seconds, unless the job's deployment is taken, which undoes the call |
| QueueLaws.CancelledLaw | apps/server/internal/queue/service.go:416-421 | A cancelled run ends its task as cancelled |
| QueueLaws.PauseLaw | apps/server/internal/queue/service.go:437-446 | Before the verdict a missing path switches the plan off, unless it has none or a manual one; no other code does |
| QueueLaws.RetriesGrowBy | apps/server/internal/queue/service.go:447-457 | The retries of a task grow by one exactly in a verdict after another code, within the budget, under the current lease and with a free deployment |
| QueueLaws.RetriesAreVerdicts | apps/server/internal/queue/service.go:447-457 | Over every run the retries that RetryBudget bounds are those verdicts, one for one |
| QueueLaws.RecoveryLaw | apps/server/internal/persistence/queue.go:608-646 | Recovery takes exactly the leases whose last granted expiry, by the claim or by a heartbeat under its token, has come; it puts those tasks and their running jobs back and keeps every other row |
| QueueLaws.ResetLaw | apps/server/internal/persistence/queue.go:648-677 | A manual retry reopens a failed, timed-out, interrupted or cancelled task with its failed job, as if never started, and changes nothing in any other status or while the deployment is taken |
| QueueLaws.SnapshotLaw | apps/server/internal/persistence/library.go:62-85 | A snapshot row disappears exactly when a purge finds it in the trash since its deadline at the latest, and of the modelled steps only the move to the trash changes it |
| QueueRecords.ReachableIsStamped | apps/server/internal/persistence/queue.go:429-677 | In every reachable state time stamps, error codes and worker names match the statuses: a task has a start once it was claimed, a heartbeat while it is leased and an end once it ended; an attempt has an end unless it runs and no error while it runs or once it succeeded; a job has an end unless it is active and an error only if it failed |
| QueueRecords.FirstStartsStay | apps/server/internal/persistence/queue.go:429-466 | The first start of a task and of a batch is never overwritten |
| QueueOrphans.SucceedsOnlyByCompleting | apps/server/internal/persistence/queue.go:497-525 | A task becomes succeeded only through CompleteTask under its current token |
| QueueOrphans.OrphansNeverSucceed | apps/server/internal/queue/service.go:386-465 | A task whose job succeeded without it can never succeed in any continuation; the converse is QueueDelivery.OrphanedExactly |
| QueueDelivery.OrphanedExactly | apps/server/internal/queue/service.go:416-436 | A task whose job has succeeded is lost to every continuation exactly when no worker that is completing it holds its current lease |
| QueueDelivery.DeliveryCanFinish | apps/server/internal/queue/service.go:416-436 | While such a worker is there, its next calls make the task succeed |
| QueueDelivery.SucceedsOnlyByCommit | apps/server/internal/persistence/store.go:697-732 | A job becomes succeeded only through an accepted snapshot commit of its own worker |
| QueueDelivery.ReachableIsSole | apps/server/internal/persistence/queue.go:429-466 | No two workers ever hold the same lease token |
| QueueDelivery.CommitOrphansExactly | apps/server/internal/persistence/store.go:697-732 | An accepted commit cuts a task of the job off exactly when the committing worker does not hold the task's current lease |
| QueueDelivery.LostDeliveryOrphans | apps/server/internal/queue/service.go:416-436 | A crash of the completing worker, a lookup of its job that fails (which ends its work like a crash), or a completing call that fails, cuts the task off |
| QueueDelivery.RecoveryOrphans | apps/server/internal/persistence/queue.go:608-646 | Recovering the lease of a task whose job has succeeded cuts it off |
| QueueDelivery.OrphaningSteps | apps/server/internal/queue/service.go:386-465 | Of all steps of all participants exactly these three kinds cut a task off from its succeeded job |
| QueueDelivery.RunsOrphanExactly | apps/server/internal/queue/service.go:386-465 | The same after every run from an empty database |
| QueueOwnership.StraysComeFromCreation | apps/server/internal/queue/service.go:242-259 | An active job without a task arises exactly from creating a job that no task names yet, and from no other step |
| QueueOwnership.TaskAdopts | apps/server/internal/persistence/queue.go:265-298 | Adding its task ends that |
| QueueOwnership.StraysEnd | apps/server/internal/queue/service.go:242-259 | A job without a task stops being one exactly when an accepted insertion names it, it is failed or, queued, cancelled by its id, or an accepted superseding edit or an effective pause of its plan ends it; every other step, a worker's start in particular, leaves its row as it is |
| QueueOwnership.StrayBlocks | apps/server/internal/persistence/store.go:622-650 | As long as it lasts no other job of the deployment is accepted |
| QueueOwnership.StraysOverRuns | apps/server/internal/queue/service.go:242-259 | After every run a job is active without a task exactly when some step created it before its task and no step since has given it one or ended it |
| QueueOwnership.StraysNeverRan | apps/server/internal/persistence/store.go:652-665 | Such a job is still queued as it was created: never started, without a snapshot |
| QueueOrphans.StaleCommitOrphans | apps/server/internal/queue/service.go:386-436 | A concrete run in which a recovered worker commits late reaches such a task |
| PlanRuns.PlanInstances | apps/server/internal/queue/service.go:216-240 | Keeps the plan's targets that still exist, in order |
| PlanRuns.LiveTargets | apps/server/internal/queue/service.go:216-240 | They are exactly the existing targets, each once |
| PlanRuns.RecordSkipped | apps/server/internal/queue/service.go:261-268 | Adds one skipped task under a new id, or changes nothing; always adds it when no call fails |
| PlanRuns.EnqueueInstance | apps/server/internal/queue/service.go:242-259 | Adds a queued job and its queued task together; a conflict means the deployment was busy and changes nothing; stopped in between it leaves the new job alone, queued or failed, and nothing else; when no call fails it adds both, unless the target cannot be backed up or the deployment is busy |
| PlanRuns.ExistingBatch | apps/server/internal/queue/service.go:203-214 | Finds the batch of an occurrence exactly when it is among the hundred newest |
| PlanRuns.Expand | apps/server/internal/queue/service.go:155-200 | Ends in one task per live target with no scope failure, or in a paused plan, or in an error; with a scope failure it creates no job however it ends, and from the pause on the plan is off with nothing of it queued; when no call fails it succeeds exactly when the first live target with a scope failure misses a path, or none has one and all can be backed up |
| PlanRuns.RunPlan | apps/server/internal/queue/service.go:141-201 | One batch per plan and time; an existing one changes nothing; success means every live target was entered, queued unless busy, or the plan was paused with every live target skipped; with a scope failure no job is created however it ends, and the plan is off from the pause on; it touches one batch slot and at most this plan; when no call fails and the occurrence has no batch, it succeeds exactly when the first live target with a scope failure misses a path, or none has one and all can be backed up |
| PlanRuns.SkippingHalts | apps/server/internal/queue/service.go:159-183 | While the skipped tasks are being recorded no job exists that was not there before, the plan is off and nothing of it is queued |
| PlanRuns.ExpandedIsOneEach | apps/server/internal/queue/service.go:185-200 | A finished expansion leaves one task for each live target in its batch and no other task |
| PlanRuns.TargetsSubmitted | apps/server/internal/queue/service.go:185-196 | Each live target of an expansion has a task that waits at priority 10 with the plan's retry policy and a queued job, which name each other, or, if its deployment is busy, a skipped task with that reason |
| PlanRuns.OneTaskPerTarget | apps/server/internal/queue/service.go:185-200 | After an expansion each target has exactly one task, queued or skipped as decided, and counters and status of the batch add them up |
| PlanRuns.AllOrNothing | apps/server/internal/queue/service.go:159-183 | After a scope failure no job was created, the plan is off without a next run, no task or job of it is queued, and the batch is skipped with one task per live target |
| PlanRuns.TargetsPassedOver | apps/server/internal/queue/service.go:160-183 | When a selected path is missing every live target is passed over, the first that misses one for that reason and the others because of the pause |
| PlanRuns.FinishedUnlessNobodyLives | apps/server/internal/queue/service.go:185-200 | A successful expansion leaves an empty, queued batch exactly when no target exists, and a finished one exactly when all were busy |
| Scheduling.RecordedExactly | apps/server/internal/plans/service.go:174-179 | The batch of an occurrence a call handled has the recorded form exactly when the occurrence was late |
| Scheduling.HandledByTheRule | apps/server/internal/plans/service.go:173-190 | An occurrence later than the plan's window, or over a minute late for a plan that does not catch up, is recorded; every other is run |
| Scheduling.RecordedComesFirst | apps/server/internal/plans/service.go:165-195 | Of two handled occurrences of a plan, one recorded and one run, the recorded one is the earlier |
| Scheduling.SkippedComeFirst | apps/server/internal/plans/service.go:165-195 | Among the batches one call adds for a plan, every recorded one is for an earlier time than every one that ran |
| Scheduling.HandledStays | apps/server/internal/plans/service.go:165-195 | What a call made of one occurrence is not undone by what it, or a later call, does for others |
| Scheduling.RecordSkippedBatch | apps/server/internal/plans/service.go:429-436 | A late occurrence gets one finished, skipped batch, unless it has a batch; only a failing call keeps it from having one |
| Scheduling.Consume | apps/server/internal/plans/service.go:174-190 | A late occurrence is recorded without a task and a timely one is run, with one task per live target if the call goes on; either way it then has its batch; when no call fails it goes on if the targets let the run succeed |
| Scheduling.CatchUp | apps/server/internal/plans/service.go:165-195 | However it ends, every occurrence before the stored cursor stays covered, other plans are untouched, every added batch is recorded exactly if late and otherwise run, in full except the one it stopped in; success leaves the plan paused, at an occurrence that is not due, or 128 occurrences further; only a failing call or a run that its targets fail ends it early |
| Scheduling.DuePlans | apps/server/internal/persistence/queue.go:223-251 | Lists exactly the enabled plans whose stored cursor has passed, by next run and then by id |
| Scheduling.RunDue | apps/server/internal/plans/service.go:158-197 | For all due plans, with errors and crashes anywhere: each added batch belongs to a consumed occurrence that had none, without a gap before it even where a pause clears the cursor; by the delay in nanoseconds it is recorded if beyond the window, or over a minute for a plan without catch-up, and otherwise run; at most one batch is left unfinished; within a plan the recorded ones come first; success leaves every due plan paused, at an occurrence that is not due, or 128 occurrences further, and is certain when no call fails and no targets fail a run |
| Scheduling.Ticks | apps/server/internal/plans/service.go:155-158 | Over any number of calls, each stopping anywhere: nothing is taken back, no occurrence is jumped over or given two batches, and every batch added is one call's, recorded or run by the same rule at that call's clock and under the rules the plan had at first, in full unless it is the one batch that call stopped in, with no task added or removed by any later call |
| Scheduling.ExactlyOneBatch | apps/server/internal/persistence/store.go:156 | An occurrence before the cursor has a batch and only one |
| Scopes.CleanPathTidies | apps/server/internal/plans/service.go:292-294 | A cleaned path has no backslash and no slash or blank at either end |
| Scopes.CleanPathMeans | apps/server/internal/plans/service.go:292-293 | Cleaning reads backslashes as slashes and drops slashes and blanks at both ends, nothing else |
| Scopes.UnsafeEscapes | apps/server/internal/plans/service.go:294-296 | The four tests refuse exactly the empty path, a lone parent, and a path with a parent before its last component |
| Scopes.TrailingParentPasses | apps/server/internal/plans/service.go:294-296 | A path that ends in a parent and has none before it is accepted |
| Scopes.CleanList | apps/server/internal/plans/service.go:289-306 | Returns the distinct cleaned paths in first-seen order; refuses exactly when one is empty, a lone parent or passes through a parent, or when there are more than 500 |
| Scopes.CleanedIsClean | apps/server/internal/plans/service.go:289-306 | Cleaning accepts its own results and leaves them alone |
| Scopes.SortOrders | apps/server/internal/plans/service.go:334-339 | Sorting by length and then by bytes keeps the elements |
| Scopes.RemoveCoveredDirectories | apps/server/internal/plans/service.go:333-354 | Computes the roots of the sorted directories |
| Scopes.RemoveFilesCoveredByDirectories | apps/server/internal/plans/service.go:356-371 | Computes the files below no kept directory |
| Scopes.RootsAreMinimal | apps/server/internal/plans/service.go:333-354 | The kept directories are exactly those below no other one given |
| Scopes.RootsAreApart | apps/server/internal/plans/service.go:333-354 | No kept directory lies below another |
| Scopes.OneRootEach | apps/server/internal/plans/service.go:333-354 | Every given directory equals or lies below exactly one kept one |
| Scopes.UncoveredFiles | apps/server/internal/plans/service.go:356-371 | The kept files are exactly those below no kept directory |
| Scopes.RewritingPreservesSelection | apps/server/internal/plans/service.go:333-371 | Dropping covered entries selects the same paths |
| Scopes.NormalizeScope | apps/server/internal/plans/service.go:269-331 | Computes the normalised scope, and refuses exactly on those grounds |
| Scopes.EmptyTogether | apps/server/internal/plans/service.go:322-324 | Nothing is left after dropping exactly when nothing was given |
| Scopes.CompanionMeans | apps/server/internal/plans/service.go:318-323 | A file is refused as a companion exactly when it ends in one of the three suffixes, in any case |
| Scopes.AnswerLaw | apps/server/internal/plans/service.go:269-331 | A scope is refused exactly for an unknown mode or, unless it selects everything, a path that escapes, more than 500 paths, a companion file, or a custom selection of nothing; no path of an accepted one escapes |
| Scopes.NormalizedIsNormal | apps/server/internal/plans/service.go:273-331 | What normalisation returns is tidy, sorted, an antichain and free of covered files and companions |
| Scopes.NormalIsFixed | apps/server/internal/plans/service.go:273-331 | Normalising it again accepts it unchanged |
| Scopes.NormalizationPreservesSelection | apps/server/internal/plans/service.go:289-321 | A normalised scope selects exactly what its cleaned input selects |
| Scopes.SamePaths | apps/server/internal/plans/service.go:396-406 | Compares two path lists element by element |
| Scopes.ApplyScopeRevisions | apps/server/internal/plans/service.go:373-394 | Gives every target of the edited plan its revision in place and reports whether anything changed |
| Scopes.ReportsNoChangeExactly | apps/server/internal/plans/service.go:373-394 | It reports no change exactly when both plans have the same targets with the same selections, in any order |
| Scopes.ResubmissionCancelsNothing | apps/server/internal/plans/service.go:89-109 | Saving a stored plan again changes no scope or revision and cancels no task or job |
| SourceScan.HasSqliteCompanion | apps/server/internal/probe/probe.go:330-339 | Recognises companions of known databases whatever the order of map iteration |
| SourceScan.Partition | apps/server/internal/probe/probe.go:303-313 | The filter in place keeps the plain files in scan order and collects the databases in scan order |
| SourceScan.PartsAddUp | apps/server/internal/probe/probe.go:303-313 | Files, databases and companions together are the scanned files, each once |
| SourceScan.DatabaseCount | apps/server/internal/probe/probe.go:295-301 | Counting SQLite findings counts the database list |
| SourceScan.PlanCounts | apps/server/internal/probe/probe.go:294-313 | FileCount is the sum of three disjoint parts and SQLiteCount the length of one |
| SourceScan.Walk | apps/server/internal/probe/probe.go:240-293 | Collects directories, regular files, counts and findings of a walk; fails exactly on an unreadable path, a cancellation or more than 100000 entries |
| SourceScan.BuildPlan | apps/server/internal/probe/probe.go:240-328 | Returns the partition of the scan with its counts and its capability status |
| SourceScan.ApplyScope | apps/server/internal/probe/probe.go:154-226 | Full passes the plan on, core keeps the databases or fails, custom filters by selection and fails on a missing path or an empty result |
| SourceScan.NormalizationKeepsTheArchive | apps/server/internal/probe/probe.go:179-217 | A normalised scope yields the same directories, files and databases; the cleaned scope is accepted exactly when the normalised one is and every dropped path still exists |
| Retention.KeptIds | apps/server/internal/snapshots/service.go:235-265 | The pass with its four counters keeps exactly the snapshots the order-free rule keeps |
| Retention.PrefixPeriods | apps/server/internal/snapshots/service.go:245-260 | Seen periods of the rows before one are the periods newer than its own |
| Retention.DeletingOneChangesNoVerdict | apps/server/internal/snapshots/service.go:230-274 | Deleting a snapshot the rule gives up changes the verdict on no other |
| Retention.Confluence | apps/server/internal/snapshots/service.go:230-274 | After any of its deletions, in any order, the rule keeps the same snapshots |
| Retention.Idempotence | apps/server/internal/snapshots/service.go:230-274 | Applied to what it kept it deletes nothing |
| Retention.SurvivorsAreFew | apps/server/internal/snapshots/service.go:230-265 | At most the sum of the four quotas and one survive |
| Retention.VerifiedSurvives | apps/server/internal/snapshots/service.go:240-264 | If a snapshot is verified, a verified one survives |
| Library.Library.MoveToTrash | apps/server/internal/storage/storage.go:503-529 | Moves a directory with its content to a free trash slot or does nothing |
| Library.Library.Delete | apps/server/internal/snapshots/service.go:122-141 | Succeeds exactly for an active row with a safe id and path, its directory present and its trash slot free; stopped half way it has moved the directory only |
| Library.Library.SnapshotsForPlan | apps/server/internal/persistence/library.go:30-45 | Lists exactly the plan's active snapshots, newest first |
| Library.Library.DeleteOthers | apps/server/internal/snapshots/service.go:266-273 | Trashes the snapshots not to be kept, in order, up to the first failure |
| Library.Library.ApplyRetention | apps/server/internal/snapshots/service.go:224-275 | Trashes only snapshots the rule gives up, all of them on success, none when one is broken; every directory no such snapshot lives in stays with its content; it cannot succeed past a snapshot without its directory |
| Library.StoppedRunChangesNoVerdict | apps/server/internal/snapshots/service.go:224-275 | Wherever a run stopped, the next run keeps the same snapshots and gives up the rest of the same ones |
| Library.InterruptedDeletionStrands | apps/server/internal/snapshots/service.go:131-138 | A deletion stopped between its two steps leaves a row no deletion can remove |
| Listing.Fetch | apps/server/internal/persistence/library.go:31 | Returns the rows of a query in (time, id) descending order |
| Listing.ListingIsUnique | apps/server/internal/persistence/library.go:31 | That order leaves exactly one listing |
| Cursors.ParseFormat | apps/server/internal/persistence/store.go:908-929 | Parsing a formatted number gives it back, and refuses what 64 bits cannot hold |
| Cursors.CursorRoundTrip | apps/server/internal/persistence/store.go:908-929 | A cursor decodes to what was encoded exactly when the id is not empty and has no NUL byte |
| Cursors.ForeignCursorIsRefused | apps/server/internal/persistence/store.go:912-929 | A cursor of another scope is refused |
| Cursors.ScopesDiffer | apps/server/internal/persistence/store.go:879-887 | Different filters without NUL bytes hash different bytes |
| Paging.ReadPage | apps/server/internal/persistence/queue.go:305-344 | A page is the first rows after the cursor, with a next cursor exactly when more follow; an invalid cursor is refused |
| Paging.TasksPage | apps/server/internal/persistence/queue.go:356-402 | The same for tasks with their three filters |
| Paging.BatchesPage | apps/server/internal/persistence/queue.go:305-344 | The same for batches |
| Paging.ListSnapshotsPage | apps/server/internal/persistence/store.go:739-779 | The same for snapshots outside the trash |
| Paging.NextRequestContinues | apps/server/internal/persistence/store.go:908-929 | The next request reads the cursor back as the last row of the page |
| Paging.NoRowRepeats | apps/server/internal/persistence/queue.go:305-344 | Whatever is inserted or removed between the reads, no row is seen twice and the order holds across pages |
| Paging.StableRowsAppear | apps/server/internal/persistence/queue.go:305-344 | A row present at every read is seen by a reader who reaches the end |
| Paging.WholeTable | apps/server/internal/persistence/queue.go:305-344 | On an unchanging table the pages together are the whole ordered listing, whatever the page sizes |
| Paging.ReadingEnds | apps/server/internal/persistence/queue.go:305-344 | On a table that gains nothing a reader is done after at most one request per row and one more |
| Paging.ReadAll | apps/server/internal/persistence/queue.go:305-344 | A reader that sends each page's cursor text back sees no row twice, every row that is there throughout once it reaches the end, the whole ordered table if that does not change, and reaches the end of a table that does not grow |
| Paging.ReadTasks | apps/server/internal/persistence/queue.go:356-402 | The same for tasks under fixed filters |
| Paging.ReadBatches | apps/server/internal/persistence/queue.go:305-344 | The same for batches |
| Paging.ReadSnapshots | apps/server/internal/persistence/store.go:739-779 | The same for snapshots outside the trash |
| Paths.SafeRelativeDescends | apps/server/internal/storage/storage.go:700-706 | A storage path is accepted exactly when every component names a child |
| Paths.SafeSegmentIsChild | apps/server/internal/storage/storage.go:708-713 | A segment is accepted exactly when it is one component that names a child and holds no backslash |
| Paths.SafeZipPathDescends | apps/server/internal/storage/storage.go:715-721 | An archive name is accepted exactly when, less one slash, it is "." or every component names a child |
| Paths.CleanRelative | apps/server/internal/storage/storage.go:700-721 | path.Clean fixes exactly "." and the paths that only descend, among relative paths without a leading parent step |
| Archive.InternalNames | apps/server/internal/backup/service.go:918-920 | The writer's name check accepts exactly "." and the paths that only descend |
| Archive.WriteArchive | apps/server/internal/backup/service.go:519-608 | Writes directories, files, databases and then the three internal files, or fails on an unsafe name |
| Archive.WrittenVerifies | apps/server/internal/storage/storage.go:236-273 | Every entry of the archive of a tree passes the reader's check, and the internal manifest is there |
| Archive.EntryNamesAreDistinct | apps/server/internal/backup/service.go:906-916 | No two entries share a name |
| Archive.VerifyNames | apps/server/internal/storage/storage.go:259-271 | Accepts exactly archives with safe names and an internal manifest |
| Archive.ExportData | apps/server/internal/storage/storage.go:419-501 | Creates a new export or leaves the exports as they were |
| Archive.RoundTrip | apps/server/internal/storage/storage.go:454-499 | Exporting the archive of a tree never fails and recreates exactly its objects and the directories above them |
| Archive.ExportedFiles | apps/server/internal/storage/storage.go:454-499 | The exported files are exactly the archived ones, with the archived bytes |
| ScannedTrees.ScanIsTree | apps/server/internal/probe/probe.go:240-313 | The plan of any walked tree meets what archive and export rely on |
| ScannedTrees.NarrowedIsTree | apps/server/internal/probe/probe.go:200-217 | So does every plan narrowed by a scope |
| Commit.Engine.CreatePartial | apps/server/internal/storage/storage.go:104-117 | Makes the partial directory of a job, keeping what is in it |
| Commit.Engine.WriteArchive | apps/server/internal/backup/service.go:519-608 | Creates the partial archive exclusively; success means it holds the archived bytes, and is certain when nothing fails and no archive is there |
| Commit.Engine.WriteWithRetry | apps/server/internal/backup/service.go:460-473 | Tries a second time only when the source changed; an archive left from before makes it fail |
| Commit.Engine.CommitArchive | apps/server/internal/storage/storage.go:139-170 | Moves the archive to the chosen final directory, or leaves every archive where it was; all rows stay backed exactly when nothing moved or the rows that live in that directory describe the moved bytes; when nothing fails it is refused exactly for an unsafe name |
| Commit.Engine.WriteManifest | apps/server/internal/storage/storage.go:172-205 | The manifest is whole or as it was |
| Commit.Engine.QuickVerify | apps/server/internal/storage/storage.go:236-258 | Success means manifest and archive are there with the expected size and digest |
| Commit.Engine.Record | apps/server/internal/backup/service.go:429-456 | Manifest, verification and row in this order; a row is stored only for an archive that is in place; wherever it ends, all rows are backed exactly when those that live in the directory describe the archive's bytes |
| Commit.Engine.Publish | apps/server/internal/backup/service.go:423-456 | The same, and after a failure the directory is gone and all rows are backed exactly when none lived there |
| Commit.Engine.Deliver | apps/server/internal/backup/service.go:408-456 | The same for the directory that the commit chooses |
| Commit.Engine.Execute | apps/server/internal/backup/service.go:357-458 | However it ends, at every crash point and also between the removals of the clean-up, each active row has its archive, size, digest and manifest exactly when the chosen directory still is as it was, or holds the new bytes and the rows that live there describe them, or was removed and no row lives there; an error return leaves the final directories as they were, or without the chosen one, and no partial directory; when nothing fails it commits exactly when all names are safe, no archive of the job is left from before and the row is accepted |
| Commit.Engine.ExecuteJob | apps/server/internal/backup/service.go:332-355 | Runs only a queued job and ends with the job succeeded and its snapshot stored, or with the job failed or, if that record is lost, running; after a crash the tables hold the started job, with or without its snapshot; rows keep their archives under the same exact condition; when nothing fails a queued job succeeds under the condition of Execute and is recorded as failed otherwise |
| Commit.ChosenIsUnclaimed | apps/server/internal/storage/storage.go:152-161 | The directory taken is free of rows unless the first name exists and a row holds the second |
| Commit.OverwritingUnbacks | apps/server/internal/storage/storage.go:161-168 | Putting an archive into a directory keeps all rows backed exactly when the rows that live there describe it |
| Commit.RemovalUnbacks | apps/server/internal/backup/service.go:423-428 | Removing a directory keeps all rows backed exactly when none lives there |
| Commit.CommitIsExact | apps/server/internal/backup/service.go:411-456 | The same for a whole commit with its manifest and its row |
| Commit.RefusalUnbacks | apps/server/internal/backup/service.go:423-428 | So a commit that is refused after its archive has moved keeps them exactly when no row lives in the directory it chose, whatever the bytes |
| Commit.CollidingShortIds | apps/server/internal/backup/service.go:977-983 | Three jobs of one deployment and time stamp, two of them with one short id, are all accepted, and the third commit leaves the second's row without its archive |
| Commit.CollidingWorks | apps/server/internal/backup/service.go:977-983 | Three concrete jobs that do so, the third whether it is accepted or refused after its archive has moved |

## Left out

- Tenants: one tenant's rows are modelled; every query of the source filters by tenant.
- HTTP handlers, sign-in, sessions, events, notifications, alerts, audit, settings and the web applications: input, output and user interface.
- `ListInstances` and the catalog sync: the sort name differs between insert and conflict update (`apps/server/internal/persistence/store.go:411-412`), so complete enumeration is not claimed.
- `ScopeCatalog` and its cursor: one in-memory sort with the same page cut as the listings that are modelled.
- Plan creation and deletion, `SetPlanEnabled`: in whole runs plan rows may change in any way at any time, which includes them.
- `InterruptOpenBackupJobs`: never runs in this program, because the server sets `ManagedByQueue` (`apps/server/cmd/server/main.go:118`) and `New` calls it only without (`apps/server/internal/backup/service.go:121`).
- `scope_validation_json`, names and other columns that no guard, key or order reads.
- Liveness of leases: recovery runs once per tenant and process, so no claim says that every expired lease is recovered.
- PlanRuns.RunPlan: no other caller or worker takes a step while it runs; the whole-run theorems cover its transactions in any interleaving, but not the sentence about one task per target.
- Scheduling.RunDue: no edit, resume or other scheduler between its statements; cron expressions and time zones are the timetable parameter, whose next occurrence is the least one after a given time.
- QueueSafety.RetryBudget: a retry that finds the job's deployment occupied is not counted, as nothing is stored.
- Scopes.NormalizeScope: the spelling of the mode (blanks, letter case) and the summary text; letters are lowered in ASCII only, which decides the three suffixes in question.
- QueueLaws.SnapshotLaw: checking a stored snapshot again, which rewrites its verification status, is not a step of the model.
- Retention.KeptIds: days, weeks and months are any functions that do not decrease with time; the calendar itself is not modelled.
- Library.Library.ApplyRetention: nothing else moves directories or commits snapshots meanwhile; the clean-up of the trash and of old partial directories is not modelled.
- Cursors.CursorRoundTrip: base64 is a bijection on encoded texts (RFC 4648, section 5), and SHA-256 is not modelled, so scopes are told apart by the bytes that are hashed.
- Commit.Engine.QuickVerify: an archive once moved changes only by these methods, so a file damaged on the disk between the move and the check, which the check is for, does not occur.
- Commit.Engine.ExecuteJob: as for Execute, no second execution of the same job runs meanwhile.
- Archive.RoundTrip: the byte format of zip, compression, file modes and times, symbolic links and file descriptors are not modelled; the bytes read from a file are a function of its path.
- Commit.Engine.Execute: no second execution of the same job runs meanwhile; a worker whose lease was recovered and the next worker of the job would share the partial directory `_partial/<job>`. Removing a directory succeeds, a rename is atomic, and an error from the control database means nothing was stored; syncing to disk is not modelled.
- SQLite online copies, their waiting times and integrity checks: calls into code that is not part of this model.
