/** Each transaction of the control database as a function from state to state.
    A rejected or rolled-back transaction returns the state it was given. */
module QueueSpec {
  import opened Tables
  import Text

  // ---------------------------------------------------------------- status classes

  datatype Class = InQueue | InProgress | Successful | Unsuccessful | Bypassed

  /** The five classes counted on a batch row. */
  function ClassOf(status: Status): Class
  {
    match status
    case Queued => InQueue
    case Succeeded | SucceededWithWarnings => Successful
    case Failed | TimedOut | Interrupted | Cancelled => Unsuccessful
    case Skipped => Bypassed
    case _ => InProgress
  }

  /** The statuses a lease holder may move its task through. */
  predicate InLease(status: Status)
  {
    status.Leased? || status.Prechecking? || status.Scanning? || status.SqliteSnapshot?
    || status.ZipWriting? || status.Verifying? || status.Committing?
  }

  /** A job in one of these statuses occupies the active-instance index of its deployment. */
  predicate Active(status: Status)
  {
    status.Queued? || status.Running?
  }

  // ---------------------------------------------------------------- batch counters

  function Members(tasks: map<string, Task>, batch: string): set<string>
  {
    set id | id in tasks && tasks[id].batch == batch
  }

  function InClass(tasks: map<string, Task>, batch: string, class_: Class): set<string>
  {
    set id | id in tasks && tasks[id].batch == batch && ClassOf(tasks[id].status) == class_
  }

  /** The batch row that a recount of its tasks writes. */
  function Recounted(tasks: map<string, Task>, id: string, row: Batch, now: int): Batch
  {
    var total, queued, running := |Members(tasks, id)|, |InClass(tasks, id, InQueue)|, |InClass(tasks, id, InProgress)|;
    var succeeded, failed, skipped :=
      |InClass(tasks, id, Successful)|, |InClass(tasks, id, Unsuccessful)|, |InClass(tasks, id, Bypassed)|;
    var counted := row.(total := total, succeeded := succeeded, failed := failed,
                        skipped := skipped, running := running, queued := queued);
    if total == 0 || (queued == 0 && running == 0) then
      counted.(status := if failed > 0 then Failed else if succeeded > 0 then Succeeded else Skipped,
               finishedAt := Some(now))
    else if running > 0 || succeeded > 0 || failed > 0 || skipped > 0 then
      counted.(status := Running, finishedAt := None,
               startedAt := if row.startedAt.Some? then row.startedAt else Some(now))
    else
      counted.(status := Queued, finishedAt := None)
  }

  function Refresh(s: State, batch: string, now: int): State
  {
    if batch in s.batches
    then s.(batches := s.batches[batch := Recounted(s.tasks, batch, s.batches[batch], now)])
    else s
  }

  // ---------------------------------------------------------------- leases

  predicate Claimable(tasks: map<string, Task>, t: string, now: int)
  {
    t in tasks && tasks[t].status == Queued && tasks[t].availableAt <= now
  }

  /** ORDER BY priority DESC, available_at, created_at, id */
  predicate Before(tasks: map<string, Task>, t: string, u: string)
    requires t in tasks && u in tasks
  {
    var a, b := tasks[t], tasks[u];
    if a.priority != b.priority then a.priority > b.priority
    else if a.availableAt != b.availableAt then a.availableAt < b.availableAt
    else if a.createdAt != b.createdAt then a.createdAt < b.createdAt
    else Text.Less(t, u)
  }

  predicate First(tasks: map<string, Task>, t: string, now: int)
  {
    Claimable(tasks, t, now) && forall u | u in tasks && u != t && Claimable(tasks, u, now) :: Before(tasks, t, u)
  }

  function LeasedRow(row: Task, worker: string, token: string, now: int, expires: int): Task
  {
    row.(status := Leased, attemptCount := row.attemptCount + 1, worker := worker, token := token,
         expires := Some(expires), heartbeat := Some(now),
         startedAt := if row.startedAt.Some? then row.startedAt else Some(now))
  }

  predicate Claims(s: State, t: string, now: int)
  {
    Claimable(s.tasks, t, now) && AttemptKey(t, s.tasks[t].attemptCount + 1) !in s.attempts
  }

  function Claim(s: State, t: string, worker: string, token: string, now: int, expires: int): State
  {
    if !Claims(s, t, now) then s else
    var row := s.tasks[t];
    var attempt := Attempt(Running, "", worker, now, None);
    Refresh(s.(tasks := s.tasks[t := LeasedRow(row, worker, token, now, expires)],
               attempts := s.attempts[AttemptKey(t, row.attemptCount + 1) := attempt]), row.batch, now)
  }

  /** The guard `id=? AND lease_token=?`. */
  predicate Holds(s: State, t: string, token: string)
  {
    t in s.tasks && s.tasks[t].token == token
  }

  function SetStatus(s: State, t: string, token: string, status: Status): State
  {
    if Holds(s, t, token) && InLease(s.tasks[t].status)
    then s.(tasks := s.tasks[t := s.tasks[t].(status := status)])
    else s
  }

  predicate Terminal(status: Status)
  {
    status.Succeeded? || status.Failed? || status.Cancelled? || status.TimedOut? || status.Skipped? || status.Interrupted?
  }

  function Heartbeat(s: State, t: string, token: string, now: int, expires: int): State
  {
    if Holds(s, t, token) && !Terminal(s.tasks[t].status)
    then s.(tasks := s.tasks[t := s.tasks[t].(heartbeat := Some(now), expires := Some(expires))])
    else s
  }

  /** UPDATE task_attempts ... WHERE task_id=? AND status='RUNNING'; no code leaves error_code alone. */
  function EndAttempts(attempts: map<AttemptKey, Attempt>, t: string, status: Status, code: Option<string>, now: int)
    : map<AttemptKey, Attempt>
  {
    map k | k in attempts ::
      if k.task == t && attempts[k].status == Running
      then attempts[k].(status := status, finishedAt := Some(now),
                        errorCode := if code.Some? then code.value else attempts[k].errorCode)
      else attempts[k]
  }

  function Released(row: Task): Task
  {
    row.(token := "", worker := "", expires := None, heartbeat := None)
  }

  /** The steps shared by every way of giving a lease up: write the task row, end its
      running attempts, recount its batch. */
  function Settle(s: State, t: string, row: Task, ended: Status, code: Option<string>, now: int): State
    requires t in s.tasks
  {
    Refresh(s.(tasks := s.tasks[t := row], attempts := EndAttempts(s.attempts, t, ended, code, now)),
            s.tasks[t].batch, now)
  }

  function Complete(s: State, t: string, token: string, snapshot: string, now: int): State
  {
    if !Holds(s, t, token) then s else
    Settle(s, t, Released(s.tasks[t]).(status := Succeeded, snapshot := snapshot, finishedAt := Some(now)),
           Succeeded, None, now)
  }

  function FinishFailure(s: State, t: string, token: string, status: Status, code: string, now: int): State
  {
    if !Holds(s, t, token) then s else
    Settle(s, t, Released(s.tasks[t]).(status := status, errorCode := code, finishedAt := Some(now)),
           status, Some(code), now)
  }

  // ---------------------------------------------------------------- jobs

  /** Making j active would put two rows of one deployment in backup_jobs_active_instance_idx. */
  predicate Occupied(jobs: map<string, Job>, j: string)
    requires j in jobs
  {
    exists k | k in jobs && k != j :: jobs[k].deploy == jobs[j].deploy && Active(jobs[k].status)
  }

  predicate ReopenBlocked(jobs: map<string, Job>, j: string)
  {
    j in jobs && jobs[j].status == Failed && Occupied(jobs, j)
  }

  /** UPDATE backup_jobs SET status='QUEUED' ... WHERE status='FAILED' */
  function Reopen(jobs: map<string, Job>, j: string, clearStart: bool): map<string, Job>
  {
    if j in jobs && jobs[j].status == Failed
    then jobs[j := jobs[j].(status := Queued, errorCode := "", finishedAt := None,
                            startedAt := if clearStart then None else jobs[j].startedAt)]
    else jobs
  }

  predicate Retries(s: State, t: string, token: string)
  {
    Holds(s, t, token) && !ReopenBlocked(s.jobs, s.tasks[t].job)
  }

  function Retry(s: State, t: string, token: string, code: string, availableAt: int, now: int): State
  {
    if !Retries(s, t, token) then s else
    var row := Released(s.tasks[t]).(status := Queued, errorCode := code, availableAt := availableAt);
    Settle(s.(jobs := Reopen(s.jobs, s.tasks[t].job, false)), t, row, Failed, Some(code), now)
  }

  predicate Reopenable(status: Status)
  {
    status.Failed? || status.TimedOut? || status.Interrupted? || status.Cancelled?
  }

  predicate Resets(s: State, t: string)
  {
    t in s.tasks && Reopenable(s.tasks[t].status) && !ReopenBlocked(s.jobs, s.tasks[t].job)
  }

  function Reset(s: State, t: string, now: int): State
  {
    if !Resets(s, t) then s else
    var row := Released(s.tasks[t]).(status := Queued, errorCode := "MANUAL_RETRY", availableAt := now, finishedAt := None);
    Refresh(s.(tasks := s.tasks[t := row], jobs := Reopen(s.jobs, row.job, true)), row.batch, now)
  }

  // ---------------------------------------------------------------- recovery of expired leases

  function Expired(tasks: map<string, Task>, now: int): set<string>
  {
    set t | t in tasks && !tasks[t].status.Queued? && !Terminal(tasks[t].status)
            && tasks[t].expires.Some? && tasks[t].expires.value <= now
  }

  function Unstart(jobs: map<string, Job>, j: string): map<string, Job>
  {
    if j in jobs && jobs[j].status == Running
    then jobs[j := jobs[j].(status := Queued, errorCode := "", startedAt := None, finishedAt := None)]
    else jobs
  }

  function RequeueOne(s: State, t: string, now: int): State
    requires t in s.tasks
  {
    var row := Released(s.tasks[t]).(status := Queued, errorCode := "WORKER_INTERRUPTED", availableAt := now);
    Settle(s.(jobs := Unstart(s.jobs, s.tasks[t].job)), t, row, Interrupted, Some("WORKER_INTERRUPTED"), now)
  }

  /** The rows of one recovery transaction, in the order the query returned them. */
  function RequeueAll(s: State, items: seq<string>, now: int): (r: State)
    requires forall t :: t in items ==> t in s.tasks
    ensures r.tasks.Keys == s.tasks.Keys
  {
    if items == [] then s
    else RequeueOne(RequeueAll(s, items[..|items| - 1], now), items[|items| - 1], now)
  }

  // ---------------------------------------------------------------- ending queued work

  predicate QueuedFor(row: Task, plan: string)
  {
    row.plan == plan && row.status == Queued
  }

  /** The two bulk updates shared by a plan edit and a scope pause. No batch is recounted. */
  function EndQueued(s: State, plan: string, status: Status, code: string, now: int): State
  {
    s.(tasks := map t | t in s.tasks ::
         if QueuedFor(s.tasks[t], plan)
         then s.tasks[t].(status := status, errorCode := code, finishedAt := Some(now))
         else s.tasks[t],
       jobs := map j | j in s.jobs ::
         if s.jobs[j].plan == plan && s.jobs[j].status == Queued
         then s.jobs[j].(status := Failed, errorCode := code, finishedAt := Some(now))
         else s.jobs[j])
  }

  predicate ValidTargets(targets: seq<Target>)
  {
    (forall i | 0 <= i < |targets| :: targets[i].deploy != "")
    && forall i, j | 0 <= i < j < |targets| :: targets[i].deploy != targets[j].deploy
  }

  predicate Edits(s: State, p: string, row: Plan)
  {
    p in s.plans && ValidTargets(row.targets)
  }

  /** UpdatePlan keeps last_scheduled_at and clears the pause reason. */
  function UpdatePlan(s: State, p: string, row: Plan, cancelQueued: bool, now: int): State
  {
    if !Edits(s, p, row) then s else
    var edited := s.(plans := s.plans[p := row.(lastScheduledAt := s.plans[p].lastScheduledAt, paused := false)]);
    if cancelQueued then EndQueued(edited, p, Cancelled, "SCOPE_REVISION_SUPERSEDED", now) else edited
  }

  function PausePlan(s: State, p: string, now: int): State
  {
    var paused := if p in s.plans
                  then s.(plans := s.plans[p := s.plans[p].(enabled := false, nextRunAt := None, paused := true)])
                  else s;
    EndQueued(paused, p, Skipped, "PLAN_PAUSED_SCOPE_INVALID", now)
  }

  function AdvancePlan(s: State, p: string, scheduledAt: int, next: Option<int>): State
  {
    if p in s.plans
    then s.(plans := s.plans[p := s.plans[p].(lastScheduledAt := Some(scheduledAt), nextRunAt := next)])
    else s
  }

  /** First statement of CancelTask. */
  function CancelTaskRow(s: State, t: string, now: int): State
  {
    if t in s.tasks && s.tasks[t].status == Queued
    then s.(tasks := s.tasks[t := s.tasks[t].(status := Cancelled, finishedAt := Some(now), errorCode := "TASK_CANCELLED")])
    else s
  }

  /** Second statement of CancelTask; the two do not share a transaction. */
  function CancelJobRow(s: State, j: string, now: int): State
  {
    if j in s.jobs && s.jobs[j].status == Queued
    then s.(jobs := s.jobs[j := s.jobs[j].(status := Failed, errorCode := "BACKUP_CANCELLED", finishedAt := Some(now))])
    else s
  }

  // ---------------------------------------------------------------- creating work

  function NewBatch(plan: string, trigger: string, status: Status, scheduledAt: int, createdAt: int, finishedAt: Option<int>): Batch
  {
    Batch(plan, trigger, status, scheduledAt, createdAt, None, finishedAt, 0, 0, 0, 0, 0, 0)
  }

  /** The unique index on (plan_id, scheduled_at), which ignores rows without a plan. */
  predicate Scheduled(batches: map<string, Batch>, plan: string, at: int)
  {
    exists b | b in batches :: batches[b].plan == plan && batches[b].scheduledAt == at
  }

  predicate CreatesBatch(s: State, id: string, row: Batch)
  {
    id != "" && row.trigger != "" && id !in s.batches
    && (row.plan != "" ==> !Scheduled(s.batches, row.plan, row.scheduledAt))
  }

  function CreateBatch(s: State, id: string, row: Batch): State
  {
    if CreatesBatch(s, id, row) then s.(batches := s.batches[id := row]) else s
  }

  /** The row AddTask writes: lease, snapshot and both time stamps start empty whatever the caller passes. */
  function FreshTask(row: Task): Task
  {
    row.(startedAt := None, finishedAt := None, token := "", worker := "", expires := None, heartbeat := None, snapshot := "")
  }

  predicate AddsTask(s: State, id: string, row: Task)
  {
    id != "" && row.job != "" && row.deploy != "" && row.batch in s.batches && id !in s.tasks
    && forall t | t in s.tasks ::
         s.tasks[t].job != row.job && !(s.tasks[t].batch == row.batch && s.tasks[t].deploy == row.deploy)
  }

  function AddTask(s: State, id: string, row: Task, now: int): State
  {
    if !AddsTask(s, id, row) then s
    else Refresh(s.(tasks := s.tasks[id := FreshTask(row)]), row.batch, now)
  }

  predicate Busy(jobs: map<string, Job>, deploy: string)
  {
    exists k | k in jobs :: jobs[k].deploy == deploy && Active(jobs[k].status)
  }

  predicate CreatesJob(s: State, id: string, row: Job)
  {
    id != "" && row.deploy != "" && row.status == Queued && !Busy(s.jobs, row.deploy) && id !in s.jobs
  }

  function CreateJob(s: State, id: string, row: Job): State
  {
    if CreatesJob(s, id, row)
    then s.(jobs := s.jobs[id := row.(status := Queued, errorCode := "", snapshot := "", startedAt := None, finishedAt := None)])
    else s
  }

  // ---------------------------------------------------------------- running a job

  predicate StartsJob(s: State, j: string)
  {
    j in s.jobs && s.jobs[j].status == Queued
  }

  function StartJob(s: State, j: string, now: int): State
  {
    if StartsJob(s, j)
    then s.(jobs := s.jobs[j := s.jobs[j].(status := Running, startedAt := Some(now))])
    else s
  }

  function FailJob(s: State, j: string, code: string, now: int): State
  {
    if j in s.jobs && Active(s.jobs[j].status)
    then s.(jobs := s.jobs[j := s.jobs[j].(status := Failed, errorCode := code, finishedAt := Some(now))])
    else s
  }

  function SnapshotId(job: string): string
  {
    "snapshot-" + Text.TrimPrefix(job, "backup-")
  }

  predicate Commits(s: State, id: string, row: Snapshot)
  {
    id != "" && row.job != "" && row.path != "" && row.digest != "" && id !in s.snapshots
    && (forall k | k in s.snapshots :: s.snapshots[k].job != row.job)
    && row.job in s.jobs && s.jobs[row.job].status == Running
  }

  function CommitSnapshot(s: State, id: string, row: Snapshot): State
  {
    if Commits(s, id, row)
    then s.(snapshots := s.snapshots[id := row],
            jobs := s.jobs[row.job := s.jobs[row.job].(status := Succeeded, errorCode := "", snapshot := id,
                                                       finishedAt := Some(row.finishedAt))])
    else s
  }

  function TrashSnapshot(s: State, id: string, path: string, now: int): State
  {
    if id in s.snapshots && s.snapshots[id].retention == Kept
    then s.(snapshots := s.snapshots[id := s.snapshots[id].(retention := Trashed, path := path, trashedAt := Some(now))])
    else s
  }

  function PurgeSnapshots(s: State, before: int): State
  {
    s.(snapshots := map k | k in s.snapshots &&
         !(s.snapshots[k].retention == Trashed && s.snapshots[k].trashedAt.Some? && s.snapshots[k].trashedAt.value <= before)
         :: s.snapshots[k])
  }
}
