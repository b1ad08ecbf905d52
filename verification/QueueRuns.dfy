/** Whole runs of the queue: any number of workers, each with its own program counter and lease
    token, callers of the API, recovery and crashes, interleaved one transaction at a time. */
module QueueRuns {
  import opened Tables
  import opened QueueSpec
  import opened QueueInvariants
  import Text

  // ---------------------------------------------------------------- workers

  /** What a worker remembers of its claim: the row as ClaimNextTask returned it. */
  datatype Lease = Lease(task: string, token: string, row: Task)

  /** Program counter of a worker; the comment says which call comes next. */
  datatype Worker =
    | Idle                                                   // ClaimNextTask
    | Claimed(lease: Lease)                                  // SetTaskStatus PRECHECKING
    | Checked(lease: Lease)                                  // StartBackupJob
    | Executing(lease: Lease)                                // CommitSnapshot, or the run fails
    | Failing(lease: Lease, code: string, cancelled: bool)   // FailBackupJob
    | Faulted(lease: Lease, code: string, cancelled: bool)   // PausePlanForScope, or the verdict
    | Deciding(lease: Lease, code: string)                   // RetryTask or FinishTaskFailure
    | Delivered(lease: Lease)                                // BackupJob lookup
    | Completing(lease: Lease, snapshot: string)             // CompleteTask

  const SCOPE_MISSING := "BACKUP_SCOPE_PATH_MISSING"

  predicate Retryable(code: string)
  {
    code !in {"BACKUP_CANCELLED", "NO_APPLICATION_DATA", "UNSUPPORTED_DATABASE", "INSTANCE_NOT_BACKUPABLE",
              "SHARED_INSTANCE_CONFIRMATION_REQUIRED", "SOURCE_OWNER_MISMATCH", "SOURCE_INSTANCE_NOT_FOUND",
              SCOPE_MISSING}
  }

  predicate PausesPlan(row: Task, code: string)
  {
    code == SCOPE_MISSING && row.plan != "" && !Text.HasPrefix(row.plan, "manual-")
  }

  function Pow2(n: nat): (p: nat)
    ensures p >= 1
  {
    if n == 0 then 1 else 2 * Pow2(n - 1)
  }

  function Base(row: Task): (b: nat)
    ensures b >= 1
  {
    if row.backoff <= 0 then 60 else row.backoff
  }

  /** Seconds between failed attempt n and its automatic successor, in units of the base delay. */
  function Factor(n: nat): nat
    requires n >= 1
  {
    Pow2(if n - 1 < 6 then n - 1 else 6)
  }

  function Wait(row: Task, n: nat): nat
    requires n >= 1
  {
    Base(row) * Factor(n)
  }

  /** Sum of Factor over attempts 1..n. */
  function Factors(n: nat): nat
  {
    if n == 0 then 0 else Factors(n - 1) + Factor(n)
  }

  // ---------------------------------------------------------------- history

  /** How often each thing has happened to one task, the automatic retry it waits for, and the lease expiry that its last
      claim, or a heartbeat under that claim's token, was given. */
  datatype History = History(
    created: nat, claims: nat, retries: nat, requeues: nat, resets: nat, dropped: nat, delay: nat, pending: Option<Backoff>,
    granted: Option<int>)

  /** Attempt `number` failed at time `at` and was put back with a delay. */
  datatype Backoff = Backoff(number: nat, at: int)

  datatype World = World(db: State, workers: map<string, Worker>, history: map<string, History>, used: set<string>)

  const START := World(EMPTY, map[], map[], {})

  function Pc(w: World, name: string): Worker
  {
    if name in w.workers then w.workers[name] else Idle
  }

  function Move(w: World, name: string, pc: Worker): World
  {
    w.(workers := w.workers[name := pc])
  }

  function DropQueued(w: World, plan: string): map<string, History>
  {
    map t | t in w.history ::
      if t in w.db.tasks && QueuedFor(w.db.tasks[t], plan)
      then w.history[t].(dropped := w.history[t].dropped + 1, pending := None)
      else w.history[t]
  }

  /** A heartbeat under the task's current token prolongs the lease. */
  function Prolong(w: World, l: Lease, expires: int): map<string, History>
  {
    if Holds(w.db, l.task, l.token) && l.task in w.history then Note(w, l.task, w.history[l.task].(granted := Some(expires))) else w.history
  }

  function Note(w: World, t: string, h: History): map<string, History>
  {
    w.history[t := h]
  }

  // ---------------------------------------------------------------- events

  /** `ok` is false when the database call fails: its effect is lost and the worker goes on regardless. */
  datatype Event =
    | CreateBatchEvent(id: string, batch: Batch)
    | CreateJobEvent(id: string, job: Job)
    | AddTaskEvent(id: string, task: Task, now: int)
    | FailJobEvent(id: string, code: string, now: int)
    | CancelTaskEvent(id: string, now: int)
    | CancelJobEvent(id: string, now: int)
    | RequeueEvent(items: seq<string>, now: int)
    | ResetEvent(id: string, now: int)
    | EditPlanEvent(id: string, plan: Plan, cancelQueued: bool, now: int)
    | PausePlanEvent(id: string, now: int)
    | PlanRowEvent(plans: map<string, Plan>)
    | TrashEvent(id: string, path: string, now: int)
    | PurgeEvent(now: int)
    | ClaimEvent(name: string, id: string, token: string, now: int, expires: int)
    | SetStatusEvent(name: string, ok: bool)
    | HeartbeatEvent(name: string, now: int, expires: int)
    | StartEvent(name: string, now: int)
    | AbortEvent(name: string, code: string, cancelled: bool)
    | RunFailsEvent(name: string, code: string, cancelled: bool)
    | CommitEvent(name: string, snapshot: Snapshot)
    | FailOwnJobEvent(name: string, now: int, ok: bool)
    | PauseOwnPlanEvent(name: string, now: int, ok: bool)
    | VerdictEvent(name: string, now: int, ok: bool)
    | LookupEvent(name: string)
    | CompleteEvent(name: string, now: int, ok: bool)
    | CrashEvent(name: string)

  /** Events of a worker that holds a claim. */
  predicate HolderEvent(e: Event)
  {
    e.SetStatusEvent? || e.HeartbeatEvent? || e.StartEvent? || e.AbortEvent? || e.RunFailsEvent? || e.CommitEvent?
    || e.FailOwnJobEvent? || e.PauseOwnPlanEvent? || e.VerdictEvent? || e.LookupEvent? || e.CompleteEvent?
  }

  /** One step; an event that cannot happen leaves the world as it is. */
  function Step(w: World, e: Event): World
  {
    if e.AddTaskEvent? then AddTaskStep(w, e.id, e.task, e.now)
    else if e.CancelTaskEvent? then CancelTaskStep(w, e.id, e.now)
    else if e.RequeueEvent? then RequeueStep(w, e.items, e.now)
    else if e.ResetEvent? then ResetStep(w, e.id, e.now)
    else if e.EditPlanEvent? then EditPlanStep(w, e.id, e.plan, e.cancelQueued, e.now)
    else if e.PausePlanEvent? then PausePlanStep(w, e.id, e.now)
    else if e.ClaimEvent? then ClaimStep(w, e.name, e.id, e.token, e.now, e.expires)
    else if e.CrashEvent? then Move(w, e.name, Idle)
    else if HolderEvent(e) then WorkerStep(w, e)
    else w.(db := TableStep(w.db, e))
  }

  /** Statements that change jobs, batches, plans or snapshots but no task row. */
  function TableStep(s: State, e: Event): State
  {
    match e
    case CreateBatchEvent(id, b) =>
      if b == NewBatch(b.plan, b.trigger, b.status, b.scheduledAt, b.createdAt, b.finishedAt) then CreateBatch(s, id, b) else s
    case CreateJobEvent(id, job) => CreateJob(s, id, job)
    case FailJobEvent(id, code, now) => FailJob(s, id, code, now)
    case CancelJobEvent(id, now) => CancelJobRow(s, id, now)
    case PlanRowEvent(plans) => s.(plans := plans)
    case TrashEvent(id, path, now) => TrashSnapshot(s, id, path, now)
    case PurgeEvent(now) => PurgeSnapshots(s, now)
    case _ => s
  }

  /** The steps of a worker that holds a claim. */
  function WorkerStep(w: World, e: Event): World
  {
    match e
    case SetStatusEvent(name, ok) =>
      (match Pc(w, name)
       case Claimed(l) =>
         Move(if ok then w.(db := SetStatus(w.db, l.task, l.token, Prechecking)) else w, name, Checked(l))
       case _ => w)
    case HeartbeatEvent(name, now, expires) =>
      var pc := Pc(w, name);
      if pc.Idle? then w
      else w.(db := Heartbeat(w.db, pc.lease.task, pc.lease.token, now, expires), history := Prolong(w, pc.lease, expires))
    case StartEvent(name, now) =>
      (match Pc(w, name)
       case Checked(l) =>
         if StartsJob(w.db, l.row.job)
         then Move(w.(db := StartJob(w.db, l.row.job, now)), name, Executing(l))
         else Move(w, name, Faulted(l, "BACKUP_FAILED", false))
       case _ => w)
    case AbortEvent(name, code, cancelled) =>
      (match Pc(w, name) case Checked(l) => Move(w, name, Faulted(l, code, cancelled)) case _ => w)
    case RunFailsEvent(name, code, cancelled) =>
      (match Pc(w, name) case Executing(l) => Move(w, name, Failing(l, code, cancelled)) case _ => w)
    case CommitEvent(name, row) =>
      (match Pc(w, name)
       case Executing(l) =>
         if row.job != l.row.job then w
         else if Commits(w.db, SnapshotId(l.row.job), row)
         then Move(w.(db := CommitSnapshot(w.db, SnapshotId(l.row.job), row)), name, Delivered(l))
         else Move(w, name, Failing(l, "CONTROL_DATABASE_WRITE_FAILED", false))
       case _ => w)
    case FailOwnJobEvent(name, now, ok) =>
      (match Pc(w, name)
       case Failing(l, code, cancelled) =>
         Move(if ok then w.(db := FailJob(w.db, l.row.job, code, now)) else w, name, Faulted(l, code, cancelled))
       case _ => w)
    case PauseOwnPlanEvent(name, now, ok) =>
      (match Pc(w, name)
       case Faulted(l, code, cancelled) =>
         if cancelled || !PausesPlan(l.row, code) then w
         else Move(if ok then PausePlanStep(w, l.row.plan, now) else w, name, Deciding(l, code))
       case _ => w)
    case VerdictEvent(name, now, ok) =>
      (match Pc(w, name)
       case Faulted(l, code, cancelled) =>
         if cancelled then Move(if ok then FinishStep(w, l, Cancelled, "BACKUP_CANCELLED", now) else w, name, Idle)
         else if PausesPlan(l.row, code) then w
         else Move(if ok then VerdictStep(w, l, code, now) else w, name, Idle)
       case Deciding(l, code) => Move(if ok then VerdictStep(w, l, code, now) else w, name, Idle)
       case _ => w)
    case LookupEvent(name) =>
      (match Pc(w, name)
       case Delivered(l) =>
         if l.row.job in w.db.jobs then Move(w, name, Completing(l, w.db.jobs[l.row.job].snapshot)) else Move(w, name, Idle)
       case _ => w)
    case CompleteEvent(name, now, ok) =>
      (match Pc(w, name)
       case Completing(l, snapshot) =>
         Move(if ok then w.(db := Complete(w.db, l.task, l.token, snapshot, now)) else w, name, Idle)
       case _ => w)
    case _ => w
  }

  function AddTaskStep(w: World, id: string, task: Task, now: int): World
  {
    if (task.status == Queued || task.status == Skipped) && task.attemptCount == 0 && AddsTask(w.db, id, task)
    then w.(db := AddTask(w.db, id, task, now),
            history := Note(w, id, History(if task.status == Queued then 1 else 0, 0, 0, 0, 0, 0, 0, None, None)))
    else w
  }

  function CancelTaskStep(w: World, t: string, now: int): World
  {
    if t in w.db.tasks && t in w.history && w.db.tasks[t].status == Queued
    then w.(db := CancelTaskRow(w.db, t, now),
            history := Note(w, t, w.history[t].(dropped := w.history[t].dropped + 1, pending := None)))
    else w
  }

  function RequeueStep(w: World, items: seq<string>, now: int): World
  {
    if (forall i, j | 0 <= i < j < |items| :: items[i] != items[j])
       && (forall t | t in items :: t in Expired(w.db.tasks, now)) && (forall t | t in Expired(w.db.tasks, now) :: t in items)
    then w.(db := RequeueAll(w.db, items, now),
            history := map t | t in w.history ::
              if t in items then w.history[t].(requeues := w.history[t].requeues + 1, pending := None) else w.history[t])
    else w
  }

  function ResetStep(w: World, t: string, now: int): World
  {
    if Resets(w.db, t) && t in w.history
    then w.(db := Reset(w.db, t, now),
            history := Note(w, t, w.history[t].(resets := w.history[t].resets + 1, pending := None)))
    else w
  }

  function EditPlanStep(w: World, p: string, row: Plan, cancelQueued: bool, now: int): World
  {
    w.(db := UpdatePlan(w.db, p, row, cancelQueued, now),
       history := if Edits(w.db, p, row) && cancelQueued then DropQueued(w, p) else w.history)
  }

  function PausePlanStep(w: World, p: string, now: int): World
  {
    w.(db := PausePlan(w.db, p, now), history := DropQueued(w, p))
  }

  function ClaimStep(w: World, name: string, t: string, token: string, now: int, expires: int): World
  {
    if Pc(w, name).Idle? && First(w.db.tasks, t, now) && t in w.history && token != "" && token !in w.used then
      var db := Claim(w.db, t, name, token, now, expires);
      if t !in db.tasks then w else
      World(db, w.workers[name := Claimed(Lease(t, token, db.tasks[t]))],
            Note(w, t, w.history[t].(claims := w.history[t].claims + 1, pending := None, granted := Some(expires))), w.used + {token})
    else w
  }

  function FinishStep(w: World, l: Lease, status: Status, code: string, now: int): World
  {
    w.(db := FinishFailure(w.db, l.task, l.token, status, code, now))
  }

  /** Retry with back-off while the attempt number allows it, else fail the task for good. */
  function VerdictStep(w: World, l: Lease, code: string, now: int): World
  {
    if Retryable(code) && 1 <= l.row.attemptCount <= l.row.maxRetries then
      if Retries(w.db, l.task, l.token) && l.task in w.history then
        var n := l.row.attemptCount;
        var h := w.history[l.task];
        w.(db := Retry(w.db, l.task, l.token, code, now + Wait(l.row, n), now),
           history := Note(w, l.task, h.(retries := h.retries + 1, delay := h.delay + Wait(l.row, n),
                                         pending := Some(Backoff(n, now)))))
      else w
    else FinishStep(w, l, if code == "BACKUP_TIMED_OUT" then TimedOut else Failed, code, now)
  }

  function Run(w: World, events: seq<Event>): World
  {
    if events == [] then w else Step(Run(w, events[..|events| - 1]), events[|events| - 1])
  }
}
