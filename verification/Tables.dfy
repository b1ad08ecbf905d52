/** One tenant's rows of the control database. */
module Tables {

  datatype Option<+T> = None | Some(value: T)

  /** Statuses of tasks, attempts, jobs and batches; each table uses some of them. */
  datatype Status =
    | Queued | Leased | Prechecking | Scanning | SqliteSnapshot | ZipWriting | Verifying | Committing
    | Running | Succeeded | SucceededWithWarnings
    | Failed | TimedOut | Interrupted | Cancelled | Skipped

  datatype Verification = Verified | Unverified | Broken

  datatype Retention = Kept | Trashed

  /** What a store operation reports to its caller. */
  datatype Outcome = Done | NotFound | Conflict | Invalid | Rejected

  datatype Mode = Full | Core | Custom

  datatype Scope = Scope(mode: Mode, directories: seq<string>, files: seq<string>, revision: int)

  datatype Target = Target(deploy: string, scope: Scope)

  datatype Plan = Plan(
    enabled: bool, catchUp: bool, maxCatchUp: int, maxRetries: int, backoff: int,
    lastScheduledAt: Option<int>, nextRunAt: Option<int>, paused: bool, targets: seq<Target>)

  datatype Batch = Batch(
    plan: string, trigger: string, status: Status, scheduledAt: int, createdAt: int,
    startedAt: Option<int>, finishedAt: Option<int>,
    total: nat, succeeded: nat, failed: nat, skipped: nat, running: nat, queued: nat)

  datatype Task = Task(
    batch: string, plan: string, job: string, deploy: string, status: Status,
    priority: int, attemptCount: nat, maxRetries: int, backoff: int, errorCode: string,
    availableAt: int, scheduledAt: int, createdAt: int,
    startedAt: Option<int>, finishedAt: Option<int>,
    token: string, worker: string, expires: Option<int>, heartbeat: Option<int>, snapshot: string)

  /** Key of task_attempts: its unique index is on (task_id, attempt). */
  datatype AttemptKey = AttemptKey(task: string, number: int)

  datatype Attempt = Attempt(
    status: Status, errorCode: string, worker: string, startedAt: int, finishedAt: Option<int>)

  datatype Job = Job(
    deploy: string, plan: string, batch: string, task: string, status: Status, errorCode: string,
    snapshot: string, createdAt: int, startedAt: Option<int>, finishedAt: Option<int>)

  datatype Snapshot = Snapshot(
    job: string, plan: string, path: string, size: int, digest: string, capturedAt: int, finishedAt: int,
    verification: Verification, retention: Retention, trashedAt: Option<int>)

  datatype State = State(
    plans: map<string, Plan>, batches: map<string, Batch>, tasks: map<string, Task>,
    attempts: map<AttemptKey, Attempt>, jobs: map<string, Job>, snapshots: map<string, Snapshot>)

  const EMPTY := State(map[], map[], map[], map[], map[], map[])
}
