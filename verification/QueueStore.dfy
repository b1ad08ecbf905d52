/** The control database as an object: one field per table, one method per transaction. Each method runs
    the statements of its transaction in order and is proved equal to the function QueueSpec gives it. */
module QueueStore {
  import opened Tables
  import opened QueueSpec
  import opened QueueInvariants
  import Text

  // ---------------------------------------------------------------- choosing the task to claim

  lemma BeforeTotal(tasks: map<string, Task>, t: string, u: string)
    requires t in tasks && u in tasks && t != u
    ensures Before(tasks, t, u) || Before(tasks, u, t)
  {
    Text.LessTotal(t, u);
  }

  lemma BeforeTransitive(tasks: map<string, Task>, t: string, u: string, v: string)
    requires t in tasks && u in tasks && v in tasks && Before(tasks, t, u) && Before(tasks, u, v)
    ensures Before(tasks, t, v)
  {
    if Text.Less(t, u) && Text.Less(u, v) { Text.LessTransitive(t, u, v); }
  }

  lemma BeforeAsymmetric(tasks: map<string, Task>, t: string, u: string)
    requires t in tasks && u in tasks && Before(tasks, t, u)
    ensures !Before(tasks, u, t)
  {
    if Text.Less(t, u) { Text.LessAsymmetric(t, u); }
  }

  ghost predicate Foremost(tasks: map<string, Task>, ids: set<string>, t: string)
    requires forall u | u in ids :: u in tasks
  {
    t in ids && forall u | u in ids && u != t :: Before(tasks, t, u)
  }

  lemma {:induction false} ForemostExists(tasks: map<string, Task>, ids: set<string>) returns (t: string)
    requires ids != {} && forall u | u in ids :: u in tasks
    ensures Foremost(tasks, ids, t)
    decreases |ids|
  {
    var u :| u in ids;
    if ids == {u} {
      t := u;
    } else {
      var rest := ids - {u};
      var v := ForemostExists(tasks, rest);
      BeforeTotal(tasks, u, v);
      if Before(tasks, v, u) {
        t := v;
      } else {
        t := u;
        forall x | x in ids && x != u ensures Before(tasks, u, x) {
          if x != v { BeforeTransitive(tasks, u, v, x); }
        }
      }
    }
  }

  /** A task is first in claim order whenever any task is claimable, and only one task is. */
  lemma FirstExists(tasks: map<string, Task>, now: int)
    ensures (exists t :: First(tasks, t, now)) <==> exists t :: Claimable(tasks, t, now)
    ensures forall t, u | First(tasks, t, now) && First(tasks, u, now) :: t == u
  {
    var ids := set t | t in tasks && Claimable(tasks, t, now);
    if t :| Claimable(tasks, t, now) {
      assert t in ids;
      var first := ForemostExists(tasks, ids);
      assert First(tasks, first, now);
    }
    forall t, u | First(tasks, t, now) && First(tasks, u, now) ensures t == u {
      if t != u { BeforeAsymmetric(tasks, t, u); }
    }
  }

  /** The task is neither queued nor ended, and its lease has run out. */
  predicate LeaseOver(row: Task, now: int)
  {
    row.status !in {Queued, Succeeded, Failed, Cancelled, TimedOut, Skipped, Interrupted} && row.expires.Some? && row.expires.value <= now
  }

  lemma ExpiredMeans(tasks: map<string, Task>, now: int)
    ensures forall t | t in tasks :: t in Expired(tasks, now) <==> LeaseOver(tasks[t], now)
    ensures forall t | t in Expired(tasks, now) :: t in tasks
  {}

  /** The task may be claimed. */
  predicate Waits(row: Task, now: int)
  {
    row.status == Queued && row.availableAt <= now
  }

  /** The task has the highest priority of all that wait, among those it has waited longest, among those it is the oldest,
      and then its id is the least. */
  predicate Leads(tasks: map<string, Task>, t: string, now: int)
  {
    t in tasks && Waits(tasks[t], now)
    && forall u | u in tasks && Waits(tasks[u], now) ::
         var a, b := tasks[t], tasks[u];
         b.priority <= a.priority
         && (b.priority == a.priority ==> a.availableAt <= b.availableAt)
         && (b.priority == a.priority && b.availableAt == a.availableAt ==> a.createdAt <= b.createdAt)
         && (b.priority == a.priority && b.availableAt == a.availableAt && b.createdAt == a.createdAt && u != t ==> Text.Less(t, u))
  }

  lemma LeadsIs(tasks: map<string, Task>, t: string, now: int)
    ensures Leads(tasks, t, now) <==> First(tasks, t, now)
  {}

  class Store {
    var plans: map<string, Plan>
    var batches: map<string, Batch>
    var tasks: map<string, Task>
    var attempts: map<AttemptKey, Attempt>
    var jobs: map<string, Job>
    var snapshots: map<string, Snapshot>

    constructor ()
      ensures View() == EMPTY
    {
      plans, batches, tasks := map[], map[], map[];
      attempts, jobs, snapshots := map[], map[], map[];
    }

    function View(): State
      reads this
    {
      State(plans, batches, tasks, attempts, jobs, snapshots)
    }

    /** ROLLBACK */
    method Restore(saved: State)
      modifies this
      ensures View() == saved
    {
      plans, batches, tasks := saved.plans, saved.batches, saved.tasks;
      attempts, jobs, snapshots := saved.attempts, saved.jobs, saved.snapshots;
    }

    method RefreshBatch(batch: string, now: int)
      modifies this
      ensures View() == Refresh(old(View()), batch, now)
    {
      if batch in batches {
        batches := batches[batch := Recounted(tasks, batch, batches[batch], now)];
      }
    }

    // -------------------------------------------------------------- leases

    method ClaimNextTask(worker: string, token: string, now: int, expires: int) returns (claimed: Option<string>)
      modifies this
      ensures claimed.Some? ==>
        First(old(tasks), claimed.value, now) && View() == Claim(old(View()), claimed.value, worker, token, now, expires)
      ensures claimed.Some? ==> Leads(old(tasks), claimed.value, now)
      ensures claimed.None? ==> View() == old(View())
      ensures Inv(old(View())) ==> (claimed.None? <==> forall t :: !Claimable(old(tasks), t, now))
    {
      var saved := View();
      FirstExists(tasks, now);
      forall t ensures Leads(tasks, t, now) <==> First(tasks, t, now) { LeadsIs(tasks, t, now); }
      hide Leads;
      if t :| t in tasks && First(tasks, t, now) {
        var row := tasks[t];
        tasks := tasks[t := LeasedRow(row, worker, token, now, expires)];
        var key := AttemptKey(t, row.attemptCount + 1);
        if key in attempts {
          assert Inv(old(View())) ==> AttemptsOk(saved.attempts, t, row.attemptCount, row.token != "");
          Restore(saved);
          return None;
        }
        attempts := attempts[key := Attempt(Running, "", worker, now, None)];
        RefreshBatch(row.batch, now);
        return Some(t);
      }
      return None;
    }

    method SetTaskStatus(t: string, token: string, status: Status) returns (r: Outcome)
      modifies this
      ensures View() == SetStatus(old(View()), t, token, status)
      ensures r == Done <==> Holds(old(View()), t, token) && InLease(old(tasks)[t].status)
      ensures r == Done || r == NotFound
    {
      if t in tasks && tasks[t].token == token && InLease(tasks[t].status) {
        tasks := tasks[t := tasks[t].(status := status)];
        return Done;
      }
      return NotFound;
    }

    method HeartbeatTask(t: string, token: string, now: int, expires: int)
      modifies this
      ensures View() == Heartbeat(old(View()), t, token, now, expires)
    {
      if t in tasks && tasks[t].token == token && !Terminal(tasks[t].status) {
        tasks := tasks[t := tasks[t].(heartbeat := Some(now), expires := Some(expires))];
      }
    }

    method CompleteTask(t: string, token: string, snapshot: string, now: int) returns (r: Outcome)
      modifies this
      ensures View() == Complete(old(View()), t, token, snapshot, now)
      ensures r == (if Holds(old(View()), t, token) then Done else NotFound)
    {
      if t !in tasks || tasks[t].token != token { return NotFound; }
      tasks := tasks[t := Released(tasks[t]).(status := Succeeded, snapshot := snapshot, finishedAt := Some(now))];
      attempts := EndAttempts(attempts, t, Succeeded, None, now);
      RefreshBatch(tasks[t].batch, now);
      return Done;
    }

    method RetryTask(t: string, token: string, code: string, availableAt: int, now: int) returns (r: Outcome)
      modifies this
      ensures View() == Retry(old(View()), t, token, code, availableAt, now)
      ensures r == (if !Holds(old(View()), t, token) then NotFound else if Retries(old(View()), t, token) then Done else Rejected)
    {
      var saved := View();
      if t !in tasks || tasks[t].token != token { return NotFound; }
      tasks := tasks[t := Released(tasks[t]).(status := Queued, errorCode := code, availableAt := availableAt)];
      attempts := EndAttempts(attempts, t, Failed, Some(code), now);
      var job := tasks[t].job;
      if ReopenBlocked(jobs, job) {
        Restore(saved);
        return Rejected;
      }
      jobs := Reopen(jobs, job, false);
      RefreshBatch(tasks[t].batch, now);
      return Done;
    }

    method FinishTaskFailure(t: string, token: string, status: Status, code: string, now: int) returns (r: Outcome)
      modifies this
      ensures View() == FinishFailure(old(View()), t, token, status, code, now)
      ensures r == (if Holds(old(View()), t, token) then Done else NotFound)
    {
      if t !in tasks || tasks[t].token != token { return NotFound; }
      tasks := tasks[t := Released(tasks[t]).(status := status, errorCode := code, finishedAt := Some(now))];
      attempts := EndAttempts(attempts, t, status, Some(code), now);
      RefreshBatch(tasks[t].batch, now);
      return Done;
    }

    method ResetTaskForManualRetry(t: string, now: int) returns (r: Outcome)
      modifies this
      ensures View() == Reset(old(View()), t, now)
      ensures r == Done <==> Resets(old(View()), t)
      ensures r == Conflict <==> !(t in old(tasks) && Reopenable(old(tasks)[t].status))
    {
      var saved := View();
      if t !in tasks || !Reopenable(tasks[t].status) { return Conflict; }
      tasks := tasks[t := Released(tasks[t]).(status := Queued, errorCode := "MANUAL_RETRY", availableAt := now, finishedAt := None)];
      var job := tasks[t].job;
      if ReopenBlocked(jobs, job) {
        Restore(saved);
        return Rejected;
      }
      jobs := Reopen(jobs, job, true);
      RefreshBatch(tasks[t].batch, now);
      return Done;
    }

    /** The query's rows come in an order the program does not choose; the loop handles them one by one. */
    method RequeueExpiredTasks(now: int) returns (ghost items: seq<string>)
      modifies this
      ensures Enumerates(items, Expired(old(tasks), now))
      ensures forall t | t in items :: t in old(tasks)
      ensures View() == RequeueAll(old(View()), items, now)
      ensures forall t | t in old(tasks) :: t in items <==> LeaseOver(old(tasks)[t], now)
    {
      ExpiredMeans(tasks, now);
      hide Expired, LeaseOver, RequeueOne;
      var rows: seq<string> := [];
      var left := Expired(tasks, now);
      while left != {}
        invariant left <= Expired(tasks, now)
        invariant forall t :: t in rows <==> t in Expired(tasks, now) && t !in left
        invariant forall i, j | 0 <= i < j < |rows| :: rows[i] != rows[j]
        invariant View() == old(View())
        decreases left
      {
        var t :| t in left;
        rows, left := rows + [t], left - {t};
      }
      items := rows;
      var i := 0;
      while i < |rows|
        invariant 0 <= i <= |rows|
        invariant tasks.Keys == old(tasks.Keys)
        invariant forall t :: t in rows[..i] ==> t in old(tasks)
        invariant View() == RequeueAll(old(View()), rows[..i], now)
      {
        assert rows[..i + 1][..i] == rows[..i];
        RequeueTask(rows[i], now);
        i := i + 1;
      }
      assert rows[..i] == rows;
    }

    /** The four statements for one expired task. */
    method RequeueTask(t: string, now: int)
      requires t in tasks
      modifies this
      ensures View() == RequeueOne(old(View()), t, now) && tasks.Keys == old(tasks.Keys)
    {
      tasks := tasks[t := Released(tasks[t]).(status := Queued, errorCode := "WORKER_INTERRUPTED", availableAt := now)];
      jobs := Unstart(jobs, tasks[t].job);
      attempts := EndAttempts(attempts, t, Interrupted, Some("WORKER_INTERRUPTED"), now);
      RefreshBatch(tasks[t].batch, now);
    }

    // -------------------------------------------------------------- cancelling

    method CancelTask(t: string, now: int) returns (r: Outcome)
      modifies this
      ensures View() == if t in old(tasks) && old(tasks)[t].status == Queued
                        then CancelJobRow(CancelTaskRow(old(View()), t, now), old(tasks)[t].job, now) else old(View())
      ensures r == (if t !in old(tasks) then NotFound
                    else if old(tasks)[t].status == Queued || InLease(old(tasks)[t].status) then Done else Conflict)
    {
      if t !in tasks { return NotFound; }
      var row := tasks[t];
      if row.status == Queued {
        CancelQueuedTask(t, now);
        CancelQueuedJob(row.job, now);
        return Done;
      }
      return if InLease(row.status) then Done else Conflict;
    }

    /** First of CancelTask's two statements; other transactions may run between them. */
    method CancelQueuedTask(t: string, now: int)
      modifies this
      ensures View() == CancelTaskRow(old(View()), t, now)
    {
      if t in tasks && tasks[t].status == Queued {
        tasks := tasks[t := tasks[t].(status := Cancelled, finishedAt := Some(now), errorCode := "TASK_CANCELLED")];
      }
    }

    method CancelQueuedJob(j: string, now: int)
      modifies this
      ensures View() == CancelJobRow(old(View()), j, now)
    {
      if j in jobs && jobs[j].status == Queued {
        jobs := jobs[j := jobs[j].(status := Failed, errorCode := "BACKUP_CANCELLED", finishedAt := Some(now))];
      }
    }

    // -------------------------------------------------------------- plans

    /** The two bulk updates of UpdatePlan and PausePlanForScope. */
    method EndQueuedWork(plan: string, status: Status, code: string, now: int)
      modifies this
      ensures View() == EndQueued(old(View()), plan, status, code, now)
    {
      tasks := map t | t in tasks ::
        if QueuedFor(tasks[t], plan)
        then tasks[t].(status := status, errorCode := code, finishedAt := Some(now)) else tasks[t];
      jobs := map j | j in jobs ::
        if jobs[j].plan == plan && jobs[j].status == Queued
        then jobs[j].(status := Failed, errorCode := code, finishedAt := Some(now)) else jobs[j];
    }

    /** The targets are inserted one by one; a bad one undoes the plan row and the cancellations too. */
    method EditPlan(p: string, row: Plan, cancelQueued: bool, now: int) returns (r: Outcome)
      modifies this
      ensures View() == UpdatePlan(old(View()), p, row, cancelQueued, now)
      ensures r == (if p !in old(plans) then NotFound else if ValidTargets(row.targets) then Done else Rejected)
    {
      var saved := View();
      if p !in plans { return NotFound; }
      plans := plans[p := row.(lastScheduledAt := plans[p].lastScheduledAt, paused := false)];
      if cancelQueued { EndQueuedWork(p, Cancelled, "SCOPE_REVISION_SUPERSEDED", now); }
      var i := 0;
      while i < |row.targets|
        invariant 0 <= i <= |row.targets|
        invariant ValidTargets(row.targets[..i])
      {
        if row.targets[i].deploy == "" || exists k | 0 <= k < i :: row.targets[k].deploy == row.targets[i].deploy {
          Restore(saved);
          return Rejected;
        }
        i := i + 1;
      }
      assert row.targets[..i] == row.targets;
      return Done;
    }

    method PausePlanForScope(p: string, now: int)
      modifies this
      ensures View() == PausePlan(old(View()), p, now)
    {
      if p in plans {
        plans := plans[p := plans[p].(enabled := false, nextRunAt := None, paused := true)];
      }
      EndQueuedWork(p, Skipped, "PLAN_PAUSED_SCOPE_INVALID", now);
    }

    method Advance(p: string, scheduledAt: int, next: Option<int>)
      modifies this
      ensures View() == AdvancePlan(old(View()), p, scheduledAt, next)
    {
      if p in plans {
        plans := plans[p := plans[p].(lastScheduledAt := Some(scheduledAt), nextRunAt := next)];
      }
    }

    // -------------------------------------------------------------- creating work

    method InsertBatch(id: string, row: Batch) returns (r: Outcome)
      modifies this
      ensures View() == CreateBatch(old(View()), id, row)
      ensures r == (if id == "" || row.trigger == "" then Invalid else if CreatesBatch(old(View()), id, row) then Done else Conflict)
    {
      if id == "" || row.trigger == "" { return Invalid; }
      if id in batches || (row.plan != "" && Scheduled(batches, row.plan, row.scheduledAt)) { return Conflict; }
      batches := batches[id := row];
      return Done;
    }

    method InsertTask(id: string, row: Task, now: int) returns (r: Outcome)
      modifies this
      ensures View() == AddTask(old(View()), id, row, now)
      ensures r == Done <==> AddsTask(old(View()), id, row)
      ensures r == Conflict ==>
        id in old(tasks) || exists t | t in old(tasks) ::
          old(tasks)[t].job == row.job || (old(tasks)[t].batch == row.batch && old(tasks)[t].deploy == row.deploy)
    {
      if id == "" || row.job == "" || row.deploy == "" { return Invalid; }
      if id in tasks || exists t | t in tasks :: tasks[t].job == row.job || (tasks[t].batch == row.batch && tasks[t].deploy == row.deploy) {
        return Conflict;
      }
      if row.batch !in batches { return Rejected; }
      tasks := tasks[id := FreshTask(row)];
      RefreshBatch(row.batch, now);
      return Done;
    }

    method CreateBackupJob(id: string, row: Job) returns (r: Outcome)
      modifies this
      ensures View() == CreateJob(old(View()), id, row)
      ensures r == Done <==> CreatesJob(old(View()), id, row)
      ensures r == Conflict <==> id != "" && row.deploy != "" && row.status == Queued && Busy(old(jobs), row.deploy)
    {
      if id == "" || row.deploy == "" || row.status != Queued { return Invalid; }
      if Busy(jobs, row.deploy) { return Conflict; }
      if id in jobs { return Rejected; }
      jobs := jobs[id := row.(status := Queued, errorCode := "", snapshot := "", startedAt := None, finishedAt := None)];
      return Done;
    }

    // -------------------------------------------------------------- running a job

    method StartBackupJob(j: string, now: int) returns (r: Outcome)
      modifies this
      ensures View() == StartJob(old(View()), j, now)
      ensures r == (if StartsJob(old(View()), j) then Done else NotFound)
    {
      if j !in jobs || jobs[j].status != Queued { return NotFound; }
      jobs := jobs[j := jobs[j].(status := Running, startedAt := Some(now))];
      return Done;
    }

    method FailBackupJob(j: string, code: string, now: int) returns (r: Outcome)
      modifies this
      ensures View() == FailJob(old(View()), j, code, now)
      ensures r == (if j in old(jobs) && Active(old(jobs)[j].status) then Done else NotFound)
    {
      if j !in jobs || !Active(jobs[j].status) { return NotFound; }
      jobs := jobs[j := jobs[j].(status := Failed, errorCode := code, finishedAt := Some(now))];
      return Done;
    }

    /** The snapshot is inserted first; if the job is not running the insertion is undone. */
    method InsertSnapshot(id: string, row: Snapshot) returns (r: Outcome)
      modifies this
      ensures View() == CommitSnapshot(old(View()), id, row)
      ensures r == Done <==> Commits(old(View()), id, row)
    {
      var saved := View();
      if id == "" || row.job == "" || row.path == "" || row.digest == "" { return Invalid; }
      if id in snapshots || exists k | k in snapshots :: snapshots[k].job == row.job { return Conflict; }
      snapshots := snapshots[id := row];
      if row.job !in jobs || jobs[row.job].status != Running {
        Restore(saved);
        return NotFound;
      }
      jobs := jobs[row.job := jobs[row.job].(status := Succeeded, errorCode := "", snapshot := id, finishedAt := Some(row.finishedAt))];
      return Done;
    }

    method MarkSnapshotTrashed(id: string, path: string, now: int) returns (r: Outcome)
      modifies this
      ensures View() == TrashSnapshot(old(View()), id, path, now)
      ensures r == (if id in old(snapshots) && old(snapshots)[id].retention == Kept then Done else NotFound)
    {
      if id !in snapshots || snapshots[id].retention != Kept { return NotFound; }
      snapshots := snapshots[id := snapshots[id].(retention := Trashed, path := path, trashedAt := Some(now))];
      return Done;
    }
  }
}
