/** Time stamps, error codes and names on the rows match their statuses in every reachable state, and first starts stay. */
module QueueRecords {
  import opened Tables
  import opened QueueSpec
  import opened QueueInvariants
  import opened QueueRuns
  import opened QueueTheorems
  import opened QueueSafety

  /** A task has started once it has been claimed; a lease comes with a heartbeat and without one there is no worker; an
      end has a time, and only a task that was inserted as skipped ends without. */
  predicate TaskStamped(row: Task)
  {
    (row.startedAt.Some? <==> row.attemptCount > 0)
    && (row.token != "" <==> row.heartbeat.Some?) && (row.token == "" ==> row.worker == "")
    && (row.status in {Succeeded, Failed, TimedOut, Interrupted, Cancelled} ==> row.finishedAt.Some?)
    && (row.finishedAt.Some? ==> row.status in {Succeeded, Failed, TimedOut, Interrupted, Cancelled, Skipped})
  }

  /** An attempt has ended when it has an end, and one that runs or succeeded has no error. */
  predicate AttemptStamped(row: Attempt)
  {
    (row.status == Running <==> row.finishedAt.None?) && (row.status in {Running, Succeeded} ==> row.errorCode == "")
  }

  /** A job waits, runs, failed or succeeded; it has an end exactly when it is not active, an error only when it failed,
      and a start while it runs. */
  predicate JobStamped(row: Job)
  {
    row.status in {Queued, Running, Failed, Succeeded}
    && (row.status in {Failed, Succeeded} <==> row.finishedAt.Some?)
    && (row.status != Failed ==> row.errorCode == "") && (row.status == Running ==> row.startedAt.Some?)
  }

  ghost predicate Stamped(s: State)
  {
    (forall t | t in s.tasks :: TaskStamped(s.tasks[t])) && (forall k | k in s.attempts :: AttemptStamped(s.attempts[k]))
    && forall j | j in s.jobs :: JobStamped(s.jobs[j])
  }

  /** A task that has started keeps its start, and so does a batch. */
  ghost predicate StartsKept(a: State, b: State)
  {
    (forall t | t in a.tasks && a.tasks[t].startedAt.Some? :: t in b.tasks && b.tasks[t].startedAt == a.tasks[t].startedAt)
    && forall x | x in a.batches && a.batches[x].startedAt.Some? :: x in b.batches && b.batches[x].startedAt == a.batches[x].startedAt
  }

  ghost predicate Recorded(a: State, b: State)
  {
    Stamped(b) && StartsKept(a, b)
  }

  // ---------------------------------------------------------------- one transaction

  lemma RefreshStamps(s: State, r: State, b: string, now: int)
    requires Recorded(s, r)
    ensures Recorded(s, Refresh(r, b, now))
  {
    hide TaskStamped, AttemptStamped, JobStamped;
  }

  lemma EndAttemptsStamps(attempts: map<AttemptKey, Attempt>, t: string, status: Status, code: Option<string>, now: int)
    requires forall k | k in attempts :: AttemptStamped(attempts[k])
    requires status != Running && (status == Succeeded ==> code.None?)
    ensures var r := EndAttempts(attempts, t, status, code, now); forall k | k in r :: AttemptStamped(r[k])
  {
  }

  lemma SettleStamps(s: State, t: string, row: Task, ended: Status, code: Option<string>, now: int)
    requires Stamped(s) && t in s.tasks && TaskStamped(row) && (s.tasks[t].startedAt.Some? ==> row.startedAt == s.tasks[t].startedAt)
    requires ended != Running && (ended == Succeeded ==> code.None?)
    ensures Recorded(s, Settle(s, t, row, ended, code, now))
  {
    EndAttemptsStamps(s.attempts, t, ended, code, now);
    hide TaskStamped, AttemptStamped, JobStamped, EndAttempts, Refresh;
    RefreshStamps(s, s.(tasks := s.tasks[t := row], attempts := EndAttempts(s.attempts, t, ended, code, now)), s.tasks[t].batch, now);
  }

  lemma JobsStamps(s: State, jobs: map<string, Job>, r: State)
    requires Recorded(s.(jobs := jobs), r) && (forall j | j in jobs :: JobStamped(jobs[j])) && Stamped(s)
    ensures Recorded(s, r)
  {
    hide TaskStamped, AttemptStamped, JobStamped;
  }

  lemma ReopenStamps(jobs: map<string, Job>, j: string, clearStart: bool)
    requires forall k | k in jobs :: JobStamped(jobs[k])
    ensures var r := Reopen(jobs, j, clearStart); forall k | k in r :: JobStamped(r[k])
    ensures var r := Unstart(jobs, j); forall k | k in r :: JobStamped(r[k])
  {
  }

  lemma FreedStamps(row: Task, status: Status)
    requires TaskStamped(row) && InLease(row.status)
    ensures forall code, at :: TaskStamped(Released(row).(status := Queued, errorCode := code, availableAt := at))
    ensures forall snapshot, now :: TaskStamped(Released(row).(status := Succeeded, snapshot := snapshot, finishedAt := Some(now)))
    ensures status in {Failed, TimedOut, Cancelled} ==>
      forall code, now :: TaskStamped(Released(row).(status := status, errorCode := code, finishedAt := Some(now)))
  {
  }

  lemma GuardedStamps(s: State, t: string, token: string)
    requires Inv(s) && Stamped(s) && token != ""
    ensures forall snapshot, now {:trigger Complete(s, t, token, snapshot, now)} :: Recorded(s, Complete(s, t, token, snapshot, now))
    ensures forall status, code, now {:trigger FinishFailure(s, t, token, status, code, now)} | status in {Failed, TimedOut, Cancelled} ::
      Recorded(s, FinishFailure(s, t, token, status, code, now))
    ensures forall code, at, now {:trigger Retry(s, t, token, code, at, now)} :: Recorded(s, Retry(s, t, token, code, at, now))
  {
    hide Inv, Settle, TaskStamped, AttemptStamped, JobStamped, Reopen, ReopenBlocked, Released, StartsKept;
    SelfRecorded(s);
    if Holds(s, t, token) {
      HolderIsLeased(s, t, token);
      hide InLease;
      ReleasedStart(s.tasks[t]);
      ReopenStamps(s.jobs, s.tasks[t].job, false);
      var reopened := s.(jobs := Reopen(s.jobs, s.tasks[t].job, false));
      forall snapshot, now ensures Recorded(s, Complete(s, t, token, snapshot, now)) {
        FreedStamps(s.tasks[t], Succeeded);
        SettleStamps(s, t, Released(s.tasks[t]).(status := Succeeded, snapshot := snapshot, finishedAt := Some(now)), Succeeded, None, now);
      }
      forall status, code, now | status in {Failed, TimedOut, Cancelled} ensures Recorded(s, FinishFailure(s, t, token, status, code, now)) {
        FreedStamps(s.tasks[t], status);
        SettleStamps(s, t, Released(s.tasks[t]).(status := status, errorCode := code, finishedAt := Some(now)), status, Some(code), now);
      }
      forall code, at, now ensures Recorded(s, Retry(s, t, token, code, at, now)) {
        FreedStamps(s.tasks[t], Queued);
        SettleStamps(reopened, t, Released(s.tasks[t]).(status := Queued, errorCode := code, availableAt := at), Failed, Some(code), now);
        JobsStamps(s, reopened.jobs, Settle(reopened, t, Released(s.tasks[t]).(status := Queued, errorCode := code, availableAt := at), Failed, Some(code), now));
      }
    }
  }

  lemma ReleasedStart(row: Task)
    ensures Released(row).startedAt == row.startedAt
  {}

  lemma SelfRecorded(s: State)
    requires Stamped(s)
    ensures Recorded(s, s)
  {
    hide TaskStamped, AttemptStamped, JobStamped;
  }

  lemma OneRowStamps(s: State, t: string, row: Task)
    requires Stamped(s) && t in s.tasks && TaskStamped(row) && (s.tasks[t].startedAt.Some? ==> row.startedAt == s.tasks[t].startedAt)
    ensures Recorded(s, s.(tasks := s.tasks[t := row]))
  {
    hide TaskStamped, AttemptStamped, JobStamped;
  }

  lemma OneJobStamps(s: State, jobs: map<string, Job>)
    requires Stamped(s) && forall j | j in jobs :: JobStamped(jobs[j])
    ensures Recorded(s, s.(jobs := jobs))
  {
    hide TaskStamped, AttemptStamped, JobStamped;
  }

  lemma LeaseStamps(s: State, t: string, token: string)
    requires Inv(s) && Stamped(s) && token != ""
    ensures Recorded(s, SetStatus(s, t, token, Prechecking))
    ensures forall now, expires {:trigger Heartbeat(s, t, token, now, expires)} :: Recorded(s, Heartbeat(s, t, token, now, expires))
  {
    hide Inv, AttemptStamped, JobStamped, StartsKept;
    SelfRecorded(s);
    if Holds(s, t, token) {
      HolderIsLeased(s, t, token);
      OneRowStamps(s, t, s.tasks[t].(status := Prechecking));
      forall now, expires ensures Recorded(s, Heartbeat(s, t, token, now, expires)) {
        OneRowStamps(s, t, s.tasks[t].(heartbeat := Some(now), expires := Some(expires)));
      }
    }
  }

  lemma ReopenedRow(row: Task, now: int)
    requires TaskStamped(row) && row.token == ""
    ensures var r := Released(row).(status := Queued, errorCode := "MANUAL_RETRY", availableAt := now, finishedAt := None);
      TaskStamped(r) && r.startedAt == row.startedAt
  {}

  lemma ResetStamps(s: State, t: string, now: int)
    requires Inv(s) && Stamped(s)
    ensures Recorded(s, Reset(s, t, now))
  {
    SelfRecorded(s);
    if Resets(s, t) {
      EndedHasNoToken(s, t);
      hide Inv;
      ReopenedRow(s.tasks[t], now);
      var row := Released(s.tasks[t]).(status := Queued, errorCode := "MANUAL_RETRY", availableAt := now, finishedAt := None);
      ReopenStamps(s.jobs, row.job, true);
      hide AttemptStamped, JobStamped, TaskStamped, Reopen, ReopenBlocked, Refresh, StartsKept;
      OneRowStamps(s, t, row);
      var queued := s.(tasks := s.tasks[t := row]);
      OneJobStamps(queued, Reopen(s.jobs, row.job, true));
      StartsKeptOn(s, queued, queued.(jobs := Reopen(s.jobs, row.job, true)));
      RefreshStamps(s, queued.(jobs := Reopen(s.jobs, row.job, true)), row.batch, now);
    }
  }

  lemma ClaimStamps(s: State, t: string, worker: string, token: string, now: int, expires: int)
    requires Stamped(s) && token != ""
    ensures Recorded(s, Claim(s, t, worker, token, now, expires))
  {
    SelfRecorded(s);
    if Claims(s, t, now) {
      var row := LeasedRow(s.tasks[t], worker, token, now, expires);
      assert TaskStamped(row);
      hide TaskStamped, JobStamped, Refresh;
      var r := s.(tasks := s.tasks[t := row],
                  attempts := s.attempts[AttemptKey(t, s.tasks[t].attemptCount + 1) := Attempt(Running, "", worker, now, None)]);
      assert Recorded(s, r);
      RefreshStamps(s, r, s.tasks[t].batch, now);
    }
  }

  lemma AddTaskStamps(s: State, id: string, row: Task, now: int)
    requires Stamped(s) && row.attemptCount == 0 && (row.status == Queued || row.status == Skipped)
    ensures Recorded(s, AddTask(s, id, row, now))
  {
    SelfRecorded(s);
    if AddsTask(s, id, row) {
      assert TaskStamped(FreshTask(row));
      hide TaskStamped, JobStamped, AttemptStamped, Refresh, FreshTask;
      var r := s.(tasks := s.tasks[id := FreshTask(row)]);
      assert Recorded(s, r);
      RefreshStamps(s, r, row.batch, now);
    }
  }

  lemma RequeueOneStamps(s: State, t: string, now: int)
    requires Stamped(s) && t in s.tasks && InLease(s.tasks[t].status)
    ensures Recorded(s, RequeueOne(s, t, now))
  {
    ReopenStamps(s.jobs, s.tasks[t].job, false);
    FreedStamps(s.tasks[t], Queued);
    var row := Released(s.tasks[t]).(status := Queued, errorCode := "WORKER_INTERRUPTED", availableAt := now);
    assert row.startedAt == s.tasks[t].startedAt;
    hide TaskStamped, JobStamped, AttemptStamped, Unstart, Settle, Released;
    var stopped := s.(jobs := Unstart(s.jobs, s.tasks[t].job));
    SettleStamps(stopped, t, row, Interrupted, Some("WORKER_INTERRUPTED"), now);
    JobsStamps(s, stopped.jobs, Settle(stopped, t, row, Interrupted, Some("WORKER_INTERRUPTED"), now));
  }

  lemma StartsKeptOn(a: State, b: State, c: State)
    requires Recorded(a, b) && Recorded(b, c)
    ensures Recorded(a, c)
  {
    hide Stamped;
  }

  lemma {:induction false} RequeueAllStamps(s: State, items: seq<string>, now: int)
    requires Stamped(s) && (forall t :: t in items ==> t in s.tasks && InLease(s.tasks[t].status))
    requires forall i, j | 0 <= i < j < |items| :: items[i] != items[j]
    ensures Recorded(s, RequeueAll(s, items, now))
  {
    hide Stamped, StartsKept, RequeueOne, Recorded, InLease;
    if items == [] {
      SelfRecorded(s);
    } else {
      var init, last := items[..|items| - 1], items[|items| - 1];
      assert items == init + [last] && last !in init;
      RequeueAllStamps(s, init, now);
      RequeueAllRows(s, init, now);
      var mid := RequeueAll(s, init, now);
      RecordedIs(s, mid);
      RequeueOneStamps(mid, last, now);
      StartsKeptOn(s, mid, RequeueOne(mid, last, now));
    }
  }

  lemma RecordedIs(a: State, b: State)
    requires Recorded(a, b)
    ensures Stamped(b)
  {
    hide Stamped, StartsKept;
  }

  lemma EndQueuedStamps(s: State, plan: string, status: Status, code: string, now: int)
    requires Stamped(s) && (status == Cancelled || status == Skipped)
    ensures Recorded(s, EndQueued(s, plan, status, code, now))
  {
    var r := EndQueued(s, plan, status, code, now);
    EndedTasks(s, plan, status, code, now);
    forall j | j in s.jobs ensures JobStamped(r.jobs[j]) { assert JobStamped(s.jobs[j]); }
    assert r.batches == s.batches && r.attempts == s.attempts && r.jobs.Keys == s.jobs.Keys;
    hide TaskStamped, AttemptStamped, JobStamped, EndQueued;
  }

  lemma EndedTasks(s: State, plan: string, status: Status, code: string, now: int)
    requires Stamped(s) && (status == Cancelled || status == Skipped)
    ensures var r := EndQueued(s, plan, status, code, now);
      r.tasks.Keys == s.tasks.Keys
      && forall t | t in s.tasks :: TaskStamped(r.tasks[t]) && r.tasks[t].startedAt == s.tasks[t].startedAt
  {
    hide AttemptStamped, JobStamped;
    forall t | t in s.tasks ensures TaskStamped(EndQueued(s, plan, status, code, now).tasks[t]) { assert TaskStamped(s.tasks[t]); }
  }

  lemma PlansStamps(s: State, plans: map<string, Plan>, r: State)
    requires Recorded(s.(plans := plans), r)
    ensures Recorded(s, r)
  {
    hide Stamped;
  }

  lemma EndingStamps(s: State, p: string, row: Plan, cancelQueued: bool, now: int)
    requires Stamped(s)
    ensures Recorded(s, PausePlan(s, p, now)) && Recorded(s, UpdatePlan(s, p, row, cancelQueued, now))
  {
    hide StartsKept, EndQueued, ValidTargets, Stamped, Recorded;
    SelfRecorded(s);
    var paused := if p in s.plans
                  then s.(plans := s.plans[p := s.plans[p].(enabled := false, nextRunAt := None, paused := true)])
                  else s;
    PlansAside(s, paused.plans);
    EndQueuedStamps(paused, p, Skipped, "PLAN_PAUSED_SCOPE_INVALID", now);
    PlansStamps(s, paused.plans, EndQueued(paused, p, Skipped, "PLAN_PAUSED_SCOPE_INVALID", now));
    if Edits(s, p, row) {
      var edited := s.(plans := s.plans[p := row.(lastScheduledAt := s.plans[p].lastScheduledAt, paused := false)]);
      PlansAside(s, edited.plans);
      SelfRecorded(edited);
      PlansStamps(s, edited.plans, edited);
      EndQueuedStamps(edited, p, Cancelled, "SCOPE_REVISION_SUPERSEDED", now);
      PlansStamps(s, edited.plans, EndQueued(edited, p, Cancelled, "SCOPE_REVISION_SUPERSEDED", now));
    }
  }

  lemma PlansAside(s: State, plans: map<string, Plan>)
    requires Stamped(s)
    ensures Stamped(s.(plans := plans))
  {
    hide TaskStamped, AttemptStamped, JobStamped;
  }

  lemma CancelStamps(s: State, t: string, now: int)
    requires Stamped(s)
    ensures Recorded(s, CancelTaskRow(s, t, now))
  {
    SelfRecorded(s);
    if t in s.tasks && s.tasks[t].status == Queued {
      var row := s.tasks[t].(status := Cancelled, finishedAt := Some(now), errorCode := "TASK_CANCELLED");
      hide AttemptStamped, JobStamped, StartsKept;
      OneRowStamps(s, t, row);
    }
  }

  lemma JobRowStamps(s: State, j: string, row: Job)
    requires Stamped(s) && JobStamped(row)
    ensures Recorded(s, s.(jobs := s.jobs[j := row]))
  {
    hide TaskStamped, AttemptStamped, JobStamped;
  }

  lemma JobStepStamps(s: State, j: string, code: string, now: int)
    requires Stamped(s)
    ensures Recorded(s, StartJob(s, j, now)) && Recorded(s, FailJob(s, j, code, now)) && Recorded(s, CancelJobRow(s, j, now))
  {
    SelfRecorded(s);
    if j in s.jobs {
      var row := s.jobs[j];
      assert JobStamped(row);
      hide Stamped, Recorded;
      if row.status == Queued {
        JobRowStamps(s, j, row.(status := Running, startedAt := Some(now)));
        JobRowStamps(s, j, row.(status := Failed, errorCode := "BACKUP_CANCELLED", finishedAt := Some(now)));
      }
      JobRowStamps(s, j, row.(status := Failed, errorCode := code, finishedAt := Some(now)));
    }
  }

  lemma CommitStamps(s: State, id: string, row: Snapshot)
    requires Stamped(s)
    ensures Recorded(s, CommitSnapshot(s, id, row))
  {
    SelfRecorded(s);
    hide TaskStamped, AttemptStamped;
  }

  lemma CreateStamps(s: State, id: string, job: Job, batch: Batch)
    requires Stamped(s)
    ensures Recorded(s, CreateJob(s, id, job)) && Recorded(s, CreateBatch(s, id, batch))
  {
    SelfRecorded(s);
    var row := job.(status := Queued, errorCode := "", snapshot := "", startedAt := None, finishedAt := None);
    assert JobStamped(row);
    BatchStamps(s, id, batch);
    hide Stamped, StartsKept, Recorded, CreateBatch, Busy;
    JobRowStamps(s, id, row);
  }

  lemma BatchStamps(s: State, id: string, batch: Batch)
    requires Stamped(s)
    ensures Recorded(s, CreateBatch(s, id, batch))
  {
    SelfRecorded(s);
    hide TaskStamped, AttemptStamped, JobStamped, Scheduled;
  }

  // ---------------------------------------------------------------- one step

  lemma TableStamps(s: State, e: Event)
    requires Stamped(s)
    ensures Recorded(s, TableStep(s, e))
  {
    SelfRecorded(s);
    if e.CreateBatchEvent? { CreateStamps(s, e.id, NOJOB, e.batch); }
    if e.CreateJobEvent? { CreateStamps(s, e.id, e.job, NewBatch("", "", Queued, 0, 0, None)); }
    if e.FailJobEvent? { JobStepStamps(s, e.id, e.code, e.now); }
    if e.CancelJobEvent? { JobStepStamps(s, e.id, "", e.now); }
    hide CreateBatch, CreateJob, FailJob, CancelJobRow, TaskStamped, AttemptStamped, JobStamped;
  }

  const NOJOB := Job("", "", "", "", Queued, "", "", 0, None, None)

  lemma VerdictStamps(w: World, l: Lease, code: string, now: int)
    requires Inv(w.db) && Stamped(w.db) && l.token != ""
    ensures Recorded(w.db, VerdictStep(w, l, code, now).db)
  {
    SelfRecorded(w.db);
    GuardedStamps(w.db, l.task, l.token);
    hide Retry, FinishFailure, Retries, Retryable, Factor, Base, Recorded, Inv, Stamped;
  }

  lemma QuietStamps(w: World, e: Event)
    requires Stamped(w.db) && Quiet(e)
    ensures Recorded(w.db, WorkerStep(w, e).db)
  {
    SelfRecorded(w.db);
    var pc := Pc(w, e.name);
    if !pc.Idle? {
      JobStepStamps(w.db, pc.lease.row.job, if pc.Failing? then pc.code else "", if e.StartEvent? || e.FailOwnJobEvent? then e.now else 0);
      if e.CommitEvent? { CommitStamps(w.db, SnapshotId(pc.lease.row.job), e.snapshot); }
    }
    hide Stamped, StartsKept, Recorded, StartJob, FailJob, CommitSnapshot, Commits, StartsJob, SnapshotId;
  }

  lemma LeaseEventStamps(w: World, e: Event)
    requires Inv(w.db) && Stamped(w.db) && (e.SetStatusEvent? || e.HeartbeatEvent? || e.CompleteEvent?)
    requires !Pc(w, e.name).Idle? ==> Pc(w, e.name).lease.token != ""
    ensures Recorded(w.db, WorkerStep(w, e).db)
  {
    SelfRecorded(w.db);
    var pc := Pc(w, e.name);
    hide Inv, Stamped, Recorded, Complete, SetStatus, Heartbeat;
    if !pc.Idle? {
      GuardedStamps(w.db, pc.lease.task, pc.lease.token);
      LeaseStamps(w.db, pc.lease.task, pc.lease.token);
    }
  }

  lemma FinishStamps(w: World, l: Lease, now: int)
    requires Inv(w.db) && Stamped(w.db) && l.token != ""
    ensures Recorded(w.db, FinishStep(w, l, Cancelled, "BACKUP_CANCELLED", now).db)
  {
    hide Inv, Stamped, Recorded, FinishFailure, Complete, Retry, EndAttempts, Refresh;
    GuardedStamps(w.db, l.task, l.token);
    assert Recorded(w.db, FinishFailure(w.db, l.task, l.token, Cancelled, "BACKUP_CANCELLED", now));
  }

  lemma LoudStamps(w: World, e: Event)
    requires Good(w) && Stamped(w.db) && HolderEvent(e) && !Quiet(e)
    ensures Recorded(w.db, WorkerStep(w, e).db)
  {
    SelfRecorded(w.db);
    var pc := Pc(w, e.name);
    PcOk(w, e.name);
    if !pc.Idle? { TokenOf(w, pc); }
    hide Inv, WorkersOk, TokensUsed, HistoriesOk, WorkerOk, LeaseKnown, Stamped, Recorded;
    if e.VerdictEvent? {
      VerdictForm(w, e);
      hide WorkerStep, VerdictStep, FinishStep;
      if pc.Faulted? || pc.Deciding? {
        FinishStamps(w, pc.lease, e.now);
        VerdictStamps(w, pc.lease, pc.code, e.now);
      }
    } else if e.PauseOwnPlanEvent? {
      PauseStamps(w, e);
    } else {
      LeaseEventStamps(w, e);
    }
  }

  lemma PauseStamps(w: World, e: Event)
    requires Stamped(w.db) && e.PauseOwnPlanEvent?
    ensures Recorded(w.db, WorkerStep(w, e).db)
  {
    SelfRecorded(w.db);
    var pc := Pc(w, e.name);
    if !pc.Idle? { EndingStamps(w.db, pc.lease.row.plan, NOPLAN, false, e.now); }
    hide Stamped, Recorded, PausePlan, UpdatePlan, PausesPlan, DropQueued;
  }

  lemma StepStamps(w: World, e: Event)
    requires Good(w) && Stamped(w.db)
    ensures Recorded(w.db, Step(w, e).db)
  {
    SelfRecorded(w.db);
    hide Stamped, Recorded, AddTask, AddsTask, CancelTaskRow, RequeueAll, Expired, Reset, Resets, UpdatePlan, PausePlan, Claim, First,
      WorkerStep, TableStep, DropQueued;
    if HolderEvent(e) {
      if Quiet(e) { QuietStamps(w, e); } else { LoudStamps(w, e); }
    } else if e.RequeueEvent? {
      RequeueStamps(w, e);
    } else {
      OtherStamps(w, e);
    }
  }

  lemma RequeueStamps(w: World, e: Event)
    requires Good(w) && Stamped(w.db) && e.RequeueEvent?
    ensures Recorded(w.db, Step(w, e).db)
  {
    SelfRecorded(w.db);
    if (forall i, j | 0 <= i < j < |e.items| :: e.items[i] != e.items[j]) && forall t | t in e.items :: t in Expired(w.db.tasks, e.now) {
      forall t | t in e.items ensures t in w.db.tasks && InLease(w.db.tasks[t].status) {
        assert t in Expired(w.db.tasks, e.now);
        ExpiredIsLeased(w.db, t, e.now);
        HolderIsLeased(w.db, t, w.db.tasks[t].token);
      }
      RequeueAllStamps(w.db, e.items, e.now);
    }
    hide Good, Stamped, Recorded, RequeueAll, Expired;
  }

  lemma OtherStamps(w: World, e: Event)
    requires Good(w) && Stamped(w.db) && !HolderEvent(e) && !e.RequeueEvent?
    ensures Recorded(w.db, Step(w, e).db)
  {
    SelfRecorded(w.db);
    TableStamps(w.db, e);
    if e.AddTaskEvent? && e.task.attemptCount == 0 && (e.task.status == Queued || e.task.status == Skipped) { AddTaskStamps(w.db, e.id, e.task, e.now); }
    if e.CancelTaskEvent? { CancelStamps(w.db, e.id, e.now); }
    if e.ResetEvent? { ResetStamps(w.db, e.id, e.now); }
    if e.EditPlanEvent? { EndingStamps(w.db, e.id, e.plan, e.cancelQueued, e.now); }
    if e.PausePlanEvent? { EndingStamps(w.db, e.id, NOPLAN, false, e.now); }
    if e.ClaimEvent? && e.token != "" { ClaimStamps(w.db, e.id, e.name, e.token, e.now, e.expires); }
    hide Good, Stamped, Recorded, AddTask, AddsTask, CancelTaskRow, Reset, Resets, UpdatePlan, PausePlan, Claim, First, TableStep, DropQueued;
  }

  // ---------------------------------------------------------------- whole runs

  lemma StartIsStamped()
    ensures Stamped(START.db)
  {}

  /** In every reachable state stamps, codes and names match the statuses. */
  lemma {:induction false} ReachableIsStamped(events: seq<Event>)
    ensures Stamped(Run(START, events).db)
  {
    if events == [] {
      StartIsStamped();
    } else {
      var init := events[..|events| - 1];
      ReachableIsStamped(init);
      ReachableIsGood(init);
      hide Good, Step, Stamped;
      StepStamps(Run(START, init), events[|events| - 1]);
      RecordedIs(Run(START, init).db, Run(START, events).db);
    }
  }

  /** When a task or a batch has once started, no later step changes the time. */
  lemma FirstStartsStay(before: seq<Event>, after: seq<Event>)
    ensures StartsKept(Run(START, before).db, Run(Run(START, before), after).db)
  {
    ReachableIsStamped(before);
    ReachableIsGood(before);
    StartsStay(Run(START, before), after);
    hide Run, Good, Stamped, StartsKept;
  }

  lemma {:induction false} StartsStay(w: World, events: seq<Event>)
    requires Good(w) && Stamped(w.db)
    ensures Recorded(w.db, Run(w, events).db)
  {
    hide Good, Step, Stamped, Recorded;
    if events == [] {
      SelfRecorded(w.db);
    } else {
      var init := events[..|events| - 1];
      StartsStay(w, init);
      RunKeeps(w, init);
      RecordedIs(w.db, Run(w, init).db);
      StepStamps(Run(w, init), events[|events| - 1]);
      StartsKeptOn(w.db, Run(w, init).db, Run(w, events).db);
    }
  }
}
