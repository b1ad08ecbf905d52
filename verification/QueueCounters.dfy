/** Which steps make a batch row disagree with its tasks, those that end a queued task without a recount, and which make it agree again. */
module QueueCounters {
  import opened Tables
  import opened QueueSpec
  import opened QueueInvariants
  import opened QueueRuns
  import opened QueueTheorems
  import opened QueueSafety
  import opened QueueOrphans
  import opened QueueDelivery
  import opened Sets

  /** All five counters and the total of batch b equal a recount. */
  ghost predicate ExactAt(s: State, b: string)
  {
    b in s.batches ==> Exact(s.tasks, b, s.batches[b])
  }

  ghost predicate AllExact(s: State)
  {
    forall b :: ExactAt(s, b)
  }

  // ---------------------------------------------------------------- the steps that end a queued task, and the steps that recount

  /** A task of the plan waits in the batch. */
  predicate QueuedIn(tasks: map<string, Task>, plan: string, b: string)
  {
    exists t | t in tasks :: QueuedFor(tasks[t], plan) && tasks[t].batch == b
  }

  /** The worker goes on to pause the plan of its task. */
  predicate PausesOwn(w: World, e: Event)
  {
    e.PauseOwnPlanEvent? && e.ok && Pc(w, e.name).Faulted? && !Pc(w, e.name).cancelled
    && PausesPlan(Pc(w, e.name).lease.row, Pc(w, e.name).code)
  }

  /** The step ends a queued task of batch b without recounting it: a cancellation, an accepted edit that supersedes, or
      a pause, of a plan with a queued task there. */
  predicate EndsQueued(w: World, e: Event, b: string)
  {
    (e.CancelTaskEvent? && e.id in w.db.tasks && w.db.tasks[e.id].status == Queued && w.db.tasks[e.id].batch == b)
    || (e.EditPlanEvent? && e.cancelQueued && Edits(w.db, e.id, e.plan) && QueuedIn(w.db.tasks, e.id, b))
    || (e.PausePlanEvent? && QueuedIn(w.db.tasks, e.id, b))
    || (PausesOwn(w, e) && QueuedIn(w.db.tasks, Pc(w, e.name).lease.row.plan, b))
  }

  /** The lease is current and its task is in batch b. */
  predicate HoldsIn(s: State, l: Lease, b: string)
  {
    Holds(s, l.task, l.token) && s.tasks[l.task].batch == b
  }

  predicate Decides(s: State, l: Lease, code: string, b: string)
  {
    HoldsIn(s, l, b) && (Retryable(code) && 1 <= l.row.attemptCount <= l.row.maxRetries ==> Retries(s, l.task, l.token))
  }

  /** The step takes effect on a task of batch b and recounts it: insertion, claim, recovery, reset, verdict, completion. */
  predicate Recounts(w: World, e: Event, b: string)
  {
    match e
    case AddTaskEvent(id, task, _) =>
      (task.status == Queued || task.status == Skipped) && task.attemptCount == 0 && AddsTask(w.db, id, task) && task.batch == b
    case ClaimEvent(name, id, token, now, _) =>
      Pc(w, name).Idle? && First(w.db.tasks, id, now) && Claims(w.db, id, now) && token != "" && token !in w.used && w.db.tasks[id].batch == b
    case RequeueEvent(items, _) => Recovers(w, e) && exists t | t in items :: t in w.db.tasks && w.db.tasks[t].batch == b
    case ResetEvent(id, _) => Resets(w.db, id) && w.db.tasks[id].batch == b
    case VerdictEvent(name, _, ok) =>
      ok && (match Pc(w, name)
             case Faulted(l, code, cancelled) => if cancelled then HoldsIn(w.db, l, b) else !PausesPlan(l.row, code) && Decides(w.db, l, code, b)
             case Deciding(l, code) => Decides(w.db, l, code, b)
             case _ => false)
    case CompleteEvent(name, _, ok) => ok && Pc(w, name).Completing? && HoldsIn(w.db, Pc(w, name).lease, b)
    case _ => false
  }

  // ---------------------------------------------------------------- one transaction

  ghost predicate Homed(tasks: map<string, Task>, batches: map<string, Batch>)
  {
    forall t | t in tasks :: tasks[t].batch in batches
  }

  lemma ExactByClasses(a: map<string, Task>, b: map<string, Task>, id: string, row: Batch)
    requires forall t :: t in a && a[t].batch == id <==> t in b && b[t].batch == id
    requires forall t | t in a && a[t].batch == id :: ClassOf(a[t].status) == ClassOf(b[t].status)
    ensures Exact(a, id, row) <==> Exact(b, id, row)
  {
    hide ClassOf;
    SameClasses(a, b, id);
    hide Members, InClass;
  }

  /** One row in another status, and its batch recounted. */
  lemma RecountedAt(s: State, t: string, row: Task, r: State, now: int, b: string)
    requires row.batch in s.batches && (t in s.tasks ==> s.tasks[t].batch == row.batch)
    requires r.tasks == s.tasks[t := row] && r.batches == s.batches
    ensures ExactAt(Refresh(r, row.batch, now), b) <==> row.batch == b || ExactAt(s, b)
  {
    hide Exact, Recounted, ClassOf;
    if row.batch == b {
      RecountIsExact(r.tasks, b, s.batches[b], now);
    } else if b in s.batches {
      ExactByClasses(s.tasks, r.tasks, b, s.batches[b]);
    }
  }

  /** One row in another status of the same class, and no recount. */
  lemma SameClassAt(s: State, t: string, row: Task, b: string)
    requires t in s.tasks && row.batch == s.tasks[t].batch && ClassOf(row.status) == ClassOf(s.tasks[t].status)
    ensures ExactAt(s.(tasks := s.tasks[t := row]), b) <==> ExactAt(s, b)
  {
    hide Exact, ClassOf;
    if b in s.batches { ExactByClasses(s.tasks, s.tasks[t := row], b, s.batches[b]); }
  }

  lemma SettleAt(s: State, t: string, row: Task, ended: Status, code: Option<string>, now: int, b: string)
    requires Homed(s.tasks, s.batches) && t in s.tasks && row.batch == s.tasks[t].batch
    ensures ExactAt(Settle(s, t, row, ended, code, now), b) <==> row.batch == b || ExactAt(s, b)
  {
    hide ExactAt, EndAttempts, Refresh;
    RecountedAt(s, t, row, s.(tasks := s.tasks[t := row], attempts := EndAttempts(s.attempts, t, ended, code, now)), now, b);
  }

  lemma GuardedAt(s: State, u: string, token: string, b: string)
    requires Homed(s.tasks, s.batches)
    ensures forall snapshot, now {:trigger Complete(s, u, token, snapshot, now)} ::
      ExactAt(Complete(s, u, token, snapshot, now), b) <==> (Holds(s, u, token) && s.tasks[u].batch == b) || ExactAt(s, b)
    ensures forall status, code, now {:trigger FinishFailure(s, u, token, status, code, now)} ::
      ExactAt(FinishFailure(s, u, token, status, code, now), b) <==> (Holds(s, u, token) && s.tasks[u].batch == b) || ExactAt(s, b)
    ensures ExactAt(SetStatus(s, u, token, Prechecking), b) <==> ExactAt(s, b)
    ensures forall now, expires {:trigger Heartbeat(s, u, token, now, expires)} ::
      ExactAt(Heartbeat(s, u, token, now, expires), b) <==> ExactAt(s, b)
  {
    hide ExactAt, Settle, Homed;
    if Holds(s, u, token) {
      forall snapshot, now ensures ExactAt(Complete(s, u, token, snapshot, now), b) <==> s.tasks[u].batch == b || ExactAt(s, b) {
        SettleAt(s, u, Released(s.tasks[u]).(status := Succeeded, snapshot := snapshot, finishedAt := Some(now)), Succeeded, None, now, b);
      }
      forall status, code, now
        ensures ExactAt(FinishFailure(s, u, token, status, code, now), b) <==> s.tasks[u].batch == b || ExactAt(s, b)
      {
        SettleAt(s, u, Released(s.tasks[u]).(status := status, errorCode := code, finishedAt := Some(now)), status, Some(code), now, b);
      }
      if InLease(s.tasks[u].status) { SameClassAt(s, u, s.tasks[u].(status := Prechecking), b); }
      forall now, expires ensures ExactAt(Heartbeat(s, u, token, now, expires), b) <==> ExactAt(s, b) {
        SameClassAt(s, u, s.tasks[u].(heartbeat := Some(now), expires := Some(expires)), b);
      }
    }
  }

  lemma JobsBeside(s: State, jobs: map<string, Job>, b: string)
    ensures ExactAt(s.(jobs := jobs), b) <==> ExactAt(s, b)
  {}

  lemma RetryAt(s: State, t: string, token: string, code: string, at: int, now: int, b: string)
    requires Homed(s.tasks, s.batches)
    ensures ExactAt(Retry(s, t, token, code, at, now), b) <==> (Retries(s, t, token) && s.tasks[t].batch == b) || ExactAt(s, b)
  {
    hide ExactAt, Settle, Homed, Reopen, ReopenBlocked;
    if Retries(s, t, token) {
      JobsBeside(s, Reopen(s.jobs, s.tasks[t].job, false), b);
      SettleAt(s.(jobs := Reopen(s.jobs, s.tasks[t].job, false)), t,
        Released(s.tasks[t]).(status := Queued, errorCode := code, availableAt := at), Failed, Some(code), now, b);
    }
  }

  lemma ResetAt(s: State, t: string, now: int, b: string)
    requires Homed(s.tasks, s.batches)
    ensures ExactAt(Reset(s, t, now), b) <==> (Resets(s, t) && s.tasks[t].batch == b) || ExactAt(s, b)
  {
    hide ExactAt, Refresh, Reopen, ReopenBlocked;
    if Resets(s, t) {
      var row := Released(s.tasks[t]).(status := Queued, errorCode := "MANUAL_RETRY", availableAt := now, finishedAt := None);
      RecountedAt(s, t, row, s.(tasks := s.tasks[t := row], jobs := Reopen(s.jobs, row.job, true)), now, b);
    }
  }

  lemma ClaimAt(s: State, t: string, worker: string, token: string, now: int, expires: int, b: string)
    requires Homed(s.tasks, s.batches)
    ensures ExactAt(Claim(s, t, worker, token, now, expires), b) <==> (Claims(s, t, now) && s.tasks[t].batch == b) || ExactAt(s, b)
  {
    hide ExactAt, Refresh;
    if Claims(s, t, now) {
      var row := LeasedRow(s.tasks[t], worker, token, now, expires);
      var attempt := Attempt(Running, "", worker, now, None);
      RecountedAt(s, t, row, s.(tasks := s.tasks[t := row], attempts := s.attempts[AttemptKey(t, s.tasks[t].attemptCount + 1) := attempt]), now, b);
    }
  }

  lemma AddTaskAt(s: State, id: string, row: Task, now: int, b: string)
    ensures ExactAt(AddTask(s, id, row, now), b) <==> (AddsTask(s, id, row) && row.batch == b) || ExactAt(s, b)
  {
    hide ExactAt, Refresh;
    if AddsTask(s, id, row) { RecountedAt(s, id, FreshTask(row), s.(tasks := s.tasks[id := FreshTask(row)]), now, b); }
  }

  lemma SettleHomes(s: State, t: string, row: Task, ended: Status, code: Option<string>, now: int)
    requires t in s.tasks && Homed(s.tasks, s.batches) && row.batch == s.tasks[t].batch
    ensures Homed(Settle(s, t, row, ended, code, now).tasks, Settle(s, t, row, ended, code, now).batches)
  {
    hide Recounted, EndAttempts;
  }

  lemma {:induction false} RequeueAllAt(s: State, items: seq<string>, now: int, b: string)
    requires Homed(s.tasks, s.batches) && forall t :: t in items ==> t in s.tasks
    ensures Homed(RequeueAll(s, items, now).tasks, RequeueAll(s, items, now).batches)
    ensures ExactAt(RequeueAll(s, items, now), b) <==> (exists t | t in items :: s.tasks[t].batch == b) || ExactAt(s, b)
  {
    if items != [] {
      var init, last := items[..|items| - 1], items[|items| - 1];
      assert items == init + [last];
      RequeueAllAt(s, init, now, b);
      RequeueAllRows(s, init, now);
      hide ExactAt, Settle, Unstart, Homed;
      var mid := RequeueAll(s, init, now);
      var stopped := mid.(jobs := Unstart(mid.jobs, mid.tasks[last].job));
      var row := Released(mid.tasks[last]).(status := Queued, errorCode := "WORKER_INTERRUPTED", availableAt := now);
      JobsBeside(mid, stopped.jobs, b);
      SettleAt(stopped, last, row, Interrupted, Some("WORKER_INTERRUPTED"), now, b);
      SettleHomes(stopped, last, row, Interrupted, Some("WORKER_INTERRUPTED"), now);
      assert mid.tasks[last].batch == s.tasks[last].batch;
    }
  }

  lemma EmptyIsExact(tasks: map<string, Task>, b: string, row: Batch)
    requires Members(tasks, b) == {} && forall class_ :: InClass(tasks, b, class_) == {}
    requires row == NewBatch(row.plan, row.trigger, row.status, row.scheduledAt, row.createdAt, row.finishedAt)
    ensures Exact(tasks, b, row)
  {
    hide Members, InClass;
  }

  lemma CreateBatchAt(s: State, id: string, row: Batch, b: string)
    requires Homed(s.tasks, s.batches)
    requires row == NewBatch(row.plan, row.trigger, row.status, row.scheduledAt, row.createdAt, row.finishedAt)
    ensures ExactAt(CreateBatch(s, id, row), b) <==> ExactAt(s, b)
  {
    hide Exact, Scheduled;
    if CreatesBatch(s, id, row) {
      assert Members(s.tasks, id) == {};
      forall class_ ensures InClass(s.tasks, id, class_) == {} {}
      EmptyIsExact(s.tasks, id, row);
    }
  }

  lemma TableAt(s: State, e: Event, b: string)
    requires Homed(s.tasks, s.batches)
    ensures ExactAt(TableStep(s, e), b) <==> ExactAt(s, b)
  {
    if e.CreateBatchEvent? {
      hide ExactAt, CreateBatch, Homed;
      var r := e.batch;
      if r == NewBatch(r.plan, r.trigger, r.status, r.scheduledAt, r.createdAt, r.finishedAt) { CreateBatchAt(s, e.id, r, b); }
    } else {
      hide Exact, CreatesJob, Homed;
    }
  }

  // ---------------------------------------------------------------- ending queued tasks

  /** With the counters of the invariant, a row is exact when it counts the queued tasks. */
  lemma ExactWhenQueuedIs(tasks: map<string, Task>, b: string, row: Batch)
    requires CountersOk(tasks, b, row)
    ensures |InClass(tasks, b, InQueue)| <= row.queued
    ensures Exact(tasks, b, row) <==> row.queued == |InClass(tasks, b, InQueue)|
  {
    Partition(tasks, b);
    hide Members, InClass;
  }

  /** A queued task less and the same row: the row is off, whatever it was before. */
  lemma LosesQueued(s: State, tasks: map<string, Task>, b: string, t: string)
    requires BatchInv(s.tasks, s.batches) && b in s.batches
    requires t in InClass(s.tasks, b, InQueue) && t !in InClass(tasks, b, InQueue)
    requires InClass(tasks, b, InQueue) <= InClass(s.tasks, b, InQueue)
    ensures !Exact(tasks, b, s.batches[b])
  {
    assert CountersOk(s.tasks, b, s.batches[b]);
    hide InClass, Members, CountersOk, BatchInv;
    ExactWhenQueuedIs(s.tasks, b, s.batches[b]);
    SubsetSize(InClass(tasks, b, InQueue), InClass(s.tasks, b, InQueue) - {t});
  }

  lemma EndedLeave(s: State, plan: string, status: Status, code: string, now: int, b: string)
    requires status == Cancelled || status == Skipped
    ensures InClass(EndQueued(s, plan, status, code, now).tasks, b, InQueue) <= InClass(s.tasks, b, InQueue)
    ensures forall t | t in s.tasks && QueuedFor(s.tasks[t], plan) :: t !in InClass(EndQueued(s, plan, status, code, now).tasks, b, InQueue)
  {
  }

  lemma OthersUnended(s: State, plan: string, status: Status, code: string, now: int, b: string)
    ensures var r := EndQueued(s, plan, status, code, now);
      r.tasks.Keys == s.tasks.Keys && r.batches == s.batches && (forall t | t in s.tasks :: r.tasks[t].batch == s.tasks[t].batch)
      && (!QueuedIn(s.tasks, plan, b) ==> forall t | t in s.tasks && s.tasks[t].batch == b :: r.tasks[t] == s.tasks[t])
  {}

  lemma NoneEnded(s: State, plan: string, status: Status, code: string, now: int, b: string)
    requires !QueuedIn(s.tasks, plan, b)
    ensures ExactAt(EndQueued(s, plan, status, code, now), b) <==> ExactAt(s, b)
  {
    var after := EndQueued(s, plan, status, code, now);
    OthersUnended(s, plan, status, code, now, b);
    hide Exact, EndQueued, QueuedIn, ClassOf;
    if b in s.batches { ExactByClasses(s.tasks, after.tasks, b, s.batches[b]); }
  }

  /** The bulk update leaves a batch exact exactly when it was and the plan has no queued task in it. */
  lemma EndQueuedAt(s: State, plan: string, status: Status, code: string, now: int, b: string)
    requires BatchInv(s.tasks, s.batches) && (status == Cancelled || status == Skipped)
    ensures ExactAt(EndQueued(s, plan, status, code, now), b) <==> ExactAt(s, b) && !QueuedIn(s.tasks, plan, b)
  {
    var after := EndQueued(s, plan, status, code, now);
    if QueuedIn(s.tasks, plan, b) {
      var t :| t in s.tasks && QueuedFor(s.tasks[t], plan) && s.tasks[t].batch == b;
      EndedLeave(s, plan, status, code, now, b);
      assert after.batches == s.batches;
      hide EndQueued, Exact, CountersOk;
      LosesQueued(s, after.tasks, b, t);
    } else {
      hide *;
      NoneEnded(s, plan, status, code, now, b);
    }
  }

  lemma PlansBeside(s: State, plans: map<string, Plan>, b: string)
    ensures ExactAt(s.(plans := plans), b) <==> ExactAt(s, b)
  {}

  lemma PausePlanAt(s: State, p: string, now: int, b: string)
    requires BatchInv(s.tasks, s.batches)
    ensures ExactAt(PausePlan(s, p, now), b) <==> ExactAt(s, b) && !QueuedIn(s.tasks, p, b)
  {
    hide ExactAt, BatchInv, QueuedIn, EndQueued;
    var paused := if p in s.plans
                  then s.(plans := s.plans[p := s.plans[p].(enabled := false, nextRunAt := None, paused := true)])
                  else s;
    PlansBeside(s, paused.plans, b);
    EndQueuedAt(paused, p, Skipped, "PLAN_PAUSED_SCOPE_INVALID", now, b);
  }

  lemma EditPlanAt(s: State, p: string, row: Plan, cancelQueued: bool, now: int, b: string)
    requires BatchInv(s.tasks, s.batches)
    ensures ExactAt(UpdatePlan(s, p, row, cancelQueued, now), b)
      <==> ExactAt(s, b) && !(cancelQueued && Edits(s, p, row) && QueuedIn(s.tasks, p, b))
  {
    hide ExactAt, BatchInv, QueuedIn, EndQueued, ValidTargets;
    if Edits(s, p, row) {
      var edited := s.(plans := s.plans[p := row.(lastScheduledAt := s.plans[p].lastScheduledAt, paused := false)]);
      PlansBeside(s, edited.plans, b);
      EndQueuedAt(edited, p, Cancelled, "SCOPE_REVISION_SUPERSEDED", now, b);
    }
  }

  lemma CancelledLeaves(tasks: map<string, Task>, t: string, row: Task, b: string)
    requires t in tasks && tasks[t].status == Queued && row.status == Cancelled && row.batch == tasks[t].batch == b
    ensures t in InClass(tasks, b, InQueue) && t !in InClass(tasks[t := row], b, InQueue)
    ensures InClass(tasks[t := row], b, InQueue) <= InClass(tasks, b, InQueue)
  {}

  lemma CancelledAt(s: State, t: string, row: Task, b: string)
    requires BatchInv(s.tasks, s.batches) && t in s.tasks && s.tasks[t].status == Queued
    requires row.status == Cancelled && row.batch == s.tasks[t].batch
    ensures ExactAt(s.(tasks := s.tasks[t := row]), b) <==> ExactAt(s, b) && row.batch != b
  {
    hide Exact, CountersOk, ClassOf;
    if row.batch == b {
      CancelledLeaves(s.tasks, t, row, b);
      hide InClass;
      LosesQueued(s, s.tasks[t := row], b, t);
    } else if b in s.batches {
      hide BatchInv;
      ExactByClasses(s.tasks, s.tasks[t := row], b, s.batches[b]);
    }
  }

  lemma CancelAt(s: State, t: string, now: int, b: string)
    requires BatchInv(s.tasks, s.batches)
    ensures ExactAt(CancelTaskRow(s, t, now), b)
      <==> ExactAt(s, b) && !(t in s.tasks && s.tasks[t].status == Queued && s.tasks[t].batch == b)
  {
    hide ExactAt, BatchInv;
    if t in s.tasks && s.tasks[t].status == Queued {
      CancelledAt(s, t, s.tasks[t].(status := Cancelled, finishedAt := Some(now), errorCode := "TASK_CANCELLED"), b);
    }
  }

  // ---------------------------------------------------------------- one step

  /** What the step theorem says of a state after. */
  ghost predicate Counted(w: World, e: Event, r: State, b: string)
  {
    ExactAt(r, b) <==> Recounts(w, e, b) || (ExactAt(w.db, b) && !EndsQueued(w, e, b))
  }

  lemma VerdictAt(w: World, l: Lease, code: string, now: int, b: string)
    requires Homed(w.db.tasks, w.db.batches) && (l.task in w.db.tasks ==> l.task in w.history)
    ensures ExactAt(VerdictStep(w, l, code, now).db, b) <==> Decides(w.db, l, code, b) || ExactAt(w.db, b)
  {
    hide Retry, FinishFailure, Retries, Retryable, Factor, Base, ExactAt, Homed;
    RetriesHold(w.db, l.task, l.token);
    GuardedAt(w.db, l.task, l.token, b);
    if 1 <= l.row.attemptCount {
      RetryAt(w.db, l.task, l.token, code, now + Wait(l.row, l.row.attemptCount), now, b);
    }
  }

  lemma RetriesHold(s: State, t: string, token: string)
    ensures Retries(s, t, token) ==> Holds(s, t, token)
  {}

  /** The statement a verdict issues, if any, and the batch it recounts. */
  lemma VerdictCases(w: World, e: Event, b: string)
    requires e.VerdictEvent?
    ensures var pc := Pc(w, e.name); var r := WorkerStep(w, e).db;
      if e.ok && pc.Faulted? && pc.cancelled
      then r == FinishStep(w, pc.lease, Cancelled, "BACKUP_CANCELLED", e.now).db && (Recounts(w, e, b) <==> HoldsIn(w.db, pc.lease, b))
      else if e.ok && (pc.Deciding? || (pc.Faulted? && !PausesPlan(pc.lease.row, pc.code)))
      then r == VerdictStep(w, pc.lease, pc.code, e.now).db && (Recounts(w, e, b) <==> Decides(w.db, pc.lease, pc.code, b))
      else r == w.db && !Recounts(w, e, b)
  {
    hide FinishStep, VerdictStep, PausesPlan, Decides, HoldsIn;
  }

  lemma FinishAt(w: World, l: Lease, status: Status, code: string, now: int, b: string)
    requires Homed(w.db.tasks, w.db.batches)
    ensures ExactAt(FinishStep(w, l, status, code, now).db, b) <==> HoldsIn(w.db, l, b) || ExactAt(w.db, b)
  {
    hide ExactAt, Homed, FinishFailure;
    GuardedAt(w.db, l.task, l.token, b);
  }

  /** Worker steps other than a pause end no queued task. */
  lemma HolderEndsNone(w: World, e: Event, b: string)
    requires HolderEvent(e) && !e.PauseOwnPlanEvent?
    ensures !EndsQueued(w, e, b)
  {
    hide QueuedIn, Edits;
  }

  lemma VerdictCounts(w: World, e: Event, b: string)
    requires Homed(w.db.tasks, w.db.batches) && w.db.tasks.Keys == w.history.Keys && e.VerdictEvent?
    ensures Counted(w, e, WorkerStep(w, e).db, b)
  {
    var pc := Pc(w, e.name);
    HolderEndsNone(w, e, b);
    VerdictCases(w, e, b);
    hide ExactAt, Homed, FinishStep, VerdictStep, PausesPlan, HoldsIn, Decides, EndsQueued, WorkerStep, Recounts, Pc;
    if pc.Faulted? { FinishAt(w, pc.lease, Cancelled, "BACKUP_CANCELLED", e.now, b); }
    if pc.Faulted? || pc.Deciding? { VerdictAt(w, pc.lease, pc.code, e.now, b); }
  }

  lemma GuardedCounts(w: World, e: Event, b: string)
    requires Homed(w.db.tasks, w.db.batches) && (e.SetStatusEvent? || e.HeartbeatEvent? || e.CompleteEvent?)
    ensures Counted(w, e, WorkerStep(w, e).db, b)
  {
    hide ExactAt, Homed, Complete, SetStatus, Heartbeat, QueuedIn;
    var pc := Pc(w, e.name);
    if !pc.Idle? { GuardedAt(w.db, pc.lease.task, pc.lease.token, b); }
  }

  lemma PauseForm(w: World, e: Event)
    requires e.PauseOwnPlanEvent?
    ensures PausesOwn(w, e) ==> WorkerStep(w, e).db == PausePlan(w.db, Pc(w, e.name).lease.row.plan, e.now)
    ensures !PausesOwn(w, e) ==> WorkerStep(w, e).db == w.db
    ensures PausesOwn(w, e) ==> !Pc(w, e.name).Idle?
  {
    hide PausesPlan, PausePlan, DropQueued;
  }

  lemma PauseCounts(w: World, e: Event, b: string)
    requires BatchInv(w.db.tasks, w.db.batches) && e.PauseOwnPlanEvent?
    ensures Counted(w, e, WorkerStep(w, e).db, b)
  {
    var pc := Pc(w, e.name);
    if !pc.Idle? { PausePlanAt(w.db, pc.lease.row.plan, e.now, b); }
    PauseForm(w, e);
    hide ExactAt, BatchInv, QueuedIn, PausesOwn, PausePlan, WorkerStep;
  }

  lemma QuietCounts(w: World, e: Event, b: string)
    requires Quiet(e)
    ensures Counted(w, e, WorkerStep(w, e).db, b)
  {
    QuietHolder(w, e);
    hide WorkerStep, Exact, QueuedIn;
  }

  lemma HolderCounts(w: World, e: Event, b: string)
    requires BatchInv(w.db.tasks, w.db.batches) && w.db.tasks.Keys == w.history.Keys && HolderEvent(e)
    ensures Counted(w, e, WorkerStep(w, e).db, b)
  {
    BatchInvIsHomed(w.db);
    hide BatchInv, Homed, WorkerStep, Counted;
    if Quiet(e) { QuietCounts(w, e, b); }
    else if e.PauseOwnPlanEvent? { PauseCounts(w, e, b); }
    else if e.VerdictEvent? { VerdictCounts(w, e, b); }
    else { GuardedCounts(w, e, b); }
  }

  lemma BatchInvIsHomed(s: State)
    requires BatchInv(s.tasks, s.batches)
    ensures Homed(s.tasks, s.batches)
  {
    hide CountersOk;
  }

  lemma EndingCounts(w: World, e: Event, b: string)
    requires BatchInv(w.db.tasks, w.db.batches) && w.db.tasks.Keys == w.history.Keys
    requires e.CancelTaskEvent? || e.EditPlanEvent? || e.PausePlanEvent?
    ensures Counted(w, e, Step(w, e).db, b)
  {
    hide ExactAt, BatchInv, QueuedIn, Edits, UpdatePlan, PausePlan, DropQueued, CancelTaskRow;
    if e.CancelTaskEvent? { CancelAt(w.db, e.id, e.now, b); }
    else if e.EditPlanEvent? { EditPlanAt(w.db, e.id, e.plan, e.cancelQueued, e.now, b); }
    else { PausePlanAt(w.db, e.id, e.now, b); }
  }

  lemma ClaimCounts(w: World, e: Event, b: string)
    requires Homed(w.db.tasks, w.db.batches) && w.db.tasks.Keys == w.history.Keys && e.ClaimEvent?
    ensures Counted(w, e, Step(w, e).db, b)
  {
    hide ExactAt, Homed, QueuedIn;
    ClaimAt(w.db, e.id, e.name, e.token, e.now, e.expires, b);
    FirstIsThere(w.db, e.id, e.now);
    if e.id in w.db.tasks { ClaimKeepsKeys(w.db, e.id, e.name, e.token, e.now, e.expires); }
    hide Claim, First, Claims;
  }

  lemma FirstIsThere(s: State, t: string, now: int)
    ensures First(s.tasks, t, now) ==> t in s.tasks
    ensures Claims(s, t, now) ==> t in s.tasks
  {}

  lemma ClaimKeepsKeys(s: State, t: string, worker: string, token: string, now: int, expires: int)
    requires t in s.tasks
    ensures t in Claim(s, t, worker, token, now, expires).tasks
  {
    hide Recounted;
  }

  lemma RecoveryForm(w: World, e: Event)
    requires e.RequeueEvent?
    ensures Step(w, e).db == if Recovers(w, e) then RequeueAll(w.db, e.items, e.now) else w.db
    ensures Recovers(w, e) ==> forall t :: t in e.items ==> t in w.db.tasks
  {
    ExpiredAreTasks(w.db.tasks, e.now);
    hide RequeueAll, Expired;
  }

  lemma RecoveryCounts(w: World, e: Event, b: string)
    requires Homed(w.db.tasks, w.db.batches) && e.RequeueEvent?
    ensures Counted(w, e, Step(w, e).db, b)
  {
    RecoveryForm(w, e);
    if Recovers(w, e) { RequeueAllAt(w.db, e.items, e.now, b); }
    hide ExactAt, Homed, RequeueAll, QueuedIn, Recovers, Step;
  }

  lemma CreationCounts(w: World, e: Event, b: string)
    requires Homed(w.db.tasks, w.db.batches) && w.db.tasks.Keys == w.history.Keys && (e.AddTaskEvent? || e.ResetEvent?)
    ensures Counted(w, e, Step(w, e).db, b)
  {
    hide ExactAt, Homed, QueuedIn, AddTask, AddsTask, Reset, ReopenBlocked;
    if e.AddTaskEvent? { AddTaskAt(w.db, e.id, e.task, e.now, b); }
    else { ResetAt(w.db, e.id, e.now, b); }
  }

  lemma RestCounts(w: World, e: Event, b: string)
    requires Homed(w.db.tasks, w.db.batches)
    requires e.CreateBatchEvent? || e.CreateJobEvent? || e.FailJobEvent? || e.CancelJobEvent? || e.PlanRowEvent? || e.TrashEvent?
      || e.PurgeEvent? || e.CrashEvent?
    ensures Counted(w, e, Step(w, e).db, b)
  {
    TableAt(w.db, e, b);
    hide ExactAt, Homed, QueuedIn, TableStep;
  }

  /** A batch is exact after a step exactly when the step recounts it, or it was exact and the step ends no queued task of
      it without a recount. */
  lemma StepCounts(w: World, e: Event, b: string)
    requires Good(w)
    ensures ExactAt(Step(w, e).db, b) <==> Recounts(w, e, b) || (ExactAt(w.db, b) && !EndsQueued(w, e, b))
  {
    GoodHasBatches(w);
    BatchInvIsHomed(w.db);
    hide *;
    assert Counted(w, e, Step(w, e).db, b) by {
      if HolderEvent(e) { HolderForm(w, e); HolderCounts(w, e, b); }
      else if e.AddTaskEvent? || e.ResetEvent? { CreationCounts(w, e, b); }
      else if e.CancelTaskEvent? || e.EditPlanEvent? || e.PausePlanEvent? { EndingCounts(w, e, b); }
      else if e.RequeueEvent? { RecoveryCounts(w, e, b); }
      else if e.ClaimEvent? { ClaimCounts(w, e, b); }
      else { OtherEvents(e); RestCounts(w, e, b); }
    }
    CountedMeans(w, e, Step(w, e).db, b);
  }

  lemma CountedMeans(w: World, e: Event, r: State, b: string)
    requires Counted(w, e, r, b)
    ensures ExactAt(r, b) <==> Recounts(w, e, b) || (ExactAt(w.db, b) && !EndsQueued(w, e, b))
  {
    hide ExactAt, Recounts, EndsQueued;
  }

  lemma HolderForm(w: World, e: Event)
    requires HolderEvent(e)
    ensures Step(w, e) == WorkerStep(w, e)
  {
    hide WorkerStep;
  }

  lemma OtherEvents(e: Event)
    requires !HolderEvent(e) && !e.AddTaskEvent? && !e.ResetEvent? && !e.CancelTaskEvent? && !e.EditPlanEvent? && !e.PausePlanEvent?
    requires !e.RequeueEvent? && !e.ClaimEvent?
    ensures e.CreateBatchEvent? || e.CreateJobEvent? || e.FailJobEvent? || e.CancelJobEvent? || e.PlanRowEvent? || e.TrashEvent?
      || e.PurgeEvent? || e.CrashEvent?
  {}

  lemma GoodHasBatches(w: World)
    requires Good(w)
    ensures BatchInv(w.db.tasks, w.db.batches) && w.db.tasks.Keys == w.history.Keys
  {
    hide LeaseInv, JobInv, HistoryOk, TokensUsed, WorkersOk, BatchInv;
  }

  lemma EitherOr(w: World, e: Event, b: string, c: string)
    ensures !(Recounts(w, e, b) && EndsQueued(w, e, c))
  {
    hide QueuedIn, Edits, PausesPlan, Decides, HoldsIn, Resets, First, Claims, AddsTask, Recovers;
  }

  /** Where all counters are exact, a step leaves them exact exactly when it ends no queued task without a recount. */
  lemma StepExact(w: World, e: Event)
    requires Good(w) && AllExact(w.db)
    ensures AllExact(Step(w, e).db) <==> forall b :: !EndsQueued(w, e, b)
  {
    hide Good, ExactAt, Step, Recounts, EndsQueued;
    forall b ensures ExactAt(Step(w, e).db, b) <==> Recounts(w, e, b) || !EndsQueued(w, e, b) { StepCounts(w, e, b); }
    forall b ensures !(Recounts(w, e, b) && EndsQueued(w, e, b)) { EitherOr(w, e, b, b); }
  }

  // ---------------------------------------------------------------- whole runs

  /** Step i of the run ends a queued task of b without a recount, and no later step recounts b. */
  ghost predicate LeavesOff(events: seq<Event>, i: nat, b: string)
    requires i < |events|
  {
    EndsQueued(Run(START, events[..i]), events[i], b)
    && forall k | i < k < |events| :: !Recounts(Run(START, events[..k]), events[k], b)
  }

  lemma LeavesOffOn(events: seq<Event>, i: nat, b: string)
    requires i < |events| - 1
    ensures var init := events[..|events| - 1];
      LeavesOff(events, i, b) <==> LeavesOff(init, i, b) && !Recounts(Run(START, init), events[|events| - 1], b)
  {
    hide EndsQueued, Recounts, Run;
    var n := |events| - 1;
    var init := events[..n];
    assert forall k | 0 <= k <= n :: init[..k] == events[..k];
    assert forall k | 0 <= k < n :: init[k] == events[k];
  }

  lemma StartIsExact(b: string)
    ensures ExactAt(START.db, b)
  {}

  /** After a run a batch miscounts its tasks exactly when some step ended a queued task of it without a recount and no
      step since has recounted it. */
  lemma {:induction false} MiscountsExactly(events: seq<Event>, b: string)
    ensures !ExactAt(Run(START, events).db, b) <==> exists i | 0 <= i < |events| :: LeavesOff(events, i, b)
  {
    StartIsExact(b);
    if events != [] {
      var n := |events| - 1;
      var init, e := events[..n], events[n];
      var w := Run(START, init);
      MiscountsExactly(init, b);
      ReachableIsGood(init);
      hide Good, Step, ExactAt, Recounts, EndsQueued, LeavesOff;
      StepCounts(w, e, b);
      EitherOr(w, e, b, b);
      LastOff(events, b);
      assert Run(START, events) == Step(w, e);
      hide Run;
      forall i | 0 <= i < n ensures LeavesOff(events, i, b) <==> LeavesOff(init, i, b) && !Recounts(w, e, b) {
        LeavesOffOn(events, i, b);
      }
      if i :| 0 <= i < n && LeavesOff(init, i, b) {
        assert LeavesOff(events, i, b) <==> !Recounts(w, e, b);
      }
    }
  }

  lemma LastOff(events: seq<Event>, b: string)
    requires events != []
    ensures LeavesOff(events, |events| - 1, b) <==> EndsQueued(Run(START, events[..|events| - 1]), events[|events| - 1], b)
  {
    hide EndsQueued, Recounts, Run;
  }

  /** All counters are exact after every step of a run exactly when none of its steps ends a queued task without a recount. */
  lemma {:induction false} ExactThroughout(events: seq<Event>)
    ensures (forall n | 0 <= n <= |events| :: AllExact(Run(START, events[..n]).db))
      <==> (forall i, b | 0 <= i < |events| :: !EndsQueued(Run(START, events[..i]), events[i], b))
  {
    hide Good, Step, EndsQueued, ExactAt;
    if events == [] {
      forall b ensures ExactAt(START.db, b) { StartIsExact(b); }
      assert forall n | 0 <= n <= |events| :: events[..n] == [];
    } else {
      var init, n := events[..|events| - 1], |events| - 1;
      assert events[..|events|] == events;
      assert forall i | 0 <= i <= n :: init[..i] == events[..i];
      assert forall i | 0 <= i < n :: init[i] == events[i];
      ExactThroughout(init);
      ReachableIsGood(init);
      hide AllExact;
      if AllExact(Run(START, init).db) { StepExact(Run(START, init), events[n]); }
    }
  }

  /** A step that recounts a batch leaves its row telling the statuses of its tasks. */
  lemma RecountSays(w: World, e: Event, b: string)
    requires Good(w) && Recounts(w, e, b) && b in Step(w, e).db.batches && Members(Step(w, e).db.tasks, b) != {}
    ensures Says(Step(w, e).db.tasks, b, Step(w, e).db.batches[b])
  {
    StepKeeps(w, e);
    StepCounts(w, e, b);
    var s := Step(w, e).db;
    GoodHasBatches(Step(w, e));
    hide Good, Later, Step, Recounts, Says, BatchInv;
    var t :| t in Members(s.tasks, b);
    hide CountersOk;
    CountedSays(s, b);
  }

  /** So does every run that leaves the batch counted right. */
  lemma RunSays(events: seq<Event>, b: string)
    requires b in Run(START, events).db.batches && Members(Run(START, events).db.tasks, b) != {}
    requires forall i | 0 <= i < |events| :: !LeavesOff(events, i, b)
    ensures Says(Run(START, events).db.tasks, b, Run(START, events).db.batches[b])
  {
    MiscountsExactly(events, b);
    ReachableIsGood(events);
    var s := Run(START, events).db;
    GoodHasBatches(Run(START, events));
    hide Run, Good, Says, BatchInv, LeavesOff;
    var t :| t in Members(s.tasks, b);
    hide CountersOk;
    CountedSays(s, b);
  }

  const CANCELLED := SUBMIT + [CancelTaskEvent("t", 0)]

  /** A batch whose only task is cancelled while it waits still counts that task as queued. */
  lemma CancellationMiscounts()
    ensures var s := Run(START, CANCELLED).db;
      "b" in s.batches && s.batches["b"].queued == 1 && InClass(s.tasks, "b", InQueue) == {} && !ExactAt(s, "b")
  {
    var w, e := Run(START, SUBMIT), CancelTaskEvent("t", 0);
    SubmittedExact();
    StepCounts(w, e, "b");
    CancelledStep(w);
    hide ExactAt, Good, Run, Step, InClass;
    RunAppend(START, SUBMIT, [e]);
    RunOne(w, e);
  }

  lemma CancelledStep(w: World)
    requires w.db.tasks == map["t" := ROW] && w.db.tasks.Keys == w.history.Keys && "b" in w.db.batches
    requires Exact(w.db.tasks, "b", w.db.batches["b"])
    ensures var s := Step(w, CancelTaskEvent("t", 0)).db; s.batches == w.db.batches && InClass(s.tasks, "b", InQueue) == {}
    ensures w.db.batches["b"].queued == 1 && EndsQueued(w, CancelTaskEvent("t", 0), "b")
  {
    assert InClass(w.db.tasks, "b", InQueue) == {"t"};
    CancelForm(w);
    hide Step, CountersOk, InClass, Members;
  }

  lemma CancelForm(w: World)
    requires w.db.tasks == map["t" := ROW] && w.db.tasks.Keys == w.history.Keys
    ensures var s := Step(w, CancelTaskEvent("t", 0)).db; s.batches == w.db.batches && InClass(s.tasks, "b", InQueue) == {}
  {
    hide HolderEvent, TableStep, WorkerStep;
  }

  lemma SubmittedExact()
    ensures var w := Run(START, SUBMIT);
      Good(w) && w.db.tasks == map["t" := ROW] && w.db.tasks.Keys == w.history.Keys
      && "b" in w.db.batches && Exact(w.db.tasks, "b", w.db.batches["b"])
  {
    hide Run, Step, Good, Exact, BatchInv;
    var w := Run(START, SUBMIT);
    ReachableIsGood(SUBMIT);
    GoodHasBatches(w);
    BatchInvIsHomed(w.db);
    SubmitRun();
    JobSubmitted();
    TaskSubmitted(Step(Step(START, SUBMIT[0]), SUBMIT[1]));
    MiscountsExactly(SUBMIT, "b");
    NoneOff();
    assert ExactAt(w.db, "b");
  }

  lemma NoneOff()
    ensures forall i | 0 <= i < |SUBMIT| :: !LeavesOff(SUBMIT, i, "b")
  {
    hide Run, QueuedIn, Edits, PausesPlan;
  }
}
