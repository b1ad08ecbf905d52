/** Jobs without a task: where they come from, what ends them, and that no worker runs them. */
module QueueOwnership {
  import opened Tables
  import opened QueueSpec
  import opened QueueInvariants
  import opened QueueRuns
  import opened QueueTheorems
  import opened QueueSafety
  import opened QueueCounters
  import opened QueueOrphans
  import opened QueueDelivery
  import opened QueueLaws

  predicate Names(tasks: map<string, Task>, j: string)
  {
    exists t | t in tasks :: tasks[t].job == j
  }

  /** An active job that no task names: no worker can start it, and its deployment counts as busy. */
  predicate Stray(s: State, j: string)
  {
    j in s.jobs && Active(s.jobs[j].status) && !Names(s.tasks, j)
  }

  /** A job that is active after was active before, or a task names it. */
  ghost predicate Wakes(s: State, jobs: map<string, Job>)
  {
    forall j | j in jobs && Active(jobs[j].status) :: (j in s.jobs && Active(s.jobs[j].status)) || Names(s.tasks, j)
  }

  /** A job that is active after was active before. */
  ghost predicate Dormant(a: map<string, Job>, b: map<string, Job>)
  {
    forall j | j in b && Active(b[j].status) :: j in a && Active(a[j].status)
  }

  lemma DormantWakes(s: State, jobs: map<string, Job>)
    requires Dormant(s.jobs, jobs)
    ensures Wakes(s, jobs)
  {
    hide Names;
  }

  lemma ReopenWakes(s: State, t: string, clearStart: bool)
    requires t in s.tasks
    ensures Wakes(s, Reopen(s.jobs, s.tasks[t].job, clearStart))
  {
    assert Names(s.tasks, s.tasks[t].job);
    hide Names;
  }

  lemma RetryWakes(s: State, t: string, token: string, code: string, at: int, now: int)
    ensures Wakes(s, Retry(s, t, token, code, at, now).jobs)
  {
    DormantWakes(s, s.jobs);
    if t in s.tasks { ReopenWakes(s, t, false); }
    hide EndAttempts, Recounted, ReopenBlocked, Reopen, Wakes;
  }

  lemma ResetWakes(s: State, t: string, now: int)
    ensures Wakes(s, Reset(s, t, now).jobs)
  {
    DormantWakes(s, s.jobs);
    if t in s.tasks { ReopenWakes(s, t, true); }
    hide Recounted, ReopenBlocked, Reopen, Wakes;
  }

  lemma EndDormant(s: State, p: string, row: Plan, cancelQueued: bool, now: int)
    ensures Dormant(s.jobs, UpdatePlan(s, p, row, cancelQueued, now).jobs) && Dormant(s.jobs, PausePlan(s, p, now).jobs)
  {
    hide ValidTargets;
  }

  lemma UnstartDormant(jobs: map<string, Job>, j: string)
    ensures Dormant(jobs, Unstart(jobs, j))
  {
  }

  lemma RequeueOneDormant(s: State, t: string, now: int)
    requires t in s.tasks
    ensures Dormant(s.jobs, RequeueOne(s, t, now).jobs)
  {
    UnstartDormant(s.jobs, s.tasks[t].job);
    hide EndAttempts, Recounted, Unstart, Dormant;
  }

  lemma DormantThenDormant(a: map<string, Job>, b: map<string, Job>, c: map<string, Job>)
    requires Dormant(a, b) && Dormant(b, c)
    ensures Dormant(a, c)
  {
  }

  lemma {:induction false} RequeueDormant(s: State, items: seq<string>, now: int)
    requires forall t :: t in items ==> t in s.tasks
    ensures Dormant(s.jobs, RequeueAll(s, items, now).jobs)
  {
    hide RequeueOne;
    if items != [] {
      hide Dormant;
      var mid, last := RequeueAll(s, items[..|items| - 1], now), items[|items| - 1];
      RequeueDormant(s, items[..|items| - 1], now);
      RequeueOneDormant(mid, last, now);
      DormantThenDormant(s.jobs, mid.jobs, RequeueOne(mid, last, now).jobs);
    }
  }

  lemma VerdictWakes(w: World, l: Lease, code: string, now: int)
    ensures Wakes(w.db, VerdictStep(w, l, code, now).db.jobs)
  {
    DormantWakes(w.db, w.db.jobs);
    hide Retry, FinishFailure, Retries, Retryable, Factor, Base, Wakes;
    GuardedSameJobs(w.db, l.task, l.token);
    if 1 <= l.row.attemptCount { RetryWakes(w.db, l.task, l.token, code, now + Wait(l.row, l.row.attemptCount), now); }
  }

  lemma VerdictEventWakes(w: World, e: Event)
    requires e.VerdictEvent?
    ensures Wakes(w.db, WorkerStep(w, e).db.jobs)
  {
    VerdictForm(w, e);
    DormantWakes(w.db, w.db.jobs);
    var pc := Pc(w, e.name);
    hide WorkerStep, FinishFailure, VerdictStep, Wakes;
    if pc.Faulted? || pc.Deciding? {
      GuardedSameJobs(w.db, pc.lease.task, pc.lease.token);
      VerdictWakes(w, pc.lease, pc.code, e.now);
    }
  }

  lemma GuardedDormant(w: World, e: Event)
    requires e.SetStatusEvent? || e.HeartbeatEvent? || e.CompleteEvent?
    ensures Dormant(w.db.jobs, WorkerStep(w, e).db.jobs)
  {
    hide Complete, SetStatus, Heartbeat;
    var pc := Pc(w, e.name);
    if !pc.Idle? { GuardedSameJobs(w.db, pc.lease.task, pc.lease.token); }
  }

  lemma PauseDormant(w: World, e: Event)
    requires e.PauseOwnPlanEvent?
    ensures Dormant(w.db.jobs, WorkerStep(w, e).db.jobs)
  {
    var pc := Pc(w, e.name);
    if !pc.Idle? { EndDormant(w.db, pc.lease.row.plan, NOPLAN, false, e.now); }
    hide PausePlan, PausesPlan, DropQueued;
  }

  lemma QuietDormant(w: World, e: Event)
    requires Quiet(e)
    ensures Dormant(w.db.jobs, WorkerStep(w, e).db.jobs)
  {
    hide SnapshotId, Commits;
  }

  lemma HolderWakes(w: World, e: Event)
    requires HolderEvent(e)
    ensures Wakes(w.db, WorkerStep(w, e).db.jobs)
  {
    hide WorkerStep, Wakes, Dormant;
    if e.VerdictEvent? { VerdictEventWakes(w, e); return; }
    if Quiet(e) { QuietDormant(w, e); }
    else if e.PauseOwnPlanEvent? { PauseDormant(w, e); }
    else { GuardedDormant(w, e); }
    DormantWakes(w.db, WorkerStep(w, e).db.jobs);
  }

  lemma TableDormant(s: State, e: Event)
    requires !e.CreateJobEvent?
    ensures Dormant(s.jobs, TableStep(s, e).jobs)
  {
    BatchJobs(s, e);
    hide CreatesBatch, CreateBatch, NewBatch, TrashSnapshot, PurgeSnapshots;
  }

  lemma StepWakes(w: World, e: Event)
    requires !e.CreateJobEvent?
    ensures Wakes(w.db, Step(w, e).db.jobs)
  {
    DormantWakes(w.db, w.db.jobs);
    ClaimedJobs(w, e);
    AddedJobs(w, e);
    hide Wakes, Dormant, Reset, UpdatePlan, PausePlan, WorkerStep, TableStep, DropQueued, Claim, First, AddTask, AddsTask, CancelTaskRow,
      RequeueAll, Resets;
    if e.ResetEvent? { ResetWakes(w.db, e.id, e.now); }
    else if e.RequeueEvent? { RequeueStepWakes(w, e); }
    else if e.EditPlanEvent? { EndDormant(w.db, e.id, e.plan, e.cancelQueued, e.now); DormantWakes(w.db, UpdatePlan(w.db, e.id, e.plan, e.cancelQueued, e.now).jobs); }
    else if e.PausePlanEvent? { EndDormant(w.db, e.id, NOPLAN, false, e.now); DormantWakes(w.db, PausePlan(w.db, e.id, e.now).jobs); }
    else if HolderEvent(e) { HolderWakes(w, e); }
    else { TableDormant(w.db, e); DormantWakes(w.db, TableStep(w.db, e).jobs); }
  }

  lemma RequeueStepWakes(w: World, e: Event)
    requires e.RequeueEvent?
    ensures Wakes(w.db, Step(w, e).db.jobs)
  {
    DormantWakes(w.db, w.db.jobs);
    if forall t | t in e.items :: t in Expired(w.db.tasks, e.now) {
      RequeueDormant(w.db, e.items, e.now);
      DormantWakes(w.db, RequeueAll(w.db, e.items, e.now).jobs);
    }
    hide RequeueAll, Wakes, Dormant;
  }

  // ---------------------------------------------------------------- where stray jobs come from

  /** A job is created before the task that will name it. */
  ghost predicate CreatesStray(w: World, e: Event, j: string)
  {
    e.CreateJobEvent? && e.id == j && CreatesJob(w.db, j, e.job) && !Names(w.db.tasks, j)
  }

  lemma NamesStay(w: World, after: World, j: string)
    requires Later(w, after) && Names(w.db.tasks, j)
    ensures Names(after.db.tasks, j)
  {
    var t :| t in w.db.tasks && w.db.tasks[t].job == j;
    assert t in after.db.tasks && after.db.tasks[t].job == j;
  }

  /** A step leaves a stray job that was none before exactly when it creates the job and no task names it yet. */
  lemma StraysComeFromCreation(w: World, e: Event, j: string)
    requires Good(w) && !Stray(w.db, j)
    ensures Stray(Step(w, e).db, j) <==> CreatesStray(w, e, j)
  {
    if e.CreateJobEvent? {
      hide Good;
      CreationOnly(w, e, j);
    } else {
      StepKeeps(w, e);
      StepWakes(w, e);
      hide Good, Step, Later;
      if Names(w.db.tasks, j) { NamesStay(w, Step(w, e), j); }
      hide Names;
    }
  }

  lemma CreationOnly(w: World, e: Event, j: string)
    requires e.CreateJobEvent? && !Stray(w.db, j)
    ensures Stray(Step(w, e).db, j) <==> CreatesStray(w, e, j)
  {
    hide Names, Busy;
  }

  /** As long as a stray job is there, its deployment takes no other job. */
  lemma StrayBlocks(s: State, j: string, id: string, row: Job)
    requires Stray(s, j) && row.deploy == s.jobs[j].deploy
    ensures !CreatesJob(s, id, row) && CreateJob(s, id, row) == s
  {
    assert Busy(s.jobs, row.deploy);
    hide Busy, Names;
  }

  /** The statement after the creation, if it is reached, gives the job its task. */
  lemma TaskAdopts(s: State, id: string, row: Task, now: int)
    requires AddsTask(s, id, row)
    ensures !Stray(AddTask(s, id, row, now), row.job)
  {
    AddTaskWrites(s, id, row, now);
    var after := AddTask(s, id, row, now);
    assert id in after.tasks && after.tasks[id].job == row.job;
  }

  // ---------------------------------------------------------------- what ends a stray job

  /** The step ends the queued jobs of a plan. */
  predicate EndsPlan(w: World, e: Event, plan: string)
  {
    (e.EditPlanEvent? && e.cancelQueued && e.id == plan && Edits(w.db, e.id, e.plan))
    || (e.PausePlanEvent? && e.id == plan)
    || (PausesOwn(w, e) && Pc(w, e.name).lease.row.plan == plan)
  }

  /** The step inserts a task for job j. */
  predicate Adopts(w: World, e: Event, j: string)
  {
    e.AddTaskEvent? && (e.task.status == Queued || e.task.status == Skipped) && e.task.attemptCount == 0
    && AddsTask(w.db, e.id, e.task) && e.task.job == j
  }

  /** The step gives job j a task or ends the job: by its id, or with the queued work of its plan. */
  predicate EndsStray(w: World, e: Event, j: string)
    requires j in w.db.jobs
  {
    Adopts(w, e, j) || (e.FailJobEvent? && e.id == j)
    || (w.db.jobs[j].status == Queued && ((e.CancelJobEvent? && e.id == j) || EndsPlan(w, e, w.db.jobs[j].plan)))
  }

  ghost predicate Spared(s: State, jobs: map<string, Job>, j: string)
  {
    j in s.jobs && j in jobs && jobs[j] == s.jobs[j]
  }

  lemma ReopenSpares(s: State, t: string, clearStart: bool, j: string)
    requires t in s.tasks && j in s.jobs && !Names(s.tasks, j)
    ensures Spared(s, Reopen(s.jobs, s.tasks[t].job, clearStart), j)
  {
    assert s.tasks[t].job != j;
    hide Names;
  }

  lemma RetrySpares(s: State, t: string, token: string, code: string, at: int, now: int, j: string)
    requires j in s.jobs && !Names(s.tasks, j)
    ensures Spared(s, Retry(s, t, token, code, at, now).jobs, j)
  {
    if t in s.tasks { ReopenSpares(s, t, false, j); }
    hide EndAttempts, Recounted, ReopenBlocked, Reopen, Names;
  }

  lemma ResetSpares(s: State, t: string, now: int, j: string)
    requires j in s.jobs && !Names(s.tasks, j)
    ensures Spared(s, Reset(s, t, now).jobs, j)
  {
    if t in s.tasks { ReopenSpares(s, t, true, j); }
    hide Recounted, ReopenBlocked, Reopen, Names;
  }

  lemma {:induction false} RequeueSpares(s: State, items: seq<string>, now: int, j: string)
    requires j in s.jobs && !Names(s.tasks, j) && forall t :: t in items ==> t in s.tasks
    ensures Spared(s, RequeueAll(s, items, now).jobs, j)
  {
    hide RequeueOne;
    if items != [] {
      var init, last := items[..|items| - 1], items[|items| - 1];
      var mid := RequeueAll(s, init, now);
      RequeueSpares(s, init, now, j);
      RequeueAllRows(s, init, now);
      RequeueWrites(mid, last, now);
      assert s.tasks[last].job != j && mid.tasks[last].job == s.tasks[last].job;
      hide Names;
    }
  }

  /** The job of a lease has a task, that of the lease. */
  lemma LeasedIsNamed(w: World, name: string, j: string)
    requires Good(w) && !Pc(w, name).Idle? && !Names(w.db.tasks, j)
    ensures Pc(w, name).lease.row.job != j
  {
    PcOk(w, name);
    TokenOf(w, Pc(w, name));
    hide Good, WorkerOk;
  }

  lemma QuietSpares(w: World, e: Event, j: string)
    requires Good(w) && Quiet(e) && j in w.db.jobs && !Names(w.db.tasks, j)
    ensures Spared(w.db, WorkerStep(w, e).db.jobs, j)
  {
    if !Pc(w, e.name).Idle? { LeasedIsNamed(w, e.name, j); }
    hide *;
    OtherJobSpared(w, e, j);
  }

  lemma OtherJobSpared(w: World, e: Event, j: string)
    requires Quiet(e) && j in w.db.jobs && (Pc(w, e.name).Idle? || Pc(w, e.name).lease.row.job != j)
    ensures Spared(w.db, WorkerStep(w, e).db.jobs, j)
  {
    hide SnapshotId, Commits, StartsJob;
  }

  lemma GuardedSpares(w: World, e: Event, j: string)
    requires (e.SetStatusEvent? || e.HeartbeatEvent? || e.CompleteEvent?) && j in w.db.jobs
    ensures Spared(w.db, WorkerStep(w, e).db.jobs, j)
  {
    hide Complete, SetStatus, Heartbeat;
    var pc := Pc(w, e.name);
    if !pc.Idle? { GuardedSameJobs(w.db, pc.lease.task, pc.lease.token); }
  }

  lemma VerdictSpares(w: World, l: Lease, code: string, now: int, j: string)
    requires j in w.db.jobs && !Names(w.db.tasks, j)
    ensures Spared(w.db, VerdictStep(w, l, code, now).db.jobs, j)
  {
    hide Retry, FinishFailure, Retries, Retryable, Factor, Base, Names;
    GuardedSameJobs(w.db, l.task, l.token);
    if 1 <= l.row.attemptCount { RetrySpares(w.db, l.task, l.token, code, now + Wait(l.row, l.row.attemptCount), now, j); }
  }

  lemma VerdictEventSpares(w: World, e: Event, j: string)
    requires e.VerdictEvent? && j in w.db.jobs && !Names(w.db.tasks, j)
    ensures Spared(w.db, WorkerStep(w, e).db.jobs, j)
  {
    VerdictForm(w, e);
    var pc := Pc(w, e.name);
    hide WorkerStep, FinishFailure, VerdictStep, Names;
    if pc.Faulted? || pc.Deciding? {
      GuardedSameJobs(w.db, pc.lease.task, pc.lease.token);
      VerdictSpares(w, pc.lease, pc.code, e.now, j);
    }
  }

  /** A bulk update ends exactly the queued jobs of its plan. */
  lemma EndQueuedSpares(s: State, p: string, row: Plan, cancelQueued: bool, now: int, j: string)
    requires j in s.jobs
    ensures j in PausePlan(s, p, now).jobs && j in UpdatePlan(s, p, row, cancelQueued, now).jobs
    ensures s.jobs[j].status == Queued && s.jobs[j].plan == p ==> !Active(PausePlan(s, p, now).jobs[j].status)
    ensures !(s.jobs[j].status == Queued && s.jobs[j].plan == p) ==> Spared(s, PausePlan(s, p, now).jobs, j)
    ensures s.jobs[j].status == Queued && s.jobs[j].plan == p && Edits(s, p, row) && cancelQueued ==>
      !Active(UpdatePlan(s, p, row, cancelQueued, now).jobs[j].status)
    ensures !(s.jobs[j].status == Queued && s.jobs[j].plan == p && Edits(s, p, row) && cancelQueued) ==>
      Spared(s, UpdatePlan(s, p, row, cancelQueued, now).jobs, j)
  {
    hide ValidTargets;
  }

  /** What a step does to a job without a task. */
  ghost predicate Handles(w: World, e: Event, jobs: map<string, Job>, j: string)
    requires j in w.db.jobs
  {
    j in jobs
    && (Adopts(w, e, j) || !EndsStray(w, e, j) ==> jobs[j] == w.db.jobs[j])
    && (!Adopts(w, e, j) && EndsStray(w, e, j) ==> !Active(jobs[j].status))
  }

  lemma PauseHandles(w: World, e: Event, j: string)
    requires e.PauseOwnPlanEvent? && j in w.db.jobs
    ensures Handles(w, e, WorkerStep(w, e).db.jobs, j)
  {
    var pc := Pc(w, e.name);
    if !pc.Idle? { EndQueuedSpares(w.db, pc.lease.row.plan, NOPLAN, false, e.now, j); }
    hide PausePlan, UpdatePlan, PausesPlan, DropQueued, Active;
  }

  lemma HolderEndsNone(w: World, e: Event, j: string)
    requires HolderEvent(e) && !e.PauseOwnPlanEvent? && j in w.db.jobs
    ensures !Adopts(w, e, j) && !EndsStray(w, e, j)
  {
    hide Active, AddsTask, Edits;
  }

  lemma HolderHandles(w: World, e: Event, j: string)
    requires Good(w) && HolderEvent(e) && j in w.db.jobs && !Names(w.db.tasks, j)
    ensures Handles(w, e, WorkerStep(w, e).db.jobs, j)
  {
    if e.PauseOwnPlanEvent? { PauseHandles(w, e, j); return; }
    HolderEndsNone(w, e, j);
    hide WorkerStep, Good, Names, Active, Adopts, EndsStray;
    if Quiet(e) { QuietSpares(w, e, j); }
    else if e.VerdictEvent? { VerdictEventSpares(w, e, j); }
    else { GuardedSpares(w, e, j); }
  }

  lemma TableEnds(w: World, e: Event, j: string)
    requires j in w.db.jobs && !e.EditPlanEvent? && !e.PausePlanEvent? && !HolderEvent(e)
    ensures Adopts(w, e, j) ==> e.AddTaskEvent?
    ensures !e.AddTaskEvent? ==> (EndsStray(w, e, j) <==>
      (e.FailJobEvent? && e.id == j) || (w.db.jobs[j].status == Queued && e.CancelJobEvent? && e.id == j))
    ensures e.AddTaskEvent? ==> (EndsStray(w, e, j) <==> Adopts(w, e, j))
  {
    hide Active, AddsTask, Edits;
  }

  lemma TableHandles(w: World, e: Event, j: string)
    requires j in w.db.jobs && Active(w.db.jobs[j].status)
    requires !e.EditPlanEvent? && !e.PausePlanEvent? && !HolderEvent(e)
    ensures Handles(w, e, TableStep(w.db, e).jobs, j)
  {
    BatchJobs(w.db, e);
    TableEnds(w, e, j);
    hide CreatesBatch, CreateBatch, NewBatch, TrashSnapshot, PurgeSnapshots, Adopts, EndsStray, Busy;
  }

  lemma RequeueHandles(w: World, e: Event, j: string)
    requires e.RequeueEvent? && j in w.db.jobs && !Names(w.db.tasks, j)
    ensures Handles(w, e, Step(w, e).db.jobs, j)
  {
    hide Names, Active, AddsTask, Edits;
    if forall t | t in e.items :: t in Expired(w.db.tasks, e.now) { RequeueSpares(w.db, e.items, e.now, j); }
    hide RequeueAll;
  }

  lemma UnchangedHandles(w: World, e: Event, j: string)
    requires j in w.db.jobs && (e.AddTaskEvent? || e.CancelTaskEvent? || e.ClaimEvent? || e.CrashEvent?)
    ensures Handles(w, e, Step(w, e).db.jobs, j)
  {
    assert !PausesOwn(w, e);
    SameJobs(w, e);
    hide Step, AddsTask, Edits, PausesOwn, Active;
  }

  lemma SameJobs(w: World, e: Event)
    requires e.AddTaskEvent? || e.CancelTaskEvent? || e.ClaimEvent? || e.CrashEvent?
    ensures Step(w, e).db.jobs == w.db.jobs
  {
    ClaimedJobs(w, e);
    AddedJobs(w, e);
    hide AddTask, AddsTask, CancelTaskRow, Claim, First;
  }

  lemma EndingHandles(w: World, e: Event, j: string)
    requires (e.EditPlanEvent? || e.PausePlanEvent? || e.ResetEvent?) && j in w.db.jobs && !Names(w.db.tasks, j)
    ensures Handles(w, e, Step(w, e).db.jobs, j)
  {
    hide Names, Reset, Resets, UpdatePlan, PausePlan, DropQueued, Edits, AddsTask, Active;
    if e.ResetEvent? { ResetSpares(w.db, e.id, e.now, j); }
    else if e.EditPlanEvent? { EndQueuedSpares(w.db, e.id, e.plan, e.cancelQueued, e.now, j); }
    else { EndQueuedSpares(w.db, e.id, NOPLAN, false, e.now, j); }
  }

  lemma StepHandles(w: World, e: Event, j: string)
    requires Good(w) && Stray(w.db, j)
    ensures Handles(w, e, Step(w, e).db.jobs, j)
  {
    hide Good, Names, Handles, WorkerStep, TableStep, AddTaskStep, CancelTaskStep, ClaimStep, RequeueStep, ResetStep, EditPlanStep,
      PausePlanStep;
    if e.RequeueEvent? { RequeueHandles(w, e, j); }
    else if e.ResetEvent? || e.EditPlanEvent? || e.PausePlanEvent? { EndingHandles(w, e, j); }
    else if e.AddTaskEvent? || e.CancelTaskEvent? || e.ClaimEvent? || e.CrashEvent? { UnchangedHandles(w, e, j); }
    else if HolderEvent(e) { HolderHandles(w, e, j); }
    else { TableHandles(w, e, j); }
  }

  lemma StaysUnnamed(w: World, e: Event, j: string)
    requires Good(w) && !Names(w.db.tasks, j)
    ensures Names(Step(w, e).db.tasks, j) <==> Adopts(w, e, j)
  {
    if e.AddTaskEvent? {
      hide Good;
      AdoptsExactly(w, e, j);
    } else {
      var after := Step(w, e);
      StepKeeps(w, e);
      NoNewHistory(w, e);
      hide Step, Inv, TokensUsed, WorkersOk, HistoryOk, Fenced, JobsEvolve;
      forall t | t in after.db.tasks ensures after.db.tasks[t].job != j {
        assert t in w.db.tasks && SameIdentity(w.db.tasks[t], after.db.tasks[t]);
      }
    }
  }

  lemma AdoptsExactly(w: World, e: Event, j: string)
    requires e.AddTaskEvent? && !Names(w.db.tasks, j)
    ensures Names(Step(w, e).db.tasks, j) <==> Adopts(w, e, j)
  {
    if AddsTask(w.db, e.id, e.task) { AddTaskWrites(w.db, e.id, e.task, e.now); }
    hide AddTask, AddsTask;
    if Adopts(w, e, j) { assert Step(w, e).db.tasks[e.id].job == j; }
  }

  /** A stray job stops being one exactly when the step gives it a task or ends it; any other step, of a worker in
      particular, leaves its row as it is. */
  lemma StraysEnd(w: World, e: Event, j: string)
    requires Good(w) && Stray(w.db, j)
    ensures Stray(Step(w, e).db, j) <==> !EndsStray(w, e, j)
    ensures !EndsStray(w, e, j) ==> Step(w, e).db.jobs[j] == w.db.jobs[j]
  {
    StepHandles(w, e, j);
    StaysUnnamed(w, e, j);
    hide Good, Step, Names, Adopts, EndsPlan;
  }

  // ---------------------------------------------------------------- whole runs

  /** Step i of the run creates job j before its task, and no step after it gives the job a task or ends it. */
  ghost predicate LeavesStray(events: seq<Event>, i: nat, j: string)
    requires i < |events|
  {
    CreatesStray(Run(START, events[..i]), events[i], j)
    && forall k | i < k < |events| ::
         var w := Run(START, events[..k]);
         j in w.db.jobs && !EndsStray(w, events[k], j)
  }

  lemma LeavesOn(events: seq<Event>, i: nat, j: string)
    requires i < |events| - 1
    ensures var init, w := events[..|events| - 1], Run(START, events[..|events| - 1]);
      LeavesStray(events, i, j) <==> LeavesStray(init, i, j) && j in w.db.jobs && !EndsStray(w, events[|events| - 1], j)
  {
    hide CreatesStray, EndsStray, Run;
    var n := |events| - 1;
    var init := events[..n];
    assert forall k | 0 <= k <= n :: init[..k] == events[..k];
    assert forall k | 0 <= k < n :: init[k] == events[k];
  }

  /** A job is stray after a run exactly when some step created it before its task and none since gave it one or ended it. */
  lemma {:induction false} StraysOverRuns(events: seq<Event>, j: string)
    ensures Stray(Run(START, events).db, j) <==> exists i | 0 <= i < |events| :: LeavesStray(events, i, j)
  {
    if events != [] {
      var n := |events| - 1;
      var init, e := events[..n], events[n];
      var w := Run(START, init);
      StraysOverRuns(init, j);
      ReachableIsGood(init);
      hide Good, Step;
      if Stray(w.db, j) { StraysEnd(w, e, j); } else { StraysComeFromCreation(w, e, j); }
      hide EndsStray, Names, CreatesJob, Run;
      forall i | 0 <= i < n ensures LeavesStray(events, i, j) <==> LeavesStray(init, i, j) && j in w.db.jobs && !EndsStray(w, e, j) {
        LeavesOn(events, i, j);
      }
      assert LeavesStray(events, n, j) <==> CreatesStray(w, e, j);
      hide LeavesStray;
      if Stray(Step(w, e).db, j) {
        if Stray(w.db, j) {
          var i :| 0 <= i < n && LeavesStray(init, i, j);
          assert LeavesStray(events, i, j);
        }
      }
    }
  }

  /** A stray job of a reachable state has never been started. */
  lemma {:induction false} StraysNeverRan(events: seq<Event>, j: string)
    requires Stray(Run(START, events).db, j)
    ensures var row := Run(START, events).db.jobs[j]; row.status == Queued && row.startedAt == None && row.snapshot == ""
  {
    if events != [] {
      var init, e := events[..|events| - 1], events[|events| - 1];
      var w := Run(START, init);
      ReachableIsGood(init);
      if Stray(w.db, j) {
        StraysNeverRan(init, j);
        hide Good, Step, EndsStray, Stray;
        StraysEnd(w, e, j);
      } else {
        StraysComeFromCreation(w, e, j);
        hide Good, Names, CreatesJob;
      }
    }
  }
}
