/** A consequence of fencing: when a worker whose lease was recovered still commits the snapshot, the job has
    succeeded but the task can never follow it. */
module QueueOrphans {
  import opened Tables
  import opened QueueSpec
  import opened QueueInvariants
  import opened QueueRuns
  import opened QueueTheorems
  import opened QueueSafety

  /** The job has succeeded, the task has not, and no worker on its way to completing it holds its lease. */
  ghost predicate Orphaned(w: World, t: string)
  {
    t in w.db.tasks && w.db.tasks[t].status != Succeeded
    && w.db.tasks[t].job in w.db.jobs && w.db.jobs[w.db.tasks[t].job].status == Succeeded
    && forall name | name in w.workers && (w.workers[name].Delivered? || w.workers[name].Completing?)
         && w.workers[name].lease.task == t :: w.workers[name].lease.token != w.db.tasks[t].token
  }

  // ---------------------------------------------------------------- only completion succeeds

  ghost predicate NotSucceeded(s: State, t: string)
  {
    t in s.tasks && s.tasks[t].status != Succeeded
  }

  lemma CreatingNeverSucceeds(w: World, id: string, task: Task, now: int, t: string)
    requires NotSucceeded(w.db, t)
    ensures NotSucceeded(AddTaskStep(w, id, task, now).db, t)
  {
    CreatingKeeps(w, id, task, now, t);
    hide AddTaskStep;
  }

  lemma QueueingNeverSucceeds(w: World, id: string, now: int, t: string)
    requires NotSucceeded(w.db, t)
    ensures NotSucceeded(CancelTaskStep(w, id, now).db, t) && NotSucceeded(ResetStep(w, id, now).db, t)
  {
    hide ReopenBlocked, Reopen, Recounted;
  }

  lemma RequeueNeverSucceeds(w: World, items: seq<string>, now: int, t: string)
    requires NotSucceeded(w.db, t)
    ensures NotSucceeded(RequeueStep(w, items, now).db, t)
  {
    hide RequeueAll;
    if forall u | u in items :: u in Expired(w.db.tasks, now) {
      RequeueAllRows(w.db, items, now);
    }
  }

  lemma EndingNeverSucceeds(w: World, p: string, row: Plan, cancelQueued: bool, now: int, t: string)
    requires NotSucceeded(w.db, t)
    ensures NotSucceeded(PausePlanStep(w, p, now).db, t) && NotSucceeded(EditPlanStep(w, p, row, cancelQueued, now).db, t)
  {
    hide DropQueued, ValidTargets;
  }

  lemma ClaimNeverSucceeds(w: World, name: string, id: string, token: string, now: int, expires: int, t: string)
    requires NotSucceeded(w.db, t)
    ensures NotSucceeded(ClaimStep(w, name, id, token, now, expires).db, t)
  {
    hide Claim, First, Claims;
    if Claims(w.db, id, now) { ClaimWrites(w.db, id, name, token, now, expires); }
    else { ClaimRefused(w.db, id, name, token, now, expires); }
  }

  lemma HeldRowNeverSucceeds(s: State, u: string, token: string, t: string)
    requires NotSucceeded(s, t)
    ensures forall status, code, now | status != Succeeded :: NotSucceeded(FinishFailure(s, u, token, status, code, now), t)
    ensures NotSucceeded(SetStatus(s, u, token, Prechecking), t)
    ensures forall now, expires :: NotSucceeded(Heartbeat(s, u, token, now, expires), t)
  {
    hide EndAttempts, Recounted;
  }

  lemma RetryNeverSucceeds(s: State, u: string, token: string, code: string, at: int, now: int, t: string)
    requires NotSucceeded(s, t)
    ensures NotSucceeded(Retry(s, u, token, code, at, now), t)
  {
    hide EndAttempts, Recounted, ReopenBlocked, Reopen;
  }

  lemma VerdictNeverSucceeds(w: World, l: Lease, code: string, now: int, t: string)
    requires NotSucceeded(w.db, t)
    ensures NotSucceeded(VerdictStep(w, l, code, now).db, t)
  {
    hide Retry, FinishFailure, Retries, Retryable, Factor, Base;
    HeldRowNeverSucceeds(w.db, l.task, l.token, t);
    if 1 <= l.row.attemptCount {
      RetryNeverSucceeds(w.db, l.task, l.token, code, now + Wait(l.row, l.row.attemptCount), now, t);
    }
  }

  ghost predicate CompletedBy(w: World, e: Event, t: string)
  {
    e.CompleteEvent? && Pc(w, e.name).Completing?
    && Pc(w, e.name).lease.task == t && t in w.db.tasks && w.db.tasks[t].token == Pc(w, e.name).lease.token
  }

  lemma HolderSucceedsOnlyByCompleting(w: World, e: Event, t: string)
    requires NotSucceeded(w.db, t) && !CompletedBy(w, e, t) && HolderEvent(e)
    ensures NotSucceeded(WorkerStep(w, e).db, t)
  {
    hide FinishFailure, SetStatus, Heartbeat, PausePlanStep, VerdictStep, StartsJob, Commits, PausesPlan, Complete;
    var pc := Pc(w, e.name);
    if !pc.Idle? {
      HeldRowNeverSucceeds(w.db, pc.lease.task, pc.lease.token, t);
      if e.PauseOwnPlanEvent? { EndingNeverSucceeds(w, pc.lease.row.plan, NOPLAN, false, e.now, t); }
      else if e.VerdictEvent? && (pc.Faulted? || pc.Deciding?) { VerdictNeverSucceeds(w, pc.lease, pc.code, e.now, t); }
      else if e.CompleteEvent? && pc.Completing? { CompleteLeavesOthers(w.db, pc.lease, pc.snapshot, e.now, t); }
    }
  }

  lemma CompleteLeavesOthers(s: State, l: Lease, snapshot: string, now: int, t: string)
    requires NotSucceeded(s, t) && !(l.task == t && s.tasks[t].token == l.token)
    ensures NotSucceeded(Complete(s, l.task, l.token, snapshot, now), t)
  {
    hide EndAttempts, Recounted;
  }

  /** A task turns SUCCEEDED in no other way than CompleteTask under its current token. */
  lemma SucceedsOnlyByCompleting(w: World, e: Event, t: string)
    requires NotSucceeded(w.db, t) && !CompletedBy(w, e, t)
    ensures NotSucceeded(Step(w, e).db, t)
  {
    TableStepKeepsTasks(w.db, e);
    hide AddTaskStep, CancelTaskStep, ResetStep, RequeueStep, EditPlanStep, PausePlanStep, ClaimStep, WorkerStep, TableStep,
      CompletedBy;
    if e.AddTaskEvent? { CreatingNeverSucceeds(w, e.id, e.task, e.now, t); }
    else if e.CancelTaskEvent? || e.ResetEvent? { QueueingNeverSucceeds(w, e.id, e.now, t); }
    else if e.RequeueEvent? { RequeueNeverSucceeds(w, e.items, e.now, t); }
    else if e.EditPlanEvent? { EndingNeverSucceeds(w, e.id, e.plan, e.cancelQueued, e.now, t); }
    else if e.PausePlanEvent? { EndingNeverSucceeds(w, e.id, NOPLAN, false, e.now, t); }
    else if e.ClaimEvent? { ClaimNeverSucceeds(w, e.name, e.id, e.token, e.now, e.expires, t); }
    else if HolderEvent(e) { HolderSucceedsOnlyByCompleting(w, e, t); }
  }

  // ---------------------------------------------------------------- orphans stay orphans

  /** A worker reaches Delivered only by committing a running job, and Completing only from Delivered. */
  lemma DeliversOnlyRunningJobs(w: World, e: Event, name: string)
    requires name in Step(w, e).workers && (Step(w, e).workers[name].Delivered? || Step(w, e).workers[name].Completing?)
    ensures var l := Step(w, e).workers[name].lease;
      (name in w.workers && (w.workers[name].Delivered? || w.workers[name].Completing?) && w.workers[name].lease == l)
      || (name in w.workers && w.workers[name].Executing? && w.workers[name].lease == l
          && l.row.job in w.db.jobs && w.db.jobs[l.row.job].status == Running)
  {
    if HolderEvent(e) {
      HolderDelivers(w, e, name);
    }
    hide HolderEvent, AddTask, CancelTaskRow, Reset, RequeueAll, Expired, UpdatePlan, PausePlan, DropQueued, Claim, First, Resets,
      AddsTask, WorkerStep, TableStep;
  }

  lemma HolderDelivers(w: World, e: Event, name: string)
    requires HolderEvent(e) && name in WorkerStep(w, e).workers
    requires WorkerStep(w, e).workers[name].Delivered? || WorkerStep(w, e).workers[name].Completing?
    ensures var l := WorkerStep(w, e).workers[name].lease;
      (name in w.workers && (w.workers[name].Delivered? || w.workers[name].Completing?) && w.workers[name].lease == l)
      || (name in w.workers && w.workers[name].Executing? && w.workers[name].lease == l
          && l.row.job in w.db.jobs && w.db.jobs[l.row.job].status == Running)
  {
    hide SetStatus, Heartbeat, StartJob, StartsJob, CommitSnapshot, FailJob, PausePlanStep, PausesPlan, FinishStep, VerdictStep,
      Complete;
    VerdictKeepsWorkers(w);
  }

  lemma VerdictKeepsWorkers(w: World)
    ensures forall l, code, now :: VerdictStep(w, l, code, now).workers == w.workers
    ensures forall l, status, code, now :: FinishStep(w, l, status, code, now).workers == w.workers
    ensures forall p, now :: PausePlanStep(w, p, now).workers == w.workers
  {
    hide Retry, Retries, Retryable, FinishFailure, PausePlan, DropQueued, Wait;
  }

  /** No worker newly on its way to completing t holds t's token. */
  lemma OrphanWorker(w: World, after: World, l: Lease, t: string, name: string)
    requires Good(w) && Orphaned(w, t) && Later(w, after) && l.task == t && name in w.workers
    requires !w.workers[name].Idle? && w.workers[name].lease == l
    requires w.workers[name].Delivered? || w.workers[name].Completing?
      || (l.row.job in w.db.jobs && w.db.jobs[l.row.job].status == Running)
    ensures t in after.db.tasks && l.token != after.db.tasks[t].token
  {
    hide Inv, HistoriesOk, TokensUsed, Monotone;
    assert WorkerOk(w.db.tasks, w.db.jobs, w.used, w.workers[name]);
    hide WorkersOk;
  }

  lemma OrphanStep(w: World, e: Event, t: string)
    requires Good(w) && Orphaned(w, t)
    ensures Orphaned(Step(w, e), t)
  {
    var after := Step(w, e);
    StepKeeps(w, e);
    assert !CompletedBy(w, e, t) by { hide Good, Later, Step; }
    SucceedsOnlyByCompleting(w, e, t) by { hide Good, Later, Step, CompletedBy; }
    forall name | name in after.workers && (after.workers[name].Delivered? || after.workers[name].Completing?)
      && after.workers[name].lease.task == t
      ensures after.workers[name].lease.token != after.db.tasks[t].token
    {
      hide Good, Later, Orphaned, Step;
      DeliversOnlyRunningJobs(w, e, name);
      OrphanWorker(w, after, after.workers[name].lease, t, name);
    }
    hide Good, Step, Later;
    OrphanRest(w, after, t);
  }

  lemma OrphanRest(w: World, after: World, t: string)
    requires Orphaned(w, t) && Later(w, after) && NotSucceeded(after.db, t)
    requires forall name | name in after.workers && (after.workers[name].Delivered? || after.workers[name].Completing?)
               && after.workers[name].lease.task == t :: after.workers[name].lease.token != after.db.tasks[t].token
    ensures Orphaned(after, t)
  {
    hide Fenced;
  }

  /** Once orphaned, a task is never SUCCEEDED again in any continuation, although its job is. */
  lemma {:induction false} OrphansNeverSucceed(w: World, events: seq<Event>, t: string)
    requires Good(w) && Orphaned(w, t)
    ensures Orphaned(Run(w, events), t)
  {
    hide Good, Orphaned, Step;
    if events != [] {
      var init := events[..|events| - 1];
      OrphansNeverSucceed(w, init, t);
      RunKeeps(w, init);
      OrphanStep(Run(w, init), events[|events| - 1], t);
    }
  }

  // ---------------------------------------------------------------- a run that orphans a task

  const ROW := Task("b", "", "j", "d", Queued, 0, 0, 0, 0, "", 0, 0, 0, None, None, "", "", None, None, "")
  const JOB := Job("d", "", "b", "t", Queued, "", "", 0, None, None)
  const IMAGE := Snapshot("j", "", "p", 0, "sum", 0, 0, Verified, Kept, None)

  /** One batch, one job, one task. */
  const SUBMIT := [CreateBatchEvent("b", NewBatch("", "manual", Queued, 0, 0, None)), CreateJobEvent("j", JOB), AddTaskEvent("t", ROW, 0)]

  /** A worker claims the task and starts its job. */
  function Begin(name: string, token: string, now: int): seq<Event>
  {
    [ClaimEvent(name, "t", token, now, now + 1), SetStatusEvent(name, false), StartEvent(name, now)]
  }

  /** Worker v claims, its lease expires and is recovered, worker w claims, and only then v commits. */
  const STALE_COMMIT :=
    SUBMIT + Begin("v", "first", 0) + [RequeueEvent(["t"], 1)] + Begin("w", "second", 1) + [CommitEvent("v", IMAGE)]

  lemma {:induction false} RunAppend(w: World, a: seq<Event>, b: seq<Event>)
    ensures Run(w, a + b) == Run(Run(w, a), b)
  {
    hide Step;
    if b == [] {
      assert a + b == a;
    } else {
      RunAppend(w, a, b[..|b| - 1]);
      assert (a + b)[..|a + b| - 1] == a + b[..|b| - 1];
    }
  }

  lemma RunOne(w: World, e: Event)
    ensures Run(w, [e]) == Step(w, e)
  {
    assert Run(w, []) == w;
    hide Step;
  }

  lemma RunThree(w: World, a: Event, b: Event, c: Event)
    ensures Run(w, [a, b, c]) == Step(Step(Step(w, a), b), c)
  {
    hide Step;
    RunAppend(w, [a, b], [c]);
    RunAppend(w, [a], [b]);
    assert [a] + [b] == [a, b] && [a, b] + [c] == [a, b, c];
    RunOne(w, a);
    RunOne(Step(w, a), b);
    RunOne(Step(Step(w, a), b), c);
  }

  /** The single task is queued and its single job too. */
  ghost predicate Waiting(w: World, now: int)
  {
    Good(w) && w.db.tasks.Keys == {"t"} && w.db.jobs.Keys == {"j"} && w.db.snapshots == map[]
    && w.db.tasks["t"].status == Queued && w.db.tasks["t"].availableAt <= now && w.db.tasks["t"].job == "j"
    && w.db.jobs["j"].status == Queued
  }

  lemma Submitted()
    ensures Waiting(Run(START, SUBMIT), 0) && Run(START, SUBMIT).workers == map[] && Run(START, SUBMIT).used == {}
  {
    hide Good, Run, Step, AddTaskStep;
    ReachableIsGood(SUBMIT);
    SubmitRun();
    JobSubmitted();
    TaskSubmitted(Step(Step(START, SUBMIT[0]), SUBMIT[1]));
  }

  lemma SubmitRun()
    ensures Run(START, SUBMIT) == AddTaskStep(Step(Step(START, SUBMIT[0]), SUBMIT[1]), "t", ROW, 0)
  {
    RunThree(START, SUBMIT[0], SUBMIT[1], SUBMIT[2]);
    hide Run, AddTaskStep, TableStep, HolderEvent;
  }

  lemma TaskSubmitted(w: World)
    requires w.db.tasks == map[] && w.db.jobs == map["j" := JOB] && w.db.snapshots == map[] && "b" in w.db.batches
    ensures var after := AddTaskStep(w, "t", ROW, 0);
      after.db.tasks == map["t" := ROW] && after.db.jobs == w.db.jobs && after.db.snapshots == map[]
      && after.workers == w.workers && after.used == w.used
  {
    assert AddsTask(w.db, "t", ROW);
    hide Recounted, AddsTask;
  }

  lemma JobSubmitted()
    ensures var two := Step(Step(START, SUBMIT[0]), SUBMIT[1]);
      two.db.tasks == map[] && two.db.jobs == map["j" := JOB] && two.db.snapshots == map[] && "b" in two.db.batches
      && two.workers == map[] && two.used == {}
  {
    var one := Step(START, SUBMIT[0]);
    assert one == START.(db := EMPTY.(batches := map["b" := SUBMIT[0].batch]));
  }

  /** The worker executes under its token and the job runs. */
  ghost predicate Executes(w: World, after: World, name: string, token: string, now: int)
  {
    after.db.tasks.Keys == {"t"} && after.db.jobs.Keys == {"j"} && after.db.snapshots == map[]
    && after.db.tasks["t"].token == token && after.db.tasks["t"].status == Leased
    && after.db.tasks["t"].expires == Some(now + 1) && after.db.tasks["t"].job == "j"
    && after.db.jobs["j"].status == Running && after.used == w.used + {token}
    && Pc(after, name).Executing? && Pc(after, name).lease.task == "t" && Pc(after, name).lease.token == token
    && Pc(after, name).lease.row.job == "j"
    && forall other | other != name :: Pc(after, other) == Pc(w, other)
  }

  function Claiming(w: World, name: string, token: string, now: int): World
  {
    ClaimStep(w, name, "t", token, now, now + 1)
  }

  function Started(w: World, name: string, l: Lease, now: int): World
  {
    w.(db := StartJob(w.db, l.row.job, now), workers := w.workers[name := Executing(l)])
  }

  lemma Begun(w: World, name: string, token: string, now: int)
    requires Waiting(w, now) && Pc(w, name).Idle? && token != "" && token !in w.used
    ensures Good(Run(w, Begin(name, token, now))) && Executes(w, Run(w, Begin(name, token, now)), name, token, now)
  {
    hide Good, Later, Run, ClaimStep;
    RunKeeps(w, Begin(name, token, now));
    BegunClaim(w, name, token, now);
    BegunRun(w, name, token, now);
    BegunFacts(w, Claiming(w, name, token, now), name, token, now);
    hide Executes, Started, Waiting;
  }

  lemma BegunRun(w: World, name: string, token: string, now: int)
    requires Pc(Claiming(w, name, token, now), name).Claimed?
    requires StartsJob(Claiming(w, name, token, now).db, Pc(Claiming(w, name, token, now), name).lease.row.job)
    ensures Run(w, Begin(name, token, now))
         == Started(Claiming(w, name, token, now), name, Pc(Claiming(w, name, token, now), name).lease, now)
  {
    var events := Begin(name, token, now);
    RunThree(w, events[0], events[1], events[2]);
    StepDispatch(w, name, token, now);
    hide Run, ClaimStep, Step, StartsJob, StartJob;
    BegunStart(Claiming(w, name, token, now), name, now);
  }

  lemma BegunFacts(w: World, one: World, name: string, token: string, now: int)
    requires w.db.tasks.Keys == {"t"} && w.db.jobs.Keys == {"j"} && w.db.snapshots == map[]
    requires w.db.tasks["t"].job == "j" && w.db.jobs["j"].status == Queued
    requires one.db.tasks == w.db.tasks["t" := LeasedRow(w.db.tasks["t"], name, token, now, now + 1)]
    requires one.db.jobs == w.db.jobs && one.db.snapshots == w.db.snapshots && one.used == w.used + {token}
    requires one.workers == w.workers[name := Claimed(Lease("t", token, one.db.tasks["t"]))]
    ensures Pc(one, name).Claimed? && StartsJob(one.db, Pc(one, name).lease.row.job)
    ensures Executes(w, Started(one, name, Pc(one, name).lease, now), name, token, now)
  {
  }

  lemma StepDispatch(w: World, name: string, token: string, now: int)
    ensures Step(w, ClaimEvent(name, "t", token, now, now + 1)) == ClaimStep(w, name, "t", token, now, now + 1)
    ensures Step(w, RequeueEvent(["t"], now)) == RequeueStep(w, ["t"], now)
  {
    hide ClaimStep, RequeueStep, HolderEvent;
  }

  lemma BegunClaim(w: World, name: string, token: string, now: int)
    requires Waiting(w, now) && Pc(w, name).Idle? && token != "" && token !in w.used
    ensures var after := ClaimStep(w, name, "t", token, now, now + 1);
      after.db.tasks == w.db.tasks["t" := LeasedRow(w.db.tasks["t"], name, token, now, now + 1)]
      && after.db.jobs == w.db.jobs && after.db.snapshots == w.db.snapshots && after.used == w.used + {token}
      && after.workers == w.workers[name := Claimed(Lease("t", token, after.db.tasks["t"]))]
  {
    hide HistoryOk, Inv, WorkersOk, TokensUsed, Exact;
    assert Claimable(w.db.tasks, "t", now);
    ClaimKeeps(w.db, "t", name, token, now, now + 1);
    ClaimWrites(w.db, "t", name, token, now, now + 1);
    hide Claims;
    ClaimLeaves(w.db, "t", name, token, now, now + 1);
    hide Claim;
  }

  lemma BegunStart(w: World, name: string, now: int)
    requires Pc(w, name).Claimed? && StartsJob(w.db, Pc(w, name).lease.row.job)
    ensures var l := Pc(w, name).lease;
      Step(Step(w, SetStatusEvent(name, false)), StartEvent(name, now))
        == w.(db := StartJob(w.db, l.row.job, now), workers := w.workers[name := Executing(l)])
  {
    var l := Pc(w, name).lease;
    hide StartsJob, StartJob;
    var one := Step(w, SetStatusEvent(name, false));
    assert one == Move(w, name, Checked(l));
    assert w.workers[name := Checked(l)][name := Executing(l)] == w.workers[name := Executing(l)];
  }

  lemma ClaimLeaves(s: State, t: string, worker: string, token: string, now: int, expires: int)
    ensures Claim(s, t, worker, token, now, expires).snapshots == s.snapshots
    ensures Claim(s, t, worker, token, now, expires).jobs == s.jobs
  {
  }

  /** A reachable world has an orphaned task. */
  lemma StaleCommitOrphans()
    ensures Orphaned(Run(START, STALE_COMMIT), "t")
  {
    hide Run, Step, Good;
    var one := Run(START, SUBMIT);
    Submitted();
    var two := Run(one, Begin("v", "first", 0));
    Begun(one, "v", "first", 0);
    assert Pc(two, "w") == Pc(one, "w") == Idle;
    var three := Step(two, RequeueEvent(["t"], 1));
    Recovered(two);
    assert Pc(three, "w") == Pc(two, "w") && Pc(three, "v") == Pc(two, "v");
    var four := Run(three, Begin("w", "second", 1));
    Begun(three, "w", "second", 1);
    forall name ensures !Pc(four, name).Delivered? && !Pc(four, name).Completing? {
      if name != "v" && name != "w" {
        assert Pc(four, name) == Pc(three, name) == Pc(two, name) == Pc(one, name) == Idle;
      }
    }
    LateCommit(four);
    RunOne(two, RequeueEvent(["t"], 1));
    RunOne(four, CommitEvent("v", IMAGE));
    RunAppend(START, SUBMIT, Begin("v", "first", 0));
    RunAppend(START, SUBMIT + Begin("v", "first", 0), [RequeueEvent(["t"], 1)]);
    RunAppend(START, SUBMIT + Begin("v", "first", 0) + [RequeueEvent(["t"], 1)], Begin("w", "second", 1));
    RunAppend(START, SUBMIT + Begin("v", "first", 0) + [RequeueEvent(["t"], 1)] + Begin("w", "second", 1), [CommitEvent("v", IMAGE)]);
  }

  lemma Recovered(w: World)
    requires Good(w) && w.db.tasks.Keys == {"t"} && w.db.jobs.Keys == {"j"} && w.db.snapshots == map[]
    requires w.db.tasks["t"].status == Leased && w.db.tasks["t"].expires == Some(1) && w.db.tasks["t"].job == "j"
    requires w.db.jobs["j"].status == Running
    ensures var after := Step(w, RequeueEvent(["t"], 1));
      Waiting(after, 1) && after.workers == w.workers && after.used == w.used
  {
    hide Good, Later, Step, RequeueStep, RequeueOne, Unstart;
    StepKeeps(w, RequeueEvent(["t"], 1));
    StepDispatch(w, "", "", 1);
    RecoveredStep(w);
    RequeueWrites(w.db, "t", 1);
    RecoveredJob(w.db.jobs);
  }

  lemma RecoveredJob(jobs: map<string, Job>)
    requires jobs.Keys == {"j"} && jobs["j"].status == Running
    ensures Unstart(jobs, "j").Keys == {"j"} && Unstart(jobs, "j")["j"].status == Queued
  {
  }

  lemma RecoveredStep(w: World)
    requires "t" in w.db.tasks && w.db.tasks.Keys == {"t"}
    requires w.db.tasks["t"].status == Leased && w.db.tasks["t"].expires == Some(1)
    ensures RequeueStep(w, ["t"], 1).db == RequeueOne(w.db, "t", 1)
    ensures RequeueStep(w, ["t"], 1).workers == w.workers && RequeueStep(w, ["t"], 1).used == w.used
  {
    assert Expired(w.db.tasks, 1) == {"t"};
    hide Expired;
    RequeueSingle(w.db, "t", 1);
    hide RequeueAll, RequeueOne;
  }

  lemma RequeueSingle(s: State, t: string, now: int)
    requires t in s.tasks
    ensures RequeueAll(s, [t], now) == RequeueOne(s, t, now)
  {
    assert [t][..0] == [] && RequeueAll(s, [], now) == s;
    hide RequeueOne;
  }

  lemma RequeueWrites(s: State, t: string, now: int)
    requires t in s.tasks
    ensures var after := RequeueOne(s, t, now);
      after.tasks == s.tasks[t := Released(s.tasks[t]).(status := Queued, errorCode := "WORKER_INTERRUPTED", availableAt := now)]
      && after.jobs == Unstart(s.jobs, s.tasks[t].job) && after.snapshots == s.snapshots
  {
    hide EndAttempts, Recounted, Unstart;
  }

  lemma LateCommit(w: World)
    requires Good(w) && w.db.tasks.Keys == {"t"} && w.db.jobs.Keys == {"j"} && w.db.snapshots == map[]
    requires w.db.tasks["t"].token == "second" && w.db.tasks["t"].status == Leased && w.db.tasks["t"].job == "j"
    requires w.db.jobs["j"].status == Running
    requires Pc(w, "v").Executing? && Pc(w, "v").lease.token == "first" && Pc(w, "v").lease.row.job == "j"
    requires forall name :: !Pc(w, name).Delivered? && !Pc(w, name).Completing?
    ensures Orphaned(Step(w, CommitEvent("v", IMAGE)), "t")
  {
    hide Good;
    assert SnapshotId("j") == "snapshot-j";
    assert Commits(w.db, "snapshot-j", IMAGE);
    var after := Step(w, CommitEvent("v", IMAGE));
    forall name | name in after.workers && name != "v" ensures after.workers[name] == Pc(w, name) {}
  }
}
