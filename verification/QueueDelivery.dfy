/** Between a job's success and its task's: when the task can still follow, and exactly which steps make sure it cannot. */
module QueueDelivery {
  import opened Tables
  import opened QueueSpec
  import opened QueueInvariants
  import opened QueueRuns
  import opened QueueTheorems
  import opened QueueSafety
  import opened QueueOrphans

  /** The job has succeeded and the task has not. */
  ghost predicate Behind(w: World, t: string)
  {
    t in w.db.tasks && w.db.tasks[t].status != Succeeded
    && w.db.tasks[t].job in w.db.jobs && w.db.jobs[w.db.tasks[t].job].status == Succeeded
  }

  /** A worker on its way to completing t that holds t's current lease. */
  ghost predicate Delivers(w: World, name: string, t: string)
  {
    name in w.workers && (w.workers[name].Delivered? || w.workers[name].Completing?)
    && t in w.db.tasks && w.workers[name].lease.task == t && w.workers[name].lease.token == w.db.tasks[t].token
  }

  lemma OrphanedIs(w: World, t: string)
    ensures Orphaned(w, t) <==> Behind(w, t) && forall name :: !Delivers(w, name, t)
  {
    if Behind(w, t) && forall name :: !Delivers(w, name, t) {
      forall name | name in w.workers && (w.workers[name].Delivered? || w.workers[name].Completing?) && w.workers[name].lease.task == t
        ensures w.workers[name].lease.token != w.db.tasks[t].token
      {
        assert !Delivers(w, name, t);
      }
    }
  }

  // ---------------------------------------------------------------- a task with such a worker can still succeed

  lemma LookupMoves(w: World, name: string)
    requires Good(w) && Pc(w, name).Delivered?
    ensures var l := Pc(w, name).lease;
      l.row.job in w.db.jobs
      && Step(w, LookupEvent(name)) == Move(w, name, Completing(l, w.db.jobs[l.row.job].snapshot))
  {
    hide Good, LeaseKnown;
    PcOk(w, name);
  }

  lemma CompletionSucceeds(w: World, name: string)
    requires Pc(w, name).Completing? && Holds(w.db, Pc(w, name).lease.task, Pc(w, name).lease.token)
    ensures var t := Pc(w, name).lease.task; var after := Step(w, CompleteEvent(name, 0, true));
      t in after.db.tasks && after.db.tasks[t].status == Succeeded
  {
    hide Recounted, EndAttempts;
  }

  lemma DeliveryCanFinish(w: World, name: string, t: string) returns (events: seq<Event>)
    requires Good(w) && Delivers(w, name, t)
    ensures t in Run(w, events).db.tasks && Run(w, events).db.tasks[t].status == Succeeded
  {
    hide Good, Step;
    if w.workers[name].Delivered? {
      LookupMoves(w, name);
      events := [LookupEvent(name), CompleteEvent(name, 0, true)];
      assert events[..1] == [LookupEvent(name)] && events[..1][..0] == [];
      assert Run(w, events[..1]) == Step(Run(w, []), LookupEvent(name));
      CompletionSucceeds(Step(w, LookupEvent(name)), name);
    } else {
      events := [CompleteEvent(name, 0, true)];
      assert events[..0] == [];
      CompletionSucceeds(w, name);
    }
  }

  /** A task whose job has succeeded is orphaned exactly when no continuation at all makes the task succeed. */
  lemma OrphanedExactly(w: World, t: string)
    requires Good(w) && Behind(w, t)
    ensures Orphaned(w, t) <==> forall events :: NotSucceeded(Run(w, events).db, t)
  {
    OrphanedIs(w, t);
    if Orphaned(w, t) {
      forall events ensures NotSucceeded(Run(w, events).db, t) {
        OrphansNeverSucceed(w, events, t);
      }
    } else {
      var name :| Delivers(w, name, t);
      hide Good, Orphaned, Delivers, Run, Behind;
      var events := DeliveryCanFinish(w, name, t);
      assert !NotSucceeded(Run(w, events).db, t);
    }
  }

  // ---------------------------------------------------------------- one holder per token

  /** No two workers hold the same token. */
  ghost predicate Sole(w: World)
  {
    forall a, b | a in w.workers && b in w.workers && a != b && !w.workers[a].Idle? && !w.workers[b].Idle? ::
      w.workers[a].lease.token != w.workers[b].lease.token
  }

  /** The step moves at most its own worker, which held a lease and keeps it or becomes idle. */
  ghost predicate MovesOne(w: World, e: Event, r: map<string, Worker>)
    requires HolderEvent(e)
  {
    r == w.workers
    || (e.name in r && r == w.workers[e.name := r[e.name]] && !Pc(w, e.name).Idle?
        && (r[e.name].Idle? || r[e.name].lease == Pc(w, e.name).lease))
  }

  lemma QuietMoves(w: World, e: Event)
    requires Quiet(e)
    ensures MovesOne(w, e, WorkerStep(w, e).workers)
  {
    hide StartJob, StartsJob, CommitSnapshot, Commits, FailJob, SnapshotId;
  }

  lemma LoudMoves(w: World, e: Event)
    requires HolderEvent(e) && !Quiet(e)
    ensures MovesOne(w, e, WorkerStep(w, e).workers)
  {
    VerdictKeepsWorkers(w);
    hide SetStatus, Heartbeat, PausePlanStep, PausesPlan, FinishStep, VerdictStep, Complete;
  }

  lemma HolderMoves(w: World, e: Event)
    requires HolderEvent(e)
    ensures MovesOne(w, e, WorkerStep(w, e).workers)
  {
    hide MovesOne, WorkerStep;
    if Quiet(e) { QuietMoves(w, e); } else { LoudMoves(w, e); }
  }

  /** A lease a worker holds after a step it held before, or it claimed it in this step under a token never used. */
  lemma LeaseOrigin(w: World, e: Event, name: string)
    requires name in Step(w, e).workers && !Step(w, e).workers[name].Idle?
    ensures (name in w.workers && !w.workers[name].Idle? && w.workers[name].lease == Step(w, e).workers[name].lease)
      || (e.ClaimEvent? && e.name == name && Pc(w, name).Idle? && Step(w, e).workers[name].lease.token == e.token && e.token !in w.used)
  {
    if HolderEvent(e) { HolderMoves(w, e); }
    hide HolderEvent, AddTask, CancelTaskRow, Reset, RequeueAll, Expired, UpdatePlan, PausePlan, DropQueued, Claim, First, Resets,
      AddsTask, WorkerStep, TableStep;
  }

  lemma HeldTokenIsUsed(w: World, name: string)
    requires Good(w) && name in w.workers && !w.workers[name].Idle?
    ensures w.workers[name].lease.token in w.used && w.workers[name].lease.token != ""
  {
    hide Inv, HistoriesOk, TokensUsed;
    assert WorkerOk(w.db.tasks, w.db.jobs, w.used, w.workers[name]);
  }

  lemma SoleStep(w: World, e: Event)
    requires Good(w) && Sole(w)
    ensures Sole(Step(w, e))
  {
    var after := Step(w, e);
    hide Good, Step;
    forall a, b | a in after.workers && b in after.workers && a != b && !after.workers[a].Idle? && !after.workers[b].Idle?
      ensures after.workers[a].lease.token != after.workers[b].lease.token
    {
      LeaseOrigin(w, e, a);
      LeaseOrigin(w, e, b);
      if a in w.workers && !w.workers[a].Idle? { HeldTokenIsUsed(w, a); }
      if b in w.workers && !w.workers[b].Idle? { HeldTokenIsUsed(w, b); }
    }
  }

  lemma {:induction false} ReachableIsSole(events: seq<Event>)
    ensures Sole(Run(START, events))
  {
    if events != [] {
      var init := events[..|events| - 1];
      ReachableIsSole(init);
      ReachableIsGood(init);
      hide Good, Sole, Step;
      SoleStep(Run(START, init), events[|events| - 1]);
    }
  }

  // ---------------------------------------------------------------- only a commit makes a job succeed

  /** Every job that has succeeded after had succeeded before. */
  ghost predicate NoneSucceeds(a: map<string, Job>, b: map<string, Job>)
  {
    forall j | j in b && b[j].status == Succeeded :: j in a && a[j].status == Succeeded
  }

  lemma TableNoneSucceeds(s: State, e: Event)
    ensures NoneSucceeds(s.jobs, TableStep(s, e).jobs)
  {
    hide CreatesBatch, CreateBatch, NewBatch, Busy, TrashSnapshot, PurgeSnapshots;
    BatchJobs(s, e);
  }

  lemma BatchJobs(s: State, e: Event)
    ensures e.CreateBatchEvent? ==> CreateBatch(s, e.id, e.batch).jobs == s.jobs
    ensures e.TrashEvent? ==> TrashSnapshot(s, e.id, e.path, e.now).jobs == s.jobs
    ensures e.PurgeEvent? ==> PurgeSnapshots(s, e.now).jobs == s.jobs
  {
    hide CreatesBatch;
  }

  lemma ReopenNoneSucceeds(jobs: map<string, Job>, j: string, clearStart: bool)
    ensures NoneSucceeds(jobs, Reopen(jobs, j, clearStart)) && NoneSucceeds(jobs, Unstart(jobs, j))
  {
  }

  lemma RetryNoneSucceeds(s: State, t: string, token: string, code: string, at: int, now: int)
    ensures NoneSucceeds(s.jobs, Retry(s, t, token, code, at, now).jobs)
  {
    if t in s.tasks { ReopenNoneSucceeds(s.jobs, s.tasks[t].job, false); }
    hide EndAttempts, Recounted, ReopenBlocked, Reopen;
  }

  lemma ResetNoneSucceeds(s: State, t: string, now: int)
    ensures NoneSucceeds(s.jobs, Reset(s, t, now).jobs)
  {
    if t in s.tasks { ReopenNoneSucceeds(s.jobs, s.tasks[t].job, true); }
    hide Recounted, ReopenBlocked, Reopen;
  }

  lemma EndNoneSucceeds(s: State, p: string, row: Plan, cancelQueued: bool, now: int)
    ensures NoneSucceeds(s.jobs, UpdatePlan(s, p, row, cancelQueued, now).jobs) && NoneSucceeds(s.jobs, PausePlan(s, p, now).jobs)
  {
    hide ValidTargets;
  }

  lemma RequeueOneNoneSucceeds(s: State, t: string, now: int)
    requires t in s.tasks
    ensures NoneSucceeds(s.jobs, RequeueOne(s, t, now).jobs)
  {
    ReopenNoneSucceeds(s.jobs, s.tasks[t].job, false);
    hide EndAttempts, Recounted, Unstart, NoneSucceeds;
  }

  lemma NoneThenNone(a: map<string, Job>, b: map<string, Job>, c: map<string, Job>)
    requires NoneSucceeds(a, b) && NoneSucceeds(b, c)
    ensures NoneSucceeds(a, c)
  {
  }

  lemma {:induction false} RequeueNoneSucceeds(s: State, items: seq<string>, now: int)
    requires forall t :: t in items ==> t in s.tasks
    ensures NoneSucceeds(s.jobs, RequeueAll(s, items, now).jobs)
  {
    hide NoneSucceeds, RequeueOne;
    if items == [] {
      NoneIsNone(s.jobs);
    } else {
      var mid, last := RequeueAll(s, items[..|items| - 1], now), items[|items| - 1];
      RequeueNoneSucceeds(s, items[..|items| - 1], now);
      RequeueOneNoneSucceeds(mid, last, now);
      NoneThenNone(s.jobs, mid.jobs, RequeueOne(mid, last, now).jobs);
    }
  }

  lemma GuardedSameJobs(s: State, t: string, token: string)
    ensures forall snapshot, now :: Complete(s, t, token, snapshot, now).jobs == s.jobs
    ensures forall status, code, now :: FinishFailure(s, t, token, status, code, now).jobs == s.jobs
    ensures forall status :: SetStatus(s, t, token, status).jobs == s.jobs
    ensures forall now, expires :: Heartbeat(s, t, token, now, expires).jobs == s.jobs
  {
    hide EndAttempts, Recounted;
  }

  lemma VerdictNoneSucceeds(w: World, l: Lease, code: string, now: int)
    ensures NoneSucceeds(w.db.jobs, VerdictStep(w, l, code, now).db.jobs)
  {
    hide Retry, FinishFailure, Retries, Retryable, Factor, Base;
    GuardedSameJobs(w.db, l.task, l.token);
    if 1 <= l.row.attemptCount { RetryNoneSucceeds(w.db, l.task, l.token, code, now + Wait(l.row, l.row.attemptCount), now); }
  }

  /** The event is a commit that is not refused, by a worker of job j. */
  ghost predicate CommitsJob(w: World, e: Event, j: string)
  {
    e.CommitEvent? && Pc(w, e.name).Executing? && Pc(w, e.name).lease.row.job == j && e.snapshot.job == j
    && Commits(w.db, SnapshotId(j), e.snapshot)
  }

  lemma VerdictEventNoneSucceeds(w: World, e: Event)
    requires e.VerdictEvent?
    ensures NoneSucceeds(w.db.jobs, WorkerStep(w, e).db.jobs)
  {
    VerdictForm(w, e);
    var pc := Pc(w, e.name);
    hide WorkerStep, FinishFailure, VerdictStep;
    if pc.Faulted? || pc.Deciding? {
      GuardedSameJobs(w.db, pc.lease.task, pc.lease.token);
      VerdictNoneSucceeds(w, pc.lease, pc.code, e.now);
    }
  }

  lemma GuardedNoneSucceeds(w: World, e: Event)
    requires e.SetStatusEvent? || e.HeartbeatEvent? || e.CompleteEvent?
    ensures NoneSucceeds(w.db.jobs, WorkerStep(w, e).db.jobs)
  {
    hide Complete, SetStatus, Heartbeat;
    var pc := Pc(w, e.name);
    if !pc.Idle? { GuardedSameJobs(w.db, pc.lease.task, pc.lease.token); }
  }

  lemma PauseNoneSucceeds(w: World, e: Event)
    requires e.PauseOwnPlanEvent?
    ensures NoneSucceeds(w.db.jobs, WorkerStep(w, e).db.jobs)
  {
    var pc := Pc(w, e.name);
    if !pc.Idle? { EndNoneSucceeds(w.db, pc.lease.row.plan, NOPLAN, false, e.now); }
    hide PausePlan, PausesPlan, DropQueued;
  }

  lemma JobEventNoneSucceeds(w: World, e: Event)
    requires Quiet(e) && !e.CommitEvent?
    ensures NoneSucceeds(w.db.jobs, WorkerStep(w, e).db.jobs)
  {
  }

  lemma HolderNoneSucceeds(w: World, e: Event)
    requires HolderEvent(e) && !e.CommitEvent?
    ensures NoneSucceeds(w.db.jobs, WorkerStep(w, e).db.jobs)
  {
    hide WorkerStep, NoneSucceeds;
    if Quiet(e) { JobEventNoneSucceeds(w, e); }
    else if e.VerdictEvent? { VerdictEventNoneSucceeds(w, e); }
    else if e.PauseOwnPlanEvent? { PauseNoneSucceeds(w, e); }
    else { GuardedNoneSucceeds(w, e); }
  }

  lemma CommitOnlyItsJob(w: World, e: Event, j: string)
    requires e.CommitEvent? && j in Step(w, e).db.jobs && Step(w, e).db.jobs[j].status == Succeeded
    ensures CommitsJob(w, e, j) || (j in w.db.jobs && w.db.jobs[j].status == Succeeded)
  {
    hide Commits, SnapshotId;
  }

  lemma SucceedsOnlyByCommit(w: World, e: Event, j: string)
    requires j in Step(w, e).db.jobs && Step(w, e).db.jobs[j].status == Succeeded
    ensures CommitsJob(w, e, j) || (j in w.db.jobs && w.db.jobs[j].status == Succeeded)
  {
    if e.CommitEvent? { CommitOnlyItsJob(w, e, j); return; }
    hide CommitsJob;
    JobsAtRest(w, e);
    hide Step;
  }

  lemma JobsAtRest(w: World, e: Event)
    requires !e.CommitEvent?
    ensures NoneSucceeds(w.db.jobs, Step(w, e).db.jobs)
  {
    if e.RequeueEvent? {
      if forall t | t in e.items :: t in Expired(w.db.tasks, e.now) { RequeueNoneSucceeds(w.db, e.items, e.now); }
      hide RequeueAll;
    } else {
      NotRequeued(w, e);
    }
  }

  lemma NotRequeued(w: World, e: Event)
    requires !e.CommitEvent? && !e.RequeueEvent?
    ensures NoneSucceeds(w.db.jobs, Step(w, e).db.jobs)
  {
    NoneIsNone(w.db.jobs);
    ClaimedJobs(w, e);
    AddedJobs(w, e);
    hide NoneSucceeds, Reset, UpdatePlan, PausePlan, WorkerStep, TableStep, DropQueued, Claim, First, AddTask, AddsTask, CancelTaskRow,
      RequeueAll, Resets;
    if e.ResetEvent? { ResetNoneSucceeds(w.db, e.id, e.now); }
    else if e.EditPlanEvent? { EndNoneSucceeds(w.db, e.id, e.plan, e.cancelQueued, e.now); }
    else if e.PausePlanEvent? { EndNoneSucceeds(w.db, e.id, NOPLAN, false, e.now); }
    else if HolderEvent(e) { HolderNoneSucceeds(w, e); }
    else { TableNoneSucceeds(w.db, e); }
  }

  lemma NoneIsNone(jobs: map<string, Job>)
    ensures NoneSucceeds(jobs, jobs)
  {
  }

  lemma ClaimedJobs(w: World, e: Event)
    ensures e.ClaimEvent? ==> Claim(w.db, e.id, e.name, e.token, e.now, e.expires).jobs == w.db.jobs
  {
    hide Recounted;
  }

  lemma AddedJobs(w: World, e: Event)
    ensures e.AddTaskEvent? ==> AddTask(w.db, e.id, e.task, e.now).jobs == w.db.jobs
    ensures e.CancelTaskEvent? ==> CancelTaskRow(w.db, e.id, e.now).jobs == w.db.jobs
  {
    hide Recounted, AddsTask;
  }

  // ---------------------------------------------------------------- what the holder's row and counter survive

  lemma GuardedElsewhere(s: State, u: string, token: string, t: string)
    requires t in s.tasks && s.tasks[t].token != token
    ensures forall snapshot, now :: Keeps(s, Complete(s, u, token, snapshot, now), t)
    ensures forall status, code, now :: Keeps(s, FinishFailure(s, u, token, status, code, now), t)
    ensures forall status :: Keeps(s, SetStatus(s, u, token, status), t)
    ensures forall now, expires :: Keeps(s, Heartbeat(s, u, token, now, expires), t)
  {
    hide EndAttempts, Recounted, Released;
  }

  lemma RetryElsewhere(s: State, u: string, token: string, code: string, at: int, now: int, t: string)
    requires t in s.tasks && s.tasks[t].token != token
    ensures Keeps(s, Retry(s, u, token, code, at, now), t)
  {
    hide EndAttempts, Recounted, Released, ReopenBlocked, Reopen;
  }

  lemma VerdictElsewhere(w: World, l: Lease, code: string, now: int, t: string)
    requires t in w.db.tasks && w.db.tasks[t].token != l.token
    ensures Keeps(w.db, VerdictStep(w, l, code, now).db, t)
  {
    hide Retry, FinishFailure, Retries, Retryable, Factor, Base;
    GuardedElsewhere(w.db, l.task, l.token, t);
    if 1 <= l.row.attemptCount {
      RetryElsewhere(w.db, l.task, l.token, code, now + Wait(l.row, l.row.attemptCount), now, t);
    }
  }

  lemma VerdictRowElsewhere(w: World, e: Event, t: string)
    requires e.VerdictEvent? && t in w.db.tasks && (!Pc(w, e.name).Idle? ==> Pc(w, e.name).lease.token != w.db.tasks[t].token)
    ensures Keeps(w.db, WorkerStep(w, e).db, t)
  {
    VerdictForm(w, e);
    var pc := Pc(w, e.name);
    hide WorkerStep, FinishFailure, VerdictStep;
    if !pc.Idle? {
      GuardedElsewhere(w.db, pc.lease.task, pc.lease.token, t);
      if pc.Faulted? || pc.Deciding? { VerdictElsewhere(w, pc.lease, pc.code, e.now, t); }
    }
  }

  lemma GuardedRowElsewhere(w: World, e: Event, t: string)
    requires (e.SetStatusEvent? || e.HeartbeatEvent? || e.CompleteEvent?) && t in w.db.tasks
    requires !Pc(w, e.name).Idle? ==> Pc(w, e.name).lease.token != w.db.tasks[t].token
    ensures Keeps(w.db, WorkerStep(w, e).db, t)
  {
    hide Complete, SetStatus, Heartbeat;
    var pc := Pc(w, e.name);
    if !pc.Idle? { GuardedElsewhere(w.db, pc.lease.task, pc.lease.token, t); }
  }

  lemma PauseRowElsewhere(w: World, e: Event, t: string)
    requires e.PauseOwnPlanEvent? && t in w.db.tasks && w.db.tasks[t].status != Queued
    ensures Keeps(w.db, WorkerStep(w, e).db, t)
  {
    hide PausePlanStep, PausesPlan;
    var pc := Pc(w, e.name);
    if !pc.Idle? { EndQueuedKeepsEnded(w, pc.lease.row.plan, NOPLAN, false, e.now, t); }
  }

  /** A worker under another token leaves a leased row alone. */
  lemma OtherWorkerKeeps(w: World, e: Event, t: string)
    requires HolderEvent(e) && t in w.db.tasks && w.db.tasks[t].status != Queued
    requires !Pc(w, e.name).Idle? ==> Pc(w, e.name).lease.token != w.db.tasks[t].token
    ensures Keeps(w.db, WorkerStep(w, e).db, t)
  {
    hide WorkerStep;
    if Quiet(e) { QuietHolder(w, e); }
    else if e.VerdictEvent? { VerdictRowElsewhere(w, e, t); }
    else if e.PauseOwnPlanEvent? { PauseRowElsewhere(w, e, t); }
    else { GuardedRowElsewhere(w, e, t); }
  }

  /** A recovery that takes place: the listed tasks are exactly those whose lease has expired. */
  predicate Recovers(w: World, e: Event)
  {
    e.RequeueEvent? && (forall i, j | 0 <= i < j < |e.items| :: e.items[i] != e.items[j])
    && (forall t | t in e.items :: t in Expired(w.db.tasks, e.now)) && forall t | t in Expired(w.db.tasks, e.now) :: t in e.items
  }

  lemma RequeueElsewhere(w: World, e: Event, t: string)
    requires e.RequeueEvent? && t in w.db.tasks && !(Recovers(w, e) && t in e.items)
    ensures Keeps(w.db, Step(w, e).db, t)
  {
    hide RequeueAll, Expired;
    if Recovers(w, e) {
      ExpiredAreTasks(w.db.tasks, e.now);
      RequeueAllRows(w.db, e.items, e.now);
    }
  }

  lemma ExpiredAreTasks(tasks: map<string, Task>, now: int)
    ensures forall t | t in Expired(tasks, now) :: t in tasks
  {
  }

  lemma ResetElsewhere(w: World, id: string, now: int, t: string)
    requires t in w.db.tasks && w.db.tasks[t].status != Queued && !Reopenable(w.db.tasks[t].status)
    ensures Keeps(w.db, ResetStep(w, id, now).db, t)
  {
    if id == t {
      hide ReopenBlocked;
    } else {
      OtherQueueStepsKeep(w, id, now, t);
      hide ResetStep;
    }
  }

  lemma HeldRowIsLeased(w: World, name: string, t: string)
    requires Good(w) && Delivers(w, name, t)
    ensures InLease(w.db.tasks[t].status) && w.db.tasks[t].status != Queued && !Reopenable(w.db.tasks[t].status)
  {
    HeldTokenIsUsed(w, name);
    hide Inv, WorkersOk, TokensUsed, HistoriesOk;
    RowFacts(w.db, t);
    LeaseStatuses(w.db.tasks[t]);
    hide LeaseOk, AttemptsOk, DeliveryOk;
  }

  /** The worker an event belongs to, if any. */
  predicate By(e: Event, name: string)
  {
    (HolderEvent(e) || e.ClaimEvent? || e.CrashEvent?) && e.name == name
  }

  lemma OthersKeepCounter(w: World, e: Event, name: string)
    requires name in w.workers && !By(e, name)
    ensures name in Step(w, e).workers && Step(w, e).workers[name] == w.workers[name]
  {
    if HolderEvent(e) { HolderMoves(w, e); }
    hide HolderEvent, AddTask, CancelTaskRow, Reset, RequeueAll, Expired, UpdatePlan, PausePlan, DropQueued, Claim, First, Resets,
      AddsTask, WorkerStep, TableStep;
  }

  lemma OtherHoldersToken(w: World, e: Event, name: string, t: string)
    requires Sole(w) && Delivers(w, name, t) && HolderEvent(e) && e.name != name
    ensures !Pc(w, e.name).Idle? ==> Pc(w, e.name).lease.token != w.db.tasks[t].token
  {
  }

  lemma OthersKeepRow(w: World, e: Event, name: string, t: string)
    requires Good(w) && Sole(w) && Delivers(w, name, t) && !By(e, name) && !(Recovers(w, e) && t in e.items)
    ensures Keeps(w.db, Step(w, e).db, t)
  {
    HeldRowIsLeased(w, name, t);
    assert t in w.db.tasks;
    if e.RequeueEvent? {
      hide Good, Sole, Delivers, Step, Recovers;
      RequeueElsewhere(w, e, t);
    } else {
      if HolderEvent(e) { OtherHoldersToken(w, e, name, t); }
      hide Recovers, Sole, Delivers, Reopenable, InLease;
      TableStepKeepsTasks(w.db, e);
      hide Good, AddTaskStep, CancelTaskStep, ResetStep, RequeueStep, EditPlanStep, PausePlanStep, ClaimStep, WorkerStep, TableStep;
      if e.AddTaskEvent? { CreatingKeeps(w, e.id, e.task, e.now, t); }
      else if e.CancelTaskEvent? { OtherQueueStepsKeep(w, e.id, e.now, t); }
      else if e.ResetEvent? { ResetElsewhere(w, e.id, e.now, t); }
      else if e.EditPlanEvent? { EndQueuedKeepsEnded(w, e.id, e.plan, e.cancelQueued, e.now, t); }
      else if e.PausePlanEvent? { EndQueuedKeepsEnded(w, e.id, NOPLAN, false, e.now, t); }
      else if e.ClaimEvent? { ClaimKeepsEnded(w, e.name, e.id, e.token, e.now, e.expires, t); }
      else if HolderEvent(e) { OtherWorkerKeeps(w, e, t); }
    }
  }

  /** Once its job is delivered a worker makes no other step than these three. */
  lemma NoOtherOwnStep(w: World, e: Event)
    requires (HolderEvent(e) || e.ClaimEvent?) && !e.LookupEvent? && !e.CompleteEvent? && !e.HeartbeatEvent?
    requires Pc(w, e.name).Delivered? || Pc(w, e.name).Completing?
    ensures Step(w, e) == w
  {
    hide SetStatus, StartJob, StartsJob, CommitSnapshot, Commits, FailJob, PausePlanStep, PausesPlan, FinishStep, VerdictStep, Claim, First;
  }

  lemma PcIs(w: World, name: string, t: string)
    requires Delivers(w, name, t)
    ensures name in w.workers && Pc(w, name) == w.workers[name] && (Pc(w, name).Delivered? || Pc(w, name).Completing?)
    ensures Pc(w, name).lease.task == t && Holds(w.db, t, Pc(w, name).lease.token)
  {
  }

  lemma OwnLookup(w: World, name: string, t: string)
    requires Good(w) && Delivers(w, name, t)
    ensures Delivers(Step(w, LookupEvent(name)), name, t)
  {
    hide Good, Step;
    if Pc(w, name).Delivered? { LookupMoves(w, name); } else { LateLookup(w, name); }
  }

  lemma LateLookup(w: World, name: string)
    requires Pc(w, name).Completing?
    ensures Step(w, LookupEvent(name)) == w
  {
  }

  /** Its own steps, short of dying or losing the final call, bring the holder to the end or leave it on its way. */
  lemma OwnStepDelivers(w: World, e: Event, name: string, t: string)
    requires Good(w) && Delivers(w, name, t) && By(e, name) && !e.CrashEvent? && !(e.CompleteEvent? && !e.ok)
    ensures Delivers(Step(w, e), name, t) || !NotSucceeded(Step(w, e).db, t)
  {
    PcIs(w, name, t);
    hide Good, Step;
    if e.LookupEvent? {
      OwnLookup(w, name, t);
      assert e == LookupEvent(name);
    } else if e.CompleteEvent? {
      if Pc(w, name).Completing? { OwnCompletion(w, e); } else { EarlyCompletion(w, e); }
    } else if e.HeartbeatEvent? {
      OwnHeartbeat(w, e);
    } else {
      NoOtherOwnStep(w, e);
    }
  }

  lemma EarlyCompletion(w: World, e: Event)
    requires e.CompleteEvent? && Pc(w, e.name).Delivered?
    ensures Step(w, e) == w
  {
  }

  lemma OwnCompletion(w: World, e: Event)
    requires e.CompleteEvent? && e.ok && Pc(w, e.name).Completing? && Holds(w.db, Pc(w, e.name).lease.task, Pc(w, e.name).lease.token)
    ensures !NotSucceeded(Step(w, e).db, Pc(w, e.name).lease.task)
  {
    hide Recounted, EndAttempts;
  }

  lemma OwnHeartbeat(w: World, e: Event)
    requires e.HeartbeatEvent? && !Pc(w, e.name).Idle? && Pc(w, e.name).lease.task in w.db.tasks
    ensures Step(w, e).workers == w.workers
    ensures var t := Pc(w, e.name).lease.task; t in Step(w, e).db.tasks && Step(w, e).db.tasks[t].token == w.db.tasks[t].token
  {
  }

  // ---------------------------------------------------------------- the steps that orphan a task

  /** A commit of t's job by a worker that does not hold t's current lease. */
  ghost predicate CommitsWithoutLease(w: World, e: Event, t: string)
    requires t in w.db.tasks
  {
    CommitsJob(w, e, w.db.tasks[t].job)
    && !(Pc(w, e.name).lease.task == t && Pc(w, e.name).lease.token == w.db.tasks[t].token)
  }

  /** The worker that would complete t dies, or its last call to the database fails. A failed lookup of the job ends its
      work as a crash does. */
  ghost predicate LosesDelivery(w: World, e: Event, t: string)
  {
    Behind(w, t) && ((e.CrashEvent? && Delivers(w, e.name, t)) || (e.CompleteEvent? && !e.ok && Pc(w, e.name).Completing? && Delivers(w, e.name, t)))
  }

  /** The lease of t is recovered although its job has succeeded. */
  ghost predicate RecoversDelivered(w: World, e: Event, t: string)
  {
    Behind(w, t) && Recovers(w, e) && t in e.items
  }

  lemma LossEffect(w: World, e: Event)
    requires e.CrashEvent? || (e.CompleteEvent? && !e.ok && Pc(w, e.name).Completing?)
    ensures Step(w, e) == Move(w, e.name, Idle)
  {
  }

  lemma NobodyElse(w: World, name: string, t: string)
    requires Sole(w) && Delivers(w, name, t)
    ensures forall other :: !Delivers(Move(w, name, Idle), other, t)
  {
    forall other ensures !Delivers(Move(w, name, Idle), other, t) {
      if other in w.workers && other != name && !w.workers[other].Idle? { assert w.workers[other].lease.token != w.workers[name].lease.token; }
    }
  }

  lemma LostDeliveryOrphans(w: World, e: Event, t: string)
    requires Good(w) && Sole(w) && LosesDelivery(w, e, t)
    ensures Orphaned(Step(w, e), t)
  {
    LossEffect(w, e);
    NobodyElse(w, e.name, t);
    assert Behind(Move(w, e.name, Idle), t);
    hide Good, Sole, Step, Delivers, Behind;
    OrphanedIs(Move(w, e.name, Idle), t);
  }

  lemma RecoveredRow(w: World, e: Event, t: string)
    requires Recovers(w, e) && t in e.items
    ensures t in Step(w, e).db.tasks && Step(w, e).db.tasks[t].token == "" && Step(w, e).db.tasks[t].status == Queued
  {
    ExpiredAreTasks(w.db.tasks, e.now);
    hide Expired;
    RequeueAllRows(w.db, e.items, e.now);
    hide RequeueAll;
  }

  /** Nobody delivers a task without a lease. */
  lemma NobodyDelivers(w: World, t: string)
    requires Good(w) && t in w.db.tasks && w.db.tasks[t].token == ""
    ensures forall name :: !Delivers(w, name, t)
  {
    hide Good;
    forall name ensures !Delivers(w, name, t) {
      if name in w.workers && !w.workers[name].Idle? { HeldTokenIsUsed(w, name); }
    }
  }

  lemma RecoveryOrphans(w: World, e: Event, t: string)
    requires Good(w) && RecoversDelivered(w, e, t)
    ensures Orphaned(Step(w, e), t)
  {
    hide Good, Step, Later, Behind, Delivers, Recovers;
    StepKeeps(w, e);
    RecoveredRow(w, e, t);
    NobodyDelivers(Step(w, e), t);
    StaysBehind(w, Step(w, e), t);
    OrphanedIs(Step(w, e), t);
  }

  lemma StaysBehind(w: World, after: World, t: string)
    requires Behind(w, t) && Later(w, after) && NotSucceeded(after.db, t)
    ensures Behind(after, t)
  {
    hide Fenced;
  }

  /** A commit orphans a task of its job exactly when the committing worker does not hold the task's current lease. */
  lemma CommitOrphansExactly(w: World, e: Event, t: string)
    requires Good(w) && t in w.db.tasks && CommitsJob(w, e, w.db.tasks[t].job)
    ensures Behind(Step(w, e), t)
    ensures Orphaned(Step(w, e), t) <==> CommitsWithoutLease(w, e, t)
  {
    hide Good, Step;
    CommitEffect(w, e, w.db.tasks[t].job);
    NotYetDelivered(w, t);
    OnlyCommitterDelivers(w, Step(w, e), e, t);
    hide CommitsJob, Delivers;
    assert Delivers(Step(w, e), e.name, t) <==> !CommitsWithoutLease(w, e, t);
    OrphanedIs(Step(w, e), t);
  }

  lemma OnlyCommitterDelivers(w: World, after: World, e: Event, t: string)
    requires t in w.db.tasks && CommitsJob(w, e, w.db.tasks[t].job) && forall name :: !Delivers(w, name, t)
    requires after.db.tasks == w.db.tasks && after.workers == w.workers[e.name := Delivered(Pc(w, e.name).lease)]
    ensures forall name :: Delivers(after, name, t) <==> name == e.name && !CommitsWithoutLease(w, e, t)
  {
    hide Commits;
    forall name ensures Delivers(after, name, t) <==> name == e.name && !CommitsWithoutLease(w, e, t) {
      assert !Delivers(w, name, t);
    }
  }

  lemma CommitEffect(w: World, e: Event, j: string)
    requires CommitsJob(w, e, j)
    ensures var after := Step(w, e);
      after.workers == w.workers[e.name := Delivered(Pc(w, e.name).lease)] && after.db.tasks == w.db.tasks
      && j in after.db.jobs && after.db.jobs[j].status == Succeeded
      && j in w.db.jobs && w.db.jobs[j].status == Running
  {
    hide SnapshotId;
  }

  lemma DeliveredJob(w: World, name: string)
    requires Good(w) && name in w.workers && (w.workers[name].Delivered? || w.workers[name].Completing?)
    ensures var l := w.workers[name].lease;
      l.task in w.db.tasks && w.db.tasks[l.task].job in w.db.jobs && w.db.jobs[w.db.tasks[l.task].job].status == Succeeded
  {
    hide Inv, HistoriesOk, TokensUsed;
    assert WorkerOk(w.db.tasks, w.db.jobs, w.used, w.workers[name]);
  }

  lemma TaskOfRunningJob(w: World, t: string)
    requires Good(w) && t in w.db.tasks && w.db.tasks[t].job in w.db.jobs && w.db.jobs[w.db.tasks[t].job].status == Running
    ensures w.db.tasks[t].status != Succeeded
  {
    hide HistoriesOk, TokensUsed, WorkersOk, Inv;
    RowFacts(w.db, t);
    hide LeaseOk, AttemptsOk;
  }

  /** Before its job succeeds a task has not succeeded and nobody is completing it. */
  lemma NotYetDelivered(w: World, t: string)
    requires Good(w) && t in w.db.tasks && w.db.tasks[t].job in w.db.jobs && w.db.jobs[w.db.tasks[t].job].status == Running
    ensures w.db.tasks[t].status != Succeeded && forall name :: !Delivers(w, name, t)
  {
    hide Good;
    TaskOfRunningJob(w, t);
    forall name ensures !Delivers(w, name, t) {
      if name in w.workers && (w.workers[name].Delivered? || w.workers[name].Completing?) { DeliveredJob(w, name); }
    }
  }

  /** The steps that cut a task off from its succeeded job are exactly these three kinds. */
  lemma OrphaningSteps(w: World, e: Event, t: string)
    requires Good(w) && Sole(w) && t in w.db.tasks && !Orphaned(w, t)
    ensures Orphaned(Step(w, e), t) <==> CommitsWithoutLease(w, e, t) || LosesDelivery(w, e, t) || RecoversDelivered(w, e, t)
  {
    OrphanedIs(w, t);
    hide Good, Sole, Orphaned, Step;
    if CommitsJob(w, e, w.db.tasks[t].job) {
      CommitOrphansExactly(w, e, t);
      hide CommitsJob;
    } else if LosesDelivery(w, e, t) {
      LostDeliveryOrphans(w, e, t);
    } else if RecoversDelivered(w, e, t) {
      RecoveryOrphans(w, e, t);
    } else if Behind(w, t) {
      var name :| Delivers(w, name, t);
      HolderGoesOn(w, e, name, t);
    } else {
      StillNotBehind(w, e, t);
    }
  }

  lemma HolderGoesOn(w: World, e: Event, name: string, t: string)
    requires Good(w) && Sole(w) && Delivers(w, name, t) && Behind(w, t) && !LosesDelivery(w, e, t) && !RecoversDelivered(w, e, t)
    ensures !Orphaned(Step(w, e), t)
  {
    OrphanedIs(Step(w, e), t);
    hide Good, Sole, Step, Orphaned;
    if By(e, name) {
      if e.CompleteEvent? && !e.ok { FailedCallElsewhere(w, e, name, t); }
      else { OwnStepDelivers(w, e, name, t); }
    } else {
      OthersKeepRow(w, e, name, t);
      OthersKeepCounter(w, e, name);
      assert Delivers(Step(w, e), name, t);
    }
  }

  /** A final call that was not being made changes nothing. */
  lemma FailedCallElsewhere(w: World, e: Event, name: string, t: string)
    requires Delivers(w, name, t) && By(e, name) && e.CompleteEvent? && !e.ok && !LosesDelivery(w, e, t) && Behind(w, t)
    ensures Delivers(Step(w, e), name, t)
  {
  }

  lemma StillNotBehind(w: World, e: Event, t: string)
    requires Good(w) && t in w.db.tasks && !Behind(w, t) && !CommitsJob(w, e, w.db.tasks[t].job)
    ensures !Orphaned(Step(w, e), t)
  {
    StepKeeps(w, e);
    SameJob(w, Step(w, e), t);
    hide Good, Step, Later, CommitsJob;
    OrphanedIs(Step(w, e), t);
    if Behind(Step(w, e), t) { SucceedsOnlyByCommit(w, e, w.db.tasks[t].job); }
  }

  lemma SameJob(w: World, after: World, t: string)
    requires Later(w, after) && t in w.db.tasks
    ensures t in after.db.tasks && after.db.tasks[t].job == w.db.tasks[t].job
    ensures w.db.tasks[t].status == Succeeded ==> after.db.tasks[t].status == Succeeded
  {
    hide Fenced;
  }

  /** The same for every run: which of its steps cut a task off is decided by what a caller can look up before the step. */
  lemma RunsOrphanExactly(events: seq<Event>, e: Event, t: string)
    requires t in Run(START, events).db.tasks && !Orphaned(Run(START, events), t)
    ensures var w := Run(START, events);
      Orphaned(Step(w, e), t) <==> CommitsWithoutLease(w, e, t) || LosesDelivery(w, e, t) || RecoversDelivered(w, e, t)
  {
    hide *;
    ReachableIsGood(events);
    ReachableIsSole(events);
    OrphaningSteps(Run(START, events), e, t);
  }
}
