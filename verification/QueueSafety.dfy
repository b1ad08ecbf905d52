/** The queue's promises, stated for every run from an empty database. */
module QueueSafety {
  import opened Tables
  import opened QueueSpec
  import opened QueueInvariants
  import opened QueueRuns
  import opened QueueTheorems

  lemma {:induction false} RunKeeps(w: World, events: seq<Event>)
    requires Good(w)
    ensures Good(Run(w, events)) && Later(w, Run(w, events))
  {
    hide Good, Later, Step;
    if events == [] {
      LaterReflexive(w);
    } else {
      var init, last := events[..|events| - 1], events[|events| - 1];
      RunKeeps(w, init);
      StepKeeps(Run(w, init), last);
      LaterTransitive(w, Run(w, init), Run(w, events));
    }
  }

  lemma LaterTransitive(a: World, b: World, c: World)
    requires Later(a, b) && Later(b, c)
    ensures Later(a, c)
  {
    FencedTransitive(a, b, c);
    MonotoneTransitive(a, b, c);
    hide Fenced, Monotone;
  }

  lemma StartIsGood()
    ensures Good(START)
  {
  }

  /** Every reachable world satisfies the whole invariant. */
  lemma ReachableIsGood(events: seq<Event>)
    ensures Good(Run(START, events))
  {
    StartIsGood();
    hide Good;
    RunKeeps(START, events);
  }

  // ---------------------------------------------------------------- leases and attempts

  /** Token, lease status, expiry and a single running attempt numbered attempt_count coincide;
      attempt numbers are 1..attempt_count, so no claim meets the attempts' unique key. */
  lemma LeasesAndAttempts(events: seq<Event>, t: string, now: int)
    requires t in Run(START, events).db.tasks
    ensures var s := Run(START, events).db;
      var row := s.tasks[t];
      var running := set k | k in s.attempts && k.task == t && s.attempts[k].status == Running;
      (row.token != "" <==> InLease(row.status))
      && (row.token != "" <==> row.expires.Some?)
      && running == (if row.token != "" then {AttemptKey(t, row.attemptCount)} else {})
      && (forall n :: AttemptKey(t, n) in s.attempts <==> 1 <= n <= row.attemptCount)
      && (Claimable(s.tasks, t, now) ==> Claims(s, t, now))
  {
    ReachableIsGood(events);
    var s := Run(START, events).db;
    hide WorkersOk, TokensUsed, HistoriesOk, BatchInv, JobInv, Run;
    RunningAttempt(s, t);
    RowFacts(s, t);
    LeaseStatuses(s.tasks[t]);
    hide LeaseInv, InLease, ClassOf, LeaseOk;
  }

  // ---------------------------------------------------------------- batch counters

  /** Three counters are exact in every reachable state; the other three drift together by one amount;
      a finished batch has nothing queued or running. */
  lemma BatchCounters(events: seq<Event>, b: string)
    requires b in Run(START, events).db.batches
    ensures var s := Run(START, events).db;
      var row := s.batches[b];
      row.total == |Members(s.tasks, b)|
      && row.succeeded == |InClass(s.tasks, b, Successful)|
      && row.running == |InClass(s.tasks, b, InProgress)|
      && row.queued + row.running + row.succeeded + row.failed + row.skipped == row.total
      && row.queued - |InClass(s.tasks, b, InQueue)|
           == (|InClass(s.tasks, b, Unsuccessful)| - row.failed) + (|InClass(s.tasks, b, Bypassed)| - row.skipped)
      && row.queued >= |InClass(s.tasks, b, InQueue)|
      && (row.finishedAt.Some? ==> InClass(s.tasks, b, InQueue) == {} && InClass(s.tasks, b, InProgress) == {})
  {
    ReachableIsGood(events);
    var s := Run(START, events).db;
    hide WorkersOk, TokensUsed, HistoriesOk, LeaseInv, JobInv, Run;
    Drift(s, b);
    hide Members, InClass;
  }

  // ---------------------------------------------------------------- batch status

  /** Batch b has a task in one of these statuses. */
  predicate Has(tasks: map<string, Task>, b: string, statuses: set<Status>)
  {
    exists t | t in tasks :: tasks[t].batch == b && tasks[t].status in statuses
  }

  /** All tasks of batch b are in these statuses. */
  predicate Only(tasks: map<string, Task>, b: string, statuses: set<Status>)
  {
    forall t | t in tasks && tasks[t].batch == b :: tasks[t].status in statuses
  }

  /** A batch with a task is finished when all its tasks have ended, and then failed if one has not gone well, else
      succeeded if one has, else skipped; before that it is queued while all of them are, and running from then on. */
  predicate Says(tasks: map<string, Task>, b: string, row: Batch)
  {
    var bad, good := {Failed, TimedOut, Interrupted, Cancelled}, {Succeeded, SucceededWithWarnings};
    (row.finishedAt.Some? <==> Only(tasks, b, bad + good + {Skipped}))
    && (row.status == Failed <==> row.finishedAt.Some? && Has(tasks, b, bad))
    && (row.status == Succeeded <==> row.finishedAt.Some? && !Has(tasks, b, bad) && Has(tasks, b, good))
    && (row.status == Skipped <==> Only(tasks, b, {Skipped}))
    && (row.status == Queued <==> Only(tasks, b, {Queued}))
    && (row.status == Running <==> row.finishedAt.None? && !Only(tasks, b, {Queued}))
  }

  lemma ClassesHave(tasks: map<string, Task>, b: string)
    ensures InClass(tasks, b, Unsuccessful) == {} <==> !Has(tasks, b, {Failed, TimedOut, Interrupted, Cancelled})
    ensures InClass(tasks, b, Successful) == {} <==> !Has(tasks, b, {Succeeded, SucceededWithWarnings})
    ensures InClass(tasks, b, InQueue) == Members(tasks, b) <==> Only(tasks, b, {Queued})
  {
    if Has(tasks, b, {Failed, TimedOut, Interrupted, Cancelled}) {
      var t :| t in tasks && tasks[t].batch == b && tasks[t].status in {Failed, TimedOut, Interrupted, Cancelled};
      assert t in InClass(tasks, b, Unsuccessful);
    }
    if Has(tasks, b, {Succeeded, SucceededWithWarnings}) {
      var t :| t in tasks && tasks[t].batch == b && tasks[t].status in {Succeeded, SucceededWithWarnings};
      assert t in InClass(tasks, b, Successful);
    }
    if InClass(tasks, b, InQueue) == Members(tasks, b) {
      forall t | t in tasks && tasks[t].batch == b ensures tasks[t].status == Queued { assert t in Members(tasks, b); }
    }
  }

  lemma EndedIs(tasks: map<string, Task>, b: string)
    ensures InClass(tasks, b, InQueue) == {} && InClass(tasks, b, InProgress) == {}
      <==> Only(tasks, b, {Failed, TimedOut, Interrupted, Cancelled} + {Succeeded, SucceededWithWarnings} + {Skipped})
  {
    if InClass(tasks, b, InQueue) == {} && InClass(tasks, b, InProgress) == {} {
      forall t | t in tasks && tasks[t].batch == b
        ensures tasks[t].status in {Failed, TimedOut, Interrupted, Cancelled} + {Succeeded, SucceededWithWarnings} + {Skipped}
      {
        assert t !in InClass(tasks, b, InQueue) && t !in InClass(tasks, b, InProgress);
      }
    }
  }

  lemma TellsSays(tasks: map<string, Task>, b: string, row: Batch)
    requires Tells(tasks, b, row) && Members(tasks, b) != {}
    ensures Says(tasks, b, row)
  {
    ClassesHave(tasks, b);
    EndedIs(tasks, b);
    var t :| t in Members(tasks, b);
    hide InClass, ClassOf, Members;
  }

  /** In every reachable state the status of a finished batch that has a task, and of any batch that counts its queued
      tasks right, follows from the statuses of its tasks. */
  lemma BatchStatus(events: seq<Event>, b: string)
    requires b in Run(START, events).db.batches && exists t | t in Run(START, events).db.tasks :: Run(START, events).db.tasks[t].batch == b
    requires var s := Run(START, events).db;
      s.batches[b].finishedAt.Some? || s.batches[b].queued == |set t | t in s.tasks && s.tasks[t].batch == b && s.tasks[t].status == Queued|
    ensures Says(Run(START, events).db.tasks, b, Run(START, events).db.batches[b])
  {
    ReachableIsGood(events);
    var s := Run(START, events).db;
    hide Run, WorkersOk, TokensUsed, HistoriesOk, LeaseInv, JobInv;
    assert (set t | t in s.tasks && s.tasks[t].batch == b && s.tasks[t].status == Queued) == InClass(s.tasks, b, InQueue);
    CountedSays(s, b);
  }

  lemma CountedSays(s: State, b: string)
    requires BatchInv(s.tasks, s.batches) && b in s.batches && exists t | t in s.tasks :: s.tasks[t].batch == b
    requires s.batches[b].finishedAt.Some? || s.batches[b].queued == |InClass(s.tasks, b, InQueue)|
    ensures Says(s.tasks, b, s.batches[b])
  {
    assert CountersOk(s.tasks, b, s.batches[b]);
    var t :| t in s.tasks && s.tasks[t].batch == b;
    assert t in Members(s.tasks, b);
    hide BatchInv, InClass, Members, Says;
    TellsSays(s.tasks, b, s.batches[b]);
  }

  // ---------------------------------------------------------------- fencing

  /** None of the five statements guarded by a token has an effect with a token the task does not carry. */
  ghost predicate Powerless(s: State, t: string, token: string)
  {
    (forall snapshot, now :: Complete(s, t, token, snapshot, now) == s)
    && (forall code, at, now :: Retry(s, t, token, code, at, now) == s)
    && (forall status, code, now :: FinishFailure(s, t, token, status, code, now) == s)
    && (forall status :: SetStatus(s, t, token, status) == s)
    && (forall now, expires :: Heartbeat(s, t, token, now, expires) == s)
  }

  lemma NotHeldIsPowerless(s: State, t: string, token: string)
    requires !Holds(s, t, token)
    ensures Powerless(s, t, token)
  {
    hide Settle;
  }

  /** Once a token that was handed out is not a task's current token, it stays powerless in every later state. */
  lemma Fencing(before: seq<Event>, after: seq<Event>, t: string, token: string)
    requires t in Run(START, before).db.tasks && token in Run(START, before).used
    requires Run(START, before).db.tasks[t].token != token
    ensures Powerless(Run(Run(START, before), after).db, t, token)
  {
    ReachableIsGood(before);
    var w := Run(START, before);
    RunKeeps(w, after);
    hide Good, Run, Monotone;
    NotHeldIsPowerless(Run(w, after).db, t, token);
  }

  // ---------------------------------------------------------------- ended tasks

  /** A succeeded or skipped task keeps that status for ever. */
  lemma SucceededAndSkippedAreFinal(before: seq<Event>, after: seq<Event>, t: string)
    requires t in Run(START, before).db.tasks
    requires Run(START, before).db.tasks[t].status in {Succeeded, Skipped}
    ensures t in Run(Run(START, before), after).db.tasks
    ensures Run(Run(START, before), after).db.tasks[t].status == Run(START, before).db.tasks[t].status
  {
    ReachableIsGood(before);
    RunKeeps(Run(START, before), after);
    hide Good, Run, Fenced;
  }

  /** Row t is there and unchanged. */
  ghost predicate Keeps(a: State, b: State, t: string)
  {
    t in a.tasks && t in b.tasks && b.tasks[t] == a.tasks[t]
  }

  lemma GuardedKeeps(s: State, u: string, token: string, t: string)
    requires token != "" && t in s.tasks && s.tasks[t].token == ""
    ensures forall snapshot, now :: Keeps(s, Complete(s, u, token, snapshot, now), t)
    ensures forall status, code, now :: Keeps(s, FinishFailure(s, u, token, status, code, now), t)
    ensures forall status :: Keeps(s, SetStatus(s, u, token, status), t)
    ensures forall now, expires :: Keeps(s, Heartbeat(s, u, token, now, expires), t)
  {
    hide EndAttempts, Recounted, Released;
  }

  lemma RetryGuarded(s: State, u: string, token: string, code: string, at: int, now: int, t: string)
    requires token != "" && t in s.tasks && s.tasks[t].token == ""
    ensures Keeps(s, Retry(s, u, token, code, at, now), t)
  {
    hide EndAttempts, Recounted, Released, ReopenBlocked, Reopen;
  }

  lemma EndQueuedKeepsEnded(w: World, p: string, row: Plan, cancelQueued: bool, now: int, t: string)
    requires t in w.db.tasks && w.db.tasks[t].status != Queued
    ensures Keeps(w.db, PausePlanStep(w, p, now).db, t) && Keeps(w.db, EditPlanStep(w, p, row, cancelQueued, now).db, t)
  {
    hide DropQueued, ValidTargets;
  }

  lemma CreatingKeeps(w: World, id: string, task: Task, now: int, t: string)
    requires t in w.db.tasks
    ensures Keeps(w.db, AddTaskStep(w, id, task, now).db, t)
  {
    hide AddTask;
    if AddsTask(w.db, id, task) { AddTaskWrites(w.db, id, task, now); }
  }

  lemma ClaimKeepsEnded(w: World, name: string, id: string, token: string, now: int, expires: int, t: string)
    requires t in w.db.tasks && w.db.tasks[t].status != Queued
    ensures Keeps(w.db, ClaimStep(w, name, id, token, now, expires).db, t)
  {
    hide Claim, First;
    if Claims(w.db, id, now) { ClaimWrites(w.db, id, name, token, now, expires); }
    else { assert Claim(w.db, id, name, token, now, expires) == w.db by { ClaimRefused(w.db, id, name, token, now, expires); } }
  }

  lemma ClaimRefused(s: State, id: string, name: string, token: string, now: int, expires: int)
    requires !Claims(s, id, now)
    ensures Claim(s, id, name, token, now, expires) == s
  {
  }

  lemma OtherQueueStepsKeep(w: World, id: string, now: int, t: string)
    requires t in w.db.tasks && w.db.tasks[t].status != Queued
    ensures Keeps(w.db, CancelTaskStep(w, id, now).db, t)
    ensures id != t ==> Keeps(w.db, ResetStep(w, id, now).db, t)
  {
    hide ReopenBlocked, Reopen, Recounted;
  }

  /** Leaving a failed, cancelled, timed-out or interrupted status takes a manual reset of that very task. */
  lemma OnlyResetReopens(w: World, e: Event, t: string)
    requires Good(w) && t in w.db.tasks && Reopenable(w.db.tasks[t].status)
    requires !(e.ResetEvent? && e.id == t)
    ensures Keeps(w.db, Step(w, e).db, t)
  {
    hide Inv, HistoriesOk, TokensUsed, WorkersOk;
    EndedHasNoToken(w.db, t);
    TableStepKeepsTasks(w.db, e);
    hide AddTaskStep, CancelTaskStep, ResetStep, RequeueStep, EditPlanStep, PausePlanStep, ClaimStep, WorkerStep, TableStep, Good;
    if e.AddTaskEvent? { CreatingKeeps(w, e.id, e.task, e.now, t); }
    else if e.CancelTaskEvent? || e.ResetEvent? { OtherQueueStepsKeep(w, e.id, e.now, t); }
    else if e.RequeueEvent? { RequeueSkipsEnded(w, e.items, e.now, t); }
    else if e.EditPlanEvent? { EndQueuedKeepsEnded(w, e.id, e.plan, e.cancelQueued, e.now, t); }
    else if e.PausePlanEvent? { EndQueuedKeepsEnded(w, e.id, NOPLAN, false, e.now, t); }
    else if e.ClaimEvent? { ClaimKeepsEnded(w, e.name, e.id, e.token, e.now, e.expires, t); }
    else if HolderEvent(e) { HolderKeepsEnded(w, e, t); }
  }

  const NOPLAN := Plan(false, false, 0, 0, 0, None, None, false, [])

  lemma EndedHasNoToken(s: State, t: string)
    requires Inv(s) && t in s.tasks && Terminal(s.tasks[t].status)
    ensures s.tasks[t].token == ""
  {
    hide Inv;
    RowFacts(s, t);
    LeaseStatuses(s.tasks[t]);
    hide AttemptsOk, DeliveryOk, LeaseOk;
  }

  lemma RequeueSkipsEnded(w: World, items: seq<string>, now: int, t: string)
    requires t in w.db.tasks && Reopenable(w.db.tasks[t].status)
    ensures t in RequeueStep(w, items, now).db.tasks && RequeueStep(w, items, now).db.tasks[t] == w.db.tasks[t]
  {
    hide RequeueAll;
    if forall u | u in items :: u in Expired(w.db.tasks, now) {
      RequeueAllRows(w.db, items, now);
    }
  }

  lemma HolderKeepsEnded(w: World, e: Event, t: string)
    requires Good(w) && t in w.db.tasks && w.db.tasks[t].token == "" && w.db.tasks[t].status != Queued && HolderEvent(e)
    ensures Keeps(w.db, WorkerStep(w, e).db, t)
  {
    if Quiet(e) {
      hide Good, WorkerStep;
      QuietHolder(w, e);
    } else {
      LoudHolderKeepsEnded(w, e, t);
    }
  }

  lemma LoudHolderKeepsEnded(w: World, e: Event, t: string)
    requires Good(w) && t in w.db.tasks && w.db.tasks[t].token == "" && w.db.tasks[t].status != Queued && HolderEvent(e) && !Quiet(e)
    ensures Keeps(w.db, WorkerStep(w, e).db, t)
  {
    hide Good, LeaseKnown, Complete, FinishFailure, SetStatus, Heartbeat, PausePlanStep, VerdictStep, PausesPlan;
    var pc := Pc(w, e.name);
    PcOk(w, e.name);
    if !pc.Idle? {
      TokenOf(w, pc);
      hide WorkerOk;
      GuardedKeeps(w.db, pc.lease.task, pc.lease.token, t);
      if e.PauseOwnPlanEvent? { EndQueuedKeepsEnded(w, pc.lease.row.plan, NOPLAN, false, e.now, t); }
      else if e.VerdictEvent? && (pc.Faulted? || pc.Deciding?) { VerdictKeepsEnded(w, pc.lease, pc.code, e.now, t); }
    }
  }

  lemma VerdictKeepsEnded(w: World, l: Lease, code: string, now: int, t: string)
    requires l.token != "" && t in w.db.tasks && w.db.tasks[t].token == ""
    ensures Keeps(w.db, VerdictStep(w, l, code, now).db, t)
  {
    hide Retry, FinishFailure, Retries, Retryable, Factor, Base;
    GuardedKeeps(w.db, l.task, l.token, t);
    if 1 <= l.row.attemptCount {
      RetryGuarded(w.db, l.task, l.token, code, now + Wait(l.row, l.row.attemptCount), now, t);
    }
  }

  // ---------------------------------------------------------------- jobs and snapshots

  /** A job has at most one snapshot and it is the one the job names; a succeeded task carries it. */
  lemma JobsAndSnapshots(events: seq<Event>)
    ensures var s := Run(START, events).db;
      (forall x | x in s.snapshots ::
         (s.snapshots[x].job in s.jobs
          && s.jobs[s.snapshots[x].job].status == Succeeded && s.jobs[s.snapshots[x].job].snapshot == x))
      && (forall x, y | x in s.snapshots && y in s.snapshots && s.snapshots[x].job == s.snapshots[y].job :: x == y)
      && (forall t | t in s.tasks && s.tasks[t].status == Succeeded ::
            (s.tasks[t].job in s.jobs && s.jobs[s.tasks[t].job].status == Succeeded
             && s.tasks[t].snapshot == s.jobs[s.tasks[t].job].snapshot && s.tasks[t].snapshot != ""))
  {
    ReachableIsGood(events);
    var s := Run(START, events).db;
    hide WorkersOk, TokensUsed, HistoriesOk, LeaseInv, BatchInv, UniqueActive, Run;
    forall t | t in s.tasks && s.tasks[t].status == Succeeded
      ensures s.tasks[t].job in s.jobs && s.jobs[s.tasks[t].job].status == Succeeded
        && s.tasks[t].snapshot == s.jobs[s.tasks[t].job].snapshot && s.tasks[t].snapshot != ""
    {
      assert DeliveryOk(s.tasks[t], s.jobs);
    }
  }

  /** A succeeded job never changes again, so a second worker's commit of it is refused. */
  lemma SucceededJobsAreFinal(before: seq<Event>, after: seq<Event>, j: string)
    requires j in Run(START, before).db.jobs && Run(START, before).db.jobs[j].status == Succeeded
    ensures var s := Run(Run(START, before), after).db;
      j in s.jobs && s.jobs[j] == Run(START, before).db.jobs[j]
      && forall id, row: Snapshot | row.job == j :: CommitSnapshot(s, id, row) == s
  {
    ReachableIsGood(before);
    RunKeeps(Run(START, before), after);
    hide Good, Run, Fenced;
  }

  /** At most one queued or running job per deployment. Starting a job and recovering an expired lease
      move between two active statuses, and creation looks first, so none of the three can break it. */
  lemma OneActiveJob(events: seq<Event>, j: string, id: string, row: Job, now: int)
    ensures var s := Run(START, events).db;
      UniqueActive(s.jobs) && UniqueActive(StartJob(s, j, now).jobs)
      && UniqueActive(Unstart(s.jobs, j)) && UniqueActive(CreateJob(s, id, row).jobs)
  {
    ReachableIsGood(events);
    var s := Run(START, events).db;
    hide WorkersOk, TokensUsed, HistoriesOk, LeaseInv, BatchInv, UniqueActive, SnapshotsOk, DeliveryOk, Run,
      StartJob, CreateJob, Unstart, Evolves, JobsEvolve;
    StartJobKeeps(s, j, now);
    CreateJobKeeps(s, id, row);
    UnstartKeeps(s.tasks, s.jobs, s.snapshots, j);
  }

  /** Reopening a failed job is refused exactly when it would give its deployment a second active job;
      the retry or reset around it then has no effect at all. */
  lemma ReopenRefusedExactly(s: State, j: string, clearStart: bool)
    requires UniqueActive(s.jobs) && j in s.jobs && s.jobs[j].status == Failed
    ensures ReopenBlocked(s.jobs, j) <==> !UniqueActive(Reopen(s.jobs, j, clearStart))
    ensures ReopenBlocked(s.jobs, j) ==>
      forall t | t in s.tasks && s.tasks[t].job == j ::
        (forall now :: Reset(s, t, now) == s)
        && (forall token, code, at, now :: Retry(s, t, token, code, at, now) == s)
  {
    var after := Reopen(s.jobs, j, clearStart);
    if Occupied(s.jobs, j) {
      var k :| k in s.jobs && k != j && s.jobs[k].deploy == s.jobs[j].deploy && Active(s.jobs[k].status);
      assert k in after && j in after && Active(after[k].status) && Active(after[j].status);
    }
  }

  // ---------------------------------------------------------------- automatic retries

  lemma Powers()
    ensures Pow2(0) == 1 && Pow2(1) == 2 && Pow2(2) == 4 && Pow2(3) == 8
    ensures Pow2(4) == 16 && Pow2(5) == 32 && Pow2(6) == 64 && Pow2(7) == 128
  {
    assert Pow2(3) == 8;
    assert Pow2(5) == 32;
  }

  /** Sum of the first m delays in closed form: doubling up to the seventh, constant from there on. */
  lemma {:induction false} FactorsClosed(m: nat)
    ensures m <= 7 ==> Factors(m) == Pow2(m) - 1
    ensures m >= 7 ==> Factors(m) == 127 + 64 * (m - 7)
  {
    Powers();
    if m > 0 { FactorsClosed(m - 1); }
  }

  /** Over a task's whole life automatic retries number at most max_retries, and their delays
      add up to at most base*(2^m-1) for m <= 7 and base*191 for m = 8, the largest m a plan may set. */
  lemma RetryBudget(events: seq<Event>, t: string)
    requires t in Run(START, events).db.tasks
    ensures var w := Run(START, events);
      var m := Allowed(w.db.tasks[t]);
      t in w.history && w.history[t].retries <= m
      && (m <= 7 ==> w.history[t].delay <= Base(w.db.tasks[t]) * (Pow2(m) - 1))
      && (m == 8 ==> w.history[t].delay <= Base(w.db.tasks[t]) * 191)
  {
    ReachableIsGood(events);
    var w := Run(START, events);
    hide Inv, WorkersOk, TokensUsed, Run;
    var row := w.db.tasks[t];
    assert HistoryOk(row, w.history[t]);
    BudgetGrows(Base(row), Spent(row), Allowed(row));
    FactorsClosed(Allowed(row));
    hide Factors, Base, Pow2;
  }

  /** The attempt that follows an automatic retry of attempt n is number n + 1 and is not claimed
      before the failure time plus base * 2^min(n-1, 6) seconds. */
  lemma RetryWaits(before: seq<Event>, name: string, t: string, token: string, now: int, expires: int)
    requires var w := Run(START, before);
      t in w.history && w.history[t].pending.Some? && Step(w, ClaimEvent(name, t, token, now, expires)) != w
    ensures var w := Run(START, before);
      var n, at := w.history[t].pending.value.number, w.history[t].pending.value.at;
      n >= 1 && t in w.db.tasks && now >= at + Base(w.db.tasks[t]) * Pow2(if n - 1 < 6 then n - 1 else 6)
      && w.db.tasks[t].attemptCount + 1 == n + 1
  {
    ReachableIsGood(before);
    var w := Run(START, before);
    hide Inv, WorkersOk, TokensUsed, Run, Base, Pow2, Claim, Factors;
    assert Claimable(w.db.tasks, t, now);
    assert HistoryOk(w.db.tasks[t], w.history[t]);
  }

  // ---------------------------------------------------------------- conservation

  /** What entered the queue and what left it account for where the task is now. */
  lemma QueueConservation(events: seq<Event>, t: string)
    requires t in Run(START, events).db.tasks
    ensures var w := Run(START, events);
      t in w.history
      && (var h := w.history[t];
          h.created + h.retries + h.requeues + h.resets - h.claims - h.dropped
            == (if w.db.tasks[t].status == Queued then 1 else 0)
          && w.db.tasks[t].attemptCount == h.claims)
  {
    ReachableIsGood(events);
    var w := Run(START, events);
    hide Inv, WorkersOk, TokensUsed, Run;
    assert HistoryOk(w.db.tasks[t], w.history[t]);
  }
}
