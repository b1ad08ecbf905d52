/** What a claim, a verdict, a recovery and a manual retry do, told from the rows, the clock and the error code alone. */
module QueueLaws {
  import opened Tables
  import opened QueueSpec
  import opened QueueInvariants
  import opened QueueRuns
  import opened QueueTheorems
  import opened QueueSafety
  import opened QueueStore
  import opened QueueDelivery

  // ---------------------------------------------------------------- the verdict on a failed run

  /** The error codes after which no automatic retry makes sense. */
  predicate Final(code: string)
  {
    code == "BACKUP_CANCELLED" || code == "NO_APPLICATION_DATA" || code == "UNSUPPORTED_DATABASE"
    || code == "INSTANCE_NOT_BACKUPABLE" || code == "SHARED_INSTANCE_CONFIRMATION_REQUIRED"
    || code == "SOURCE_OWNER_MISMATCH" || code == "SOURCE_INSTANCE_NOT_FOUND" || code == "BACKUP_SCOPE_PATH_MISSING"
  }

  /** A missing path of a plan, which is not a manual one, pauses the plan first. */
  predicate PausesFirst(row: Task, code: string)
  {
    code == "BACKUP_SCOPE_PATH_MISSING" && row.plan != "" && !("manual-" <= row.plan)
  }

  /** The worker's next call is the verdict on a run that failed with this code and was not cancelled. */
  predicate Judges(pc: Worker)
  {
    pc.Deciding? || (pc.Faulted? && !pc.cancelled && !PausesFirst(pc.lease.row, pc.code))
  }

  function Freed(row: Task): Task
  {
    row.(token := "", worker := "", expires := None, heartbeat := None)
  }

  /** Back in the queue, to be claimed after base * 2^min(n-1, 6) seconds. */
  function Again(row: Task, code: string, now: int): Task
    requires row.attemptCount >= 1
  {
    var n, base := row.attemptCount, if row.backoff <= 0 then 60 else row.backoff;
    Freed(row).(status := Queued, errorCode := code, availableAt := now + base * Pow2(if n <= 7 then n - 1 else 6))
  }

  lemma HeldLease(w: World, name: string)
    requires Good(w) && !Pc(w, name).Idle? && Holds(w.db, Pc(w, name).lease.task, Pc(w, name).lease.token)
    ensures var l := Pc(w, name).lease; var row := w.db.tasks[l.task];
      l.token != "" && l.task in w.history && SameIdentity(l.row, row) && l.row.attemptCount == row.attemptCount >= 1
  {
    hide Inv, HistoryOk;
    PcOk(w, name);
    TokenOf(w, Pc(w, name));
    hide WorkersOk, TokensUsed, WorkerOk;
  }

  lemma JudgesIs(pc: Worker)
    ensures Judges(pc) <==> pc.Deciding? || (pc.Faulted? && !pc.cancelled && !PausesPlan(pc.lease.row, pc.code))
  {}

  lemma FinalIs(code: string)
    ensures Final(code) <==> !Retryable(code)
  {}

  lemma JudgedStep(w: World, name: string, now: int)
    requires Judges(Pc(w, name))
    ensures var pc := Pc(w, name); Step(w, VerdictEvent(name, now, true)) == Move(VerdictStep(w, pc.lease, pc.code, now), name, Idle)
  {
    JudgesIs(Pc(w, name));
    hide Judges, PausesPlan, VerdictStep;
  }

  /** The attempt that was running has ended. */
  function Closed(s: State, t: string, status: Status, code: string, now: int): map<AttemptKey, Attempt>
    requires t in s.tasks
  {
    var key := AttemptKey(t, s.tasks[t].attemptCount);
    if key in s.attempts
    then s.attempts[key := s.attempts[key].(status := status, errorCode := code, finishedAt := Some(now))] else s.attempts
  }

  /** A failed job waits again; only a manual retry forgets its start. */
  function Waiting(jobs: map<string, Job>, j: string, startedAt: Option<int>): map<string, Job>
  {
    if j in jobs && jobs[j].status == Failed
    then jobs[j := jobs[j].(status := Queued, errorCode := "", startedAt := startedAt, finishedAt := None)] else jobs
  }

  function StartOf(jobs: map<string, Job>, j: string): Option<int>
  {
    if j in jobs then jobs[j].startedAt else None
  }

  /** Only the last attempt of a leased task runs, so ending the running ones ends that one. */
  lemma LastAttemptEnds(s: State, t: string, status: Status, code: string, now: int)
    requires Inv(s) && t in s.tasks && s.tasks[t].token != ""
    ensures EndAttempts(s.attempts, t, status, Some(code), now) == Closed(s, t, status, code, now)
    ensures AttemptKey(t, s.tasks[t].attemptCount) in s.attempts
  {
    RowFacts(s, t);
    hide Inv, LeaseOk, DeliveryOk;
    OneRuns(s.attempts, t, s.tasks[t].attemptCount);
    hide AttemptsOk;
    EndingOne(s, t, status, code, now);
  }

  lemma OneRuns(attempts: map<AttemptKey, Attempt>, t: string, n: nat)
    requires AttemptsOk(attempts, t, n, true)
    ensures AttemptKey(t, n) in attempts && attempts[AttemptKey(t, n)].status == Running
    ensures forall k | k in attempts && k.task == t && attempts[k].status == Running :: k == AttemptKey(t, n)
  {
    forall k | k in attempts && k.task == t && attempts[k].status == Running ensures k == AttemptKey(t, n) {
      assert k == AttemptKey(t, k.number);
    }
  }

  lemma EndingOne(s: State, t: string, status: Status, code: string, now: int)
    requires t in s.tasks
    requires var key := AttemptKey(t, s.tasks[t].attemptCount);
      key in s.attempts && s.attempts[key].status == Running
      && forall k | k in s.attempts && k.task == t && s.attempts[k].status == Running :: k == key
    ensures EndAttempts(s.attempts, t, status, Some(code), now) == Closed(s, t, status, code, now)
  {}

  lemma FinishedRow(s: State, t: string, token: string, status: Status, code: string, now: int)
    requires Inv(s) && token != "" && Holds(s, t, token)
    ensures var r := FinishFailure(s, t, token, status, code, now);
      r.tasks == s.tasks[t := Freed(s.tasks[t]).(status := status, errorCode := code, finishedAt := Some(now))]
      && r.attempts == Closed(s, t, status, code, now) && r.jobs == s.jobs
  {
    LastAttemptEnds(s, t, status, code, now);
    hide EndAttempts, Recounted, Inv, Closed;
  }

  lemma RetriedRow(s: State, t: string, token: string, code: string, at: int, now: int)
    requires Inv(s) && token != "" && Retries(s, t, token)
    ensures var r := Retry(s, t, token, code, at, now);
      r.tasks == s.tasks[t := Freed(s.tasks[t]).(status := Queued, errorCode := code, availableAt := at)]
      && r.attempts == Closed(s, t, Failed, code, now)
      && r.jobs == Waiting(s.jobs, s.tasks[t].job, StartOf(s.jobs, s.tasks[t].job))
  {
    LastAttemptEnds(s, t, Failed, code, now);
    ReopenWaits(s.jobs, s.tasks[t].job);
    hide EndAttempts, ReopenBlocked, Inv, Closed, Settle, Reopen, Waiting;
    SettleForm(s.(jobs := Reopen(s.jobs, s.tasks[t].job, false)), t,
      Released(s.tasks[t]).(status := Queued, errorCode := code, availableAt := at), Failed, Some(code), now);
  }

  lemma ReopenWaits(jobs: map<string, Job>, j: string)
    ensures Reopen(jobs, j, false) == Waiting(jobs, j, StartOf(jobs, j)) && Reopen(jobs, j, true) == Waiting(jobs, j, None)
  {}

  lemma SettleForm(s: State, t: string, row: Task, ended: Status, code: Option<string>, now: int)
    requires t in s.tasks
    ensures var r := Settle(s, t, row, ended, code, now);
      r.tasks == s.tasks[t := row] && r.attempts == EndAttempts(s.attempts, t, ended, code, now) && r.jobs == s.jobs
  {
    hide EndAttempts, Recounted;
  }

  lemma WaitIs(l: Lease, row: Task, code: string, now: int)
    requires SameIdentity(l.row, row) && l.row.attemptCount == row.attemptCount >= 1
    ensures Again(row, code, now) == Freed(row).(status := Queued, errorCode := code, availableAt := now + Wait(l.row, l.row.attemptCount))
  {}

  function EndOf(code: string): Status
  {
    if code == "BACKUP_TIMED_OUT" then TimedOut else Failed
  }

  /** The tables after the verdict on a run under a current lease. */
  predicate Judged(s: State, r: State, t: string, code: string, now: int)
    requires t in s.tasks && s.tasks[t].attemptCount >= 1
  {
    var row := s.tasks[t];
    if Final(code) || row.attemptCount > row.maxRetries then
      r.tasks == s.tasks[t := Freed(row).(status := EndOf(code), errorCode := code, finishedAt := Some(now))]
      && r.attempts == Closed(s, t, EndOf(code), code, now) && r.jobs == s.jobs
    else if ReopenBlocked(s.jobs, row.job) then
      r == s
    else
      r.tasks == s.tasks[t := Again(row, code, now)] && r.attempts == Closed(s, t, Failed, code, now)
      && r.jobs == Waiting(s.jobs, row.job, StartOf(s.jobs, row.job))
  }

  /** A verdict that puts the task back in the queue. */
  predicate PutsBack(s: State, t: string, code: string)
    requires t in s.tasks
  {
    !Final(code) && s.tasks[t].attemptCount <= s.tasks[t].maxRetries && !ReopenBlocked(s.jobs, s.tasks[t].job)
  }

  lemma VerdictRow(w: World, l: Lease, code: string, now: int)
    requires Inv(w.db) && l.token != "" && Holds(w.db, l.task, l.token) && l.task in w.history
    requires SameIdentity(l.row, w.db.tasks[l.task]) && l.row.attemptCount == w.db.tasks[l.task].attemptCount >= 1
    ensures var r := VerdictStep(w, l, code, now);
      r.history.Keys == w.history.Keys && Judged(w.db, r.db, l.task, code, now)
      && r.history[l.task].retries == w.history[l.task].retries + (if PutsBack(w.db, l.task, code) then 1 else 0)
      && forall t | t in w.history && t != l.task :: r.history[t] == w.history[t]
  {
    FinalIs(code);
    hide Final, Retryable, Inv, Judged;
    if Retryable(code) && l.row.attemptCount <= l.row.maxRetries {
      PutBackRow(w, l, code, now);
    } else {
      EndedVerdict(w, l, code, now);
    }
  }

  lemma PutBackRow(w: World, l: Lease, code: string, now: int)
    requires Inv(w.db) && l.token != "" && Holds(w.db, l.task, l.token) && l.task in w.history
    requires SameIdentity(l.row, w.db.tasks[l.task]) && l.row.attemptCount == w.db.tasks[l.task].attemptCount >= 1
    requires Retryable(code) && !Final(code) && l.row.attemptCount <= l.row.maxRetries
    ensures var r := VerdictStep(w, l, code, now);
      r.history.Keys == w.history.Keys && Judged(w.db, r.db, l.task, code, now)
      && r.history[l.task].retries == w.history[l.task].retries + (if PutsBack(w.db, l.task, code) then 1 else 0)
      && forall t | t in w.history && t != l.task :: r.history[t] == w.history[t]
  {
    var at := now + Wait(l.row, l.row.attemptCount);
    WaitIs(l, w.db.tasks[l.task], code, now);
    PutBackForm(w, l, code, now);
    hide Final, Retry, ReopenBlocked, Again, Freed, Wait, Inv, Closed, Waiting, StartOf, VerdictStep, SameIdentity;
    if !ReopenBlocked(w.db.jobs, w.db.tasks[l.task].job) {
      RetriedRow(w.db, l.task, l.token, code, at, now);
    }
  }

  lemma PutBackForm(w: World, l: Lease, code: string, now: int)
    requires Holds(w.db, l.task, l.token) && l.task in w.history && Retryable(code) && 1 <= l.row.attemptCount <= l.row.maxRetries
    ensures var r := VerdictStep(w, l, code, now);
      if ReopenBlocked(w.db.jobs, w.db.tasks[l.task].job) then r == w
      else r.db == Retry(w.db, l.task, l.token, code, now + Wait(l.row, l.row.attemptCount), now)
           && r.history.Keys == w.history.Keys && r.history[l.task].retries == w.history[l.task].retries + 1
           && forall t | t in w.history && t != l.task :: r.history[t] == w.history[t]
  {
    hide Retry, Retryable, ReopenBlocked, Wait;
  }

  lemma EndedVerdict(w: World, l: Lease, code: string, now: int)
    requires Inv(w.db) && l.token != "" && Holds(w.db, l.task, l.token) && l.task in w.history
    requires SameIdentity(l.row, w.db.tasks[l.task]) && l.row.attemptCount == w.db.tasks[l.task].attemptCount >= 1
    requires (Final(code) && !Retryable(code)) || l.row.attemptCount > l.row.maxRetries
    ensures var r := VerdictStep(w, l, code, now);
      r.history == w.history && Judged(w.db, r.db, l.task, code, now) && !PutsBack(w.db, l.task, code)
  {
    hide Final, Retryable, Retry, FinishFailure, ReopenBlocked, Again, Freed, Wait, Inv, Closed, Waiting, StartOf;
    FinishedRow(w.db, l.task, l.token, EndOf(code), code, now);
  }

  /** The verdict of a worker whose lease is current: after a final code, or with no retry left, the task ends, timed out
      or failed; after any other it waits for its next attempt, unless its job cannot be reopened, which undoes the call. */
  lemma VerdictLaw(w: World, name: string, now: int)
    requires Good(w) && Judges(Pc(w, name)) && Holds(w.db, Pc(w, name).lease.task, Pc(w, name).lease.token)
    ensures var l, code, after := Pc(w, name).lease, Pc(w, name).code, Step(w, VerdictEvent(name, now, true));
      Pc(after, name) == Idle && w.db.tasks[l.task].attemptCount >= 1 && Judged(w.db, after.db, l.task, code, now)
      && l.task in w.history && l.task in after.history
      && after.history[l.task].retries == w.history[l.task].retries + if PutsBack(w.db, l.task, code) then 1 else 0
  {
    HeldLease(w, name);
    JudgedStep(w, name, now);
    hide WorkersOk, TokensUsed, HistoriesOk, Inv, Step, VerdictStep, Judges, Holds, Judged, PutsBack, SameIdentity;
    VerdictRow(w, Pc(w, name).lease, Pc(w, name).code, now);
  }

  /** A cancelled run ends its task as cancelled, whatever its code. */
  lemma CancelledLaw(w: World, name: string, now: int)
    requires Good(w) && Pc(w, name).Faulted? && Pc(w, name).cancelled && Holds(w.db, Pc(w, name).lease.task, Pc(w, name).lease.token)
    ensures var t, after := Pc(w, name).lease.task, Step(w, VerdictEvent(name, now, true));
      after.db.tasks == w.db.tasks[t := Freed(w.db.tasks[t]).(status := Cancelled, errorCode := "BACKUP_CANCELLED", finishedAt := Some(now))]
      && after.db.attempts == Closed(w.db, t, Cancelled, "BACKUP_CANCELLED", now) && after.db.jobs == w.db.jobs && after.history == w.history
  {
    HeldLease(w, name);
    hide Inv, WorkersOk, TokensUsed, HistoriesOk, FinishFailure, Freed, Closed, SameIdentity;
    FinishedRow(w.db, Pc(w, name).lease.task, Pc(w, name).lease.token, Cancelled, "BACKUP_CANCELLED", now);
    CancelledForm(w, name, now);
    hide Step;
  }

  lemma CancelledForm(w: World, name: string, now: int)
    requires Pc(w, name).Faulted? && Pc(w, name).cancelled
    ensures var l, after := Pc(w, name).lease, Step(w, VerdictEvent(name, now, true));
      after.db == FinishFailure(w.db, l.task, l.token, Cancelled, "BACKUP_CANCELLED", now) && after.history == w.history
  {
    hide FinishFailure;
  }

  /** Before the verdict, a missing path of a plan that is not a manual one switches the plan off; no other failure does. */
  lemma PauseLaw(w: World, name: string, now: int)
    ensures var pc, after := Pc(w, name), Step(w, PauseOwnPlanEvent(name, now, true));
      if pc.Faulted? && !pc.cancelled && PausesFirst(pc.lease.row, pc.code)
      then Pc(after, name) == Deciding(pc.lease, pc.code)
           && (pc.lease.row.plan in w.db.plans ==>
                 pc.lease.row.plan in after.db.plans && !after.db.plans[pc.lease.row.plan].enabled
                 && after.db.plans[pc.lease.row.plan].nextRunAt == None && after.db.plans[pc.lease.row.plan].paused)
      else after == w
  {
    hide DropQueued;
  }

  // ---------------------------------------------------------------- how often a task is retried

  /** The step is a verdict that retries task t: not a final code, within the budget, the lease current, the job free. */
  predicate RetriesBy(w: World, e: Event, t: string)
  {
    e.VerdictEvent? && e.ok && Judges(Pc(w, e.name)) && Pc(w, e.name).lease.task == t && Holds(w.db, t, Pc(w, e.name).lease.token)
    && PutsBack(w.db, t, Pc(w, e.name).code)
  }

  lemma VerdictRefused(w: World, l: Lease, code: string, now: int)
    requires !Holds(w.db, l.task, l.token)
    ensures VerdictStep(w, l, code, now) == w
  {}

  lemma OtherVerdicts(w: World, e: Event)
    requires e.VerdictEvent? && !(e.ok && Judges(Pc(w, e.name)))
    ensures Step(w, e).history == w.history
  {
    JudgesIs(Pc(w, e.name));
    hide Judges, PausesPlan, VerdictStep, FinishFailure;
  }

  lemma HeldVerdictCounts(w: World, name: string, now: int, t: string)
    requires Good(w) && Judges(Pc(w, name)) && Holds(w.db, Pc(w, name).lease.task, Pc(w, name).lease.token) && t in w.history
    ensures var after := Step(w, VerdictEvent(name, now, true));
      t in after.history
      && after.history[t].retries == w.history[t].retries + if RetriesBy(w, VerdictEvent(name, now, true), t) then 1 else 0
  {
    var l, code := Pc(w, name).lease, Pc(w, name).code;
    HeldLease(w, name);
    JudgedStep(w, name, now);
    hide WorkersOk, TokensUsed, HistoriesOk, Inv;
    VerdictRow(w, l, code, now);
    RetriesByIs(w, name, now, t);
    hide Step, VerdictStep, Judges, Judged, PutsBack, SameIdentity, Pc, RetriesBy, Holds;
    assert t != l.task ==> VerdictStep(w, l, code, now).history[t] == w.history[t];
  }

  lemma RetriesByIs(w: World, name: string, now: int, t: string)
    requires Judges(Pc(w, name)) && Holds(w.db, Pc(w, name).lease.task, Pc(w, name).lease.token)
    ensures RetriesBy(w, VerdictEvent(name, now, true), t) <==>
      Pc(w, name).lease.task == t && PutsBack(w.db, t, Pc(w, name).code)
  {
    hide Judges, Final, ReopenBlocked;
  }

  lemma VerdictCounts(w: World, e: Event, t: string)
    requires Good(w) && e.VerdictEvent? && t in w.history
    ensures t in Step(w, e).history
    ensures Step(w, e).history[t].retries == w.history[t].retries + if RetriesBy(w, e, t) then 1 else 0
  {
    var pc := Pc(w, e.name);
    if !(e.ok && Judges(pc)) {
      OtherVerdicts(w, e);
    } else if Holds(w.db, pc.lease.task, pc.lease.token) {
      assert e == VerdictEvent(e.name, e.now, true);
      hide RetriesBy;
      HeldVerdictCounts(w, e.name, e.now, t);
    } else {
      JudgedStep(w, e.name, e.now);
      VerdictRefused(w, pc.lease, pc.code, e.now);
    }
    hide Good, Step, VerdictStep, Judges, Final, ReopenBlocked, Pc;
  }

  lemma OthersRetryNot(w: World, e: Event, t: string)
    requires !e.VerdictEvent? && !e.AddTaskEvent? && t in w.history
    ensures t in Step(w, e).history && Step(w, e).history[t].retries == w.history[t].retries
  {
    if HolderEvent(e) { HolderRetriesNot(w, e, t); }
    hide WorkerStep, TableStep, CancelTaskRow, RequeueAll, Expired, Reset, Resets, UpdatePlan, PausePlan, Edits, Claim, First;
  }

  lemma HolderRetriesNot(w: World, e: Event, t: string)
    requires HolderEvent(e) && !e.VerdictEvent? && t in w.history
    ensures t in WorkerStep(w, e).history && WorkerStep(w, e).history[t].retries == w.history[t].retries
  {
    hide SetStatus, Heartbeat, StartJob, StartsJob, CommitSnapshot, Commits, FailJob, SnapshotId, PausePlan, PausesPlan, Complete;
  }

  /** The retries of a task grow by one in exactly those steps. */
  lemma RetriesGrowBy(w: World, e: Event, t: string)
    requires Good(w) && t in w.history
    ensures t in Step(w, e).history
    ensures Step(w, e).history[t].retries == w.history[t].retries + if RetriesBy(w, e, t) then 1 else 0
  {
    if e.VerdictEvent? { VerdictCounts(w, e, t); }
    else if e.AddTaskEvent? { AddedElsewhere(w, e, t); }
    else { OthersRetryNot(w, e, t); }
    hide Good, Step, Judges;
  }

  lemma AddedElsewhere(w: World, e: Event, t: string)
    requires Good(w) && e.AddTaskEvent? && t in w.history
    ensures t in Step(w, e).history && Step(w, e).history[t] == w.history[t]
  {
    hide Inv, HistoryOk, WorkersOk, TokensUsed, AddTask;
  }

  function RetrySteps(events: seq<Event>, t: string): nat
  {
    if events == [] then 0
    else RetrySteps(events[..|events| - 1], t)
         + if RetriesBy(Run(START, events[..|events| - 1]), events[|events| - 1], t) then 1 else 0
  }

  lemma NewTask(w: World, e: Event, t: string)
    requires Good(w) && t !in w.history
    ensures !RetriesBy(w, e, t) && (t in Step(w, e).history ==> Step(w, e).history[t].retries == 0)
  {
    hide Inv, HistoryOk, WorkersOk, TokensUsed;
    if e.AddTaskEvent? { hide AddTask, AddsTask; } else { NoNewHistory(w, e); hide Step; }
  }

  lemma NoNewHistory(w: World, e: Event)
    requires !e.AddTaskEvent?
    ensures Step(w, e).history.Keys == w.history.Keys
  {
    if HolderEvent(e) { HolderKeys(w, e); }
    hide CancelTaskRow, Reset, RequeueAll, Expired, UpdatePlan, PausePlan, Claim, First, Resets, WorkerStep, TableStep, Edits;
  }

  lemma HolderKeys(w: World, e: Event)
    requires HolderEvent(e)
    ensures WorkerStep(w, e).history.Keys == w.history.Keys
  {
    hide SetStatus, Heartbeat, StartJob, StartsJob, CommitSnapshot, Commits, FailJob, SnapshotId, PausePlan, PausesPlan, Complete,
      FinishFailure, Retry, Retries, Retryable, Wait;
  }

  /** Over a whole run the retries of a task, which RetryBudget bounds, are those steps and no others. */
  lemma {:induction false} RetriesAreVerdicts(events: seq<Event>, t: string)
    ensures if t in Run(START, events).history then Run(START, events).history[t].retries == RetrySteps(events, t)
            else RetrySteps(events, t) == 0
  {
    if events != [] {
      var init, e := events[..|events| - 1], events[|events| - 1];
      var w := Run(START, init);
      RetriesAreVerdicts(init, t);
      ReachableIsGood(init);
      hide Good, Step, RetriesBy;
      if t in w.history { RetriesGrowBy(w, e, t); } else { NewTask(w, e, t); }
    }
  }

  // ---------------------------------------------------------------- recovery of expired leases

  /** The lease of t was given to it until now at the latest, by its claim or by its last heartbeat. */
  predicate Over(w: World, t: string, now: int)
  {
    t in w.db.tasks && w.db.tasks[t].token != "" && t in w.history && w.history[t].granted.Some? && w.history[t].granted.value <= now
  }

  function Recovered(row: Task, now: int): Task
  {
    Freed(row).(status := Queued, errorCode := "WORKER_INTERRUPTED", availableAt := now)
  }

  lemma ExpiredIsOver(w: World, t: string, now: int)
    requires Good(w)
    ensures t in Expired(w.db.tasks, now) <==> Over(w, t, now)
  {
    if t in w.db.tasks {
      RowFacts(w.db, t);
      LeaseStatuses(w.db.tasks[t]);
      assert t in w.history && HistoryOk(w.db.tasks[t], w.history[t]);
      hide Inv, WorkersOk, TokensUsed, HistoriesOk, Factors, Base, Wait, AttemptsOk, DeliveryOk;
    } else {
      hide Good;
    }
  }

  /** The running jobs of the listed tasks wait again, as if never started. */
  function Unstarted(s: State, items: seq<string>): map<string, Job>
  {
    map j | j in s.jobs ::
      if s.jobs[j].status == Running && exists t | t in items :: t in s.tasks && s.tasks[t].job == j
      then s.jobs[j].(status := Queued, errorCode := "", startedAt := None, finishedAt := None) else s.jobs[j]
  }

  lemma UnstartedNext(s: State, init: seq<string>, last: string)
    requires last in s.tasks
    ensures Unstarted(s, init + [last]) == Unstart(Unstarted(s, init), s.tasks[last].job)
  {}

  lemma {:induction false} RecoveredRows(s: State, items: seq<string>, now: int)
    requires forall t :: t in items ==> t in s.tasks
    requires forall i, j | 0 <= i < j < |items| :: items[i] != items[j]
    ensures forall t | t in s.tasks :: RequeueAll(s, items, now).tasks[t] == if t in items then Recovered(s.tasks[t], now) else s.tasks[t]
    ensures RequeueAll(s, items, now).jobs == Unstarted(s, items)
  {
    if items == [] {
      assert s.jobs == Unstarted(s, items);
    } else {
      var init, last := items[..|items| - 1], items[|items| - 1];
      assert items == init + [last] && last !in init;
      RecoveredRows(s, init, now);
      UnstartedNext(s, init, last);
      var mid := RequeueAll(s, init, now);
      SettleTouches(mid.(jobs := Unstart(mid.jobs, mid.tasks[last].job)), last,
        Released(mid.tasks[last]).(status := Queued, errorCode := "WORKER_INTERRUPTED", availableAt := now),
        Interrupted, Some("WORKER_INTERRUPTED"), now);
      hide Settle, Unstart;
    }
  }

  /** Recovery takes away exactly the leases whose granted time has come, and leaves every other row as it is; a listing
      of anything else is not what the query returns. */
  lemma RecoveryLaw(w: World, items: seq<string>, now: int)
    requires Good(w)
    ensures var after := Step(w, RequeueEvent(items, now));
      if (forall i, j | 0 <= i < j < |items| :: items[i] != items[j]) && (forall t :: t in items <==> Over(w, t, now))
      then after.db.tasks.Keys == w.db.tasks.Keys
           && (forall t | t in w.db.tasks :: after.db.tasks[t] == if Over(w, t, now) then Recovered(w.db.tasks[t], now) else w.db.tasks[t])
           && after.db.jobs == Unstarted(w.db, items)
      else after == w
  {
    var e := RequeueEvent(items, now);
    RecoversIs(w, items, now);
    RequeueForm(w, e);
    hide Good, Over, Expired, RequeueAll, Recovered, Step, Recovers, Unstarted;
    if Recovers(w, e) { RecoveredRows(w.db, items, now); }
  }

  lemma RecoversIs(w: World, items: seq<string>, now: int)
    requires Good(w)
    ensures Recovers(w, RequeueEvent(items, now)) <==>
      (forall i, j | 0 <= i < j < |items| :: items[i] != items[j]) && (forall t :: t in items <==> Over(w, t, now))
  {
    forall t ensures t in Expired(w.db.tasks, now) <==> Over(w, t, now) { ExpiredIsOver(w, t, now); }
    hide Good, Over, Expired;
  }

  lemma RequeueForm(w: World, e: Event)
    requires e.RequeueEvent?
    ensures if Recovers(w, e) then (forall t | t in e.items :: t in w.db.tasks) && Step(w, e).db == RequeueAll(w.db, e.items, e.now)
            else Step(w, e) == w
  {
    ExpiredAreTasks(w.db.tasks, e.now);
    hide RequeueAll, Expired;
  }

  // ---------------------------------------------------------------- claims and manual retries

  /** The row of a task that a worker has just claimed. */
  function Taken(row: Task, name: string, token: string, now: int, expires: int): Task
  {
    row.(status := Leased, attemptCount := row.attemptCount + 1, worker := name, token := token, expires := Some(expires),
         heartbeat := Some(now), startedAt := if row.startedAt.None? then Some(now) else row.startedAt)
  }

  /** A claim succeeds exactly for an idle worker, a fresh token and the foremost task that waits; it opens the next attempt. */
  lemma ClaimLaw(w: World, name: string, t: string, token: string, now: int, expires: int)
    requires Good(w)
    ensures var after := Step(w, ClaimEvent(name, t, token, now, expires));
      if Pc(w, name).Idle? && token != "" && token !in w.used && Leads(w.db.tasks, t, now)
      then var key := AttemptKey(t, w.db.tasks[t].attemptCount + 1);
           after.db.tasks == w.db.tasks[t := Taken(w.db.tasks[t], name, token, now, expires)]
           && key !in w.db.attempts && after.db.attempts == w.db.attempts[key := Attempt(Running, "", name, now, None)]
           && after.db.jobs == w.db.jobs
           && Pc(after, name) == Claimed(Lease(t, token, after.db.tasks[t])) && after.used == w.used + {token}
      else after == w
  {
    LeadsIs(w.db.tasks, t, now);
    HistoryIsThere(w, t);
    hide Leads;
    if Pc(w, name).Idle? && token != "" && token !in w.used && First(w.db.tasks, t, now) {
      assert Claimable(w.db.tasks, t, now);
      hide First;
      ClaimKeeps(w.db, t, name, token, now, expires);
      hide Good, Step, Claims, Claimable, Exact, Inv, JobsEvolve;
      ClaimEffect(w.db, t, name, token, now, expires);
      ClaimForm(w, name, t, token, now, expires);
      hide Claim, Taken, Pc;
    } else {
      hide Good, First, Claim;
    }
  }

  lemma HistoryIsThere(w: World, t: string)
    requires Good(w)
    ensures t in w.db.tasks <==> t in w.history
  {
    hide Inv, HistoryOk, WorkersOk, TokensUsed;
  }

  lemma ClaimForm(w: World, name: string, t: string, token: string, now: int, expires: int)
    requires Pc(w, name).Idle? && token != "" && token !in w.used && First(w.db.tasks, t, now) && t in w.history
    requires t in Claim(w.db, t, name, token, now, expires).tasks
    ensures var after := Step(w, ClaimEvent(name, t, token, now, expires));
      after.db == Claim(w.db, t, name, token, now, expires)
      && Pc(after, name) == Claimed(Lease(t, token, after.db.tasks[t])) && after.used == w.used + {token}
  {
    hide First, Claim;
  }

  lemma ClaimEffect(s: State, t: string, worker: string, token: string, now: int, expires: int)
    requires Claims(s, t, now)
    ensures var r, key := Claim(s, t, worker, token, now, expires), AttemptKey(t, s.tasks[t].attemptCount + 1);
      r.tasks == s.tasks[t := Taken(s.tasks[t], worker, token, now, expires)] && key !in s.attempts
      && r.attempts == s.attempts[key := Attempt(Running, "", worker, now, None)] && r.jobs == s.jobs
  {
    hide Recounted;
  }

  /** A manual retry reopens a task that failed, timed out, was interrupted or was cancelled, and its failed job with it,
      as if never started; it is refused in any other status and while another job occupies the deployment. */
  lemma ResetLaw(w: World, t: string, now: int)
    requires Good(w)
    ensures var after := Step(w, ResetEvent(t, now));
      if t in w.db.tasks && w.db.tasks[t].status in {Failed, TimedOut, Interrupted, Cancelled} && !ReopenBlocked(w.db.jobs, w.db.tasks[t].job)
      then var row := w.db.tasks[t];
           after.db.tasks == w.db.tasks[t := Freed(row).(status := Queued, errorCode := "MANUAL_RETRY", availableAt := now, finishedAt := None)]
           && after.db.jobs == Waiting(w.db.jobs, row.job, None) && after.db.attempts == w.db.attempts
      else after == w
  {
    HistoryIsThere(w, t);
    ResetsIs(w.db, t);
    hide Good, Reset, Resets, ReopenBlocked, Waiting, Freed, Step;
    ResetForm(w, t, now);
    if Resets(w.db, t) { ResetEffect(w.db, t, now); }
  }

  lemma ResetsIs(s: State, t: string)
    ensures Resets(s, t) <==>
      t in s.tasks && s.tasks[t].status in {Failed, TimedOut, Interrupted, Cancelled} && !ReopenBlocked(s.jobs, s.tasks[t].job)
  {
    hide ReopenBlocked;
  }

  lemma ResetForm(w: World, t: string, now: int)
    requires Resets(w.db, t) ==> t in w.history
    ensures Resets(w.db, t) ==> Step(w, ResetEvent(t, now)).db == Reset(w.db, t, now)
    ensures !Resets(w.db, t) ==> Step(w, ResetEvent(t, now)) == w
  {
    hide Reset, Resets;
  }

  lemma ResetEffect(s: State, t: string, now: int)
    requires Resets(s, t)
    ensures var r, row := Reset(s, t, now), s.tasks[t];
      r.tasks == s.tasks[t := Freed(row).(status := Queued, errorCode := "MANUAL_RETRY", availableAt := now, finishedAt := None)]
      && r.jobs == Waiting(s.jobs, row.job, None) && r.attempts == s.attempts
  {
    hide Recounted, ReopenBlocked;
  }

  // ---------------------------------------------------------------- snapshots in the trash

  /** A snapshot disappears exactly when a purge finds it in the trash since its deadline at the latest, and its row
      changes otherwise only when it is moved there. */
  lemma SnapshotLaw(w: World, e: Event, x: string)
    requires Good(w) && x in w.db.snapshots
    ensures var row, after := w.db.snapshots[x], Step(w, e).db.snapshots;
      (x !in after <==>
         e.PurgeEvent? && row.retention == Trashed && row.trashedAt.Some? && row.trashedAt.value <= e.now)
      && (x in after && after[x] != row ==>
            e.TrashEvent? && e.id == x && row.retention == Kept
            && after[x] == row.(retention := Trashed, path := e.path, trashedAt := Some(e.now)))
  {
    if e.PurgeEvent? { PurgeForm(w, e); }
    else if e.TrashEvent? { TrashForm(w, e); }
    else if e.CommitEvent? { CommitForm(w, e); }
    else { SnapshotsStay(w, e); }
    hide Good, Step;
  }

  lemma PurgeForm(w: World, e: Event)
    requires e.PurgeEvent?
    ensures Step(w, e).db == PurgeSnapshots(w.db, e.now)
  {}

  lemma TrashForm(w: World, e: Event)
    requires e.TrashEvent?
    ensures Step(w, e).db == TrashSnapshot(w.db, e.id, e.path, e.now)
  {
    hide TrashSnapshot;
  }

  lemma CommitForm(w: World, e: Event)
    requires e.CommitEvent?
    ensures forall x | x in w.db.snapshots :: x in Step(w, e).db.snapshots && Step(w, e).db.snapshots[x] == w.db.snapshots[x]
  {
    hide SnapshotId;
  }

  lemma SnapshotsStay(w: World, e: Event)
    requires !e.PurgeEvent? && !e.TrashEvent? && !e.CommitEvent?
    ensures Step(w, e).db.snapshots == w.db.snapshots
  {
    if HolderEvent(e) {
      HolderSnapshots(w, e);
      hide WorkerStep;
    } else if e.RequeueEvent? {
      if forall t | t in e.items :: t in Expired(w.db.tasks, e.now) { RequeueSnapshots(w.db, e.items, e.now); }
      hide RequeueAll, Expired;
    } else {
      TablesKeepSnapshots(w, e);
      hide AddTask, AddsTask, CancelTaskRow, Reset, Resets, UpdatePlan, PausePlan, Claim, First, TableStep, DropQueued;
    }
  }

  lemma TablesKeepSnapshots(w: World, e: Event)
    requires !e.PurgeEvent? && !e.TrashEvent?
    ensures TableStep(w.db, e).snapshots == w.db.snapshots
    ensures e.AddTaskEvent? ==> AddTask(w.db, e.id, e.task, e.now).snapshots == w.db.snapshots
    ensures e.CancelTaskEvent? ==> CancelTaskRow(w.db, e.id, e.now).snapshots == w.db.snapshots
    ensures e.ResetEvent? ==> Reset(w.db, e.id, e.now).snapshots == w.db.snapshots
    ensures e.EditPlanEvent? ==> UpdatePlan(w.db, e.id, e.plan, e.cancelQueued, e.now).snapshots == w.db.snapshots
    ensures e.PausePlanEvent? ==> PausePlan(w.db, e.id, e.now).snapshots == w.db.snapshots
    ensures e.ClaimEvent? ==> Claim(w.db, e.id, e.name, e.token, e.now, e.expires).snapshots == w.db.snapshots
  {
    hide Recounted, AddsTask, Resets, ReopenBlocked, Reopen, ValidTargets, CreatesBatch, CreatesJob, Claims;
  }

  lemma HolderSnapshots(w: World, e: Event)
    requires HolderEvent(e) && !e.CommitEvent?
    ensures WorkerStep(w, e).db.snapshots == w.db.snapshots
  {
    var pc := Pc(w, e.name);
    if !pc.Idle? { GuardedSnapshots(w.db, pc.lease.task, pc.lease.token); }
    if e.VerdictEvent? {
      VerdictForm(w, e);
      if pc.Faulted? || pc.Deciding? { VerdictSnapshots(w, pc.lease, pc.code, e.now); }
      hide WorkerStep, VerdictStep, FinishFailure;
    } else {
      hide Complete, SetStatus, Heartbeat, PausesPlan, DropQueued, SnapshotId;
    }
  }

  lemma GuardedSnapshots(s: State, t: string, token: string)
    ensures forall snapshot, now :: Complete(s, t, token, snapshot, now).snapshots == s.snapshots
    ensures forall status, code, now :: FinishFailure(s, t, token, status, code, now).snapshots == s.snapshots
    ensures forall code, at, now :: Retry(s, t, token, code, at, now).snapshots == s.snapshots
    ensures forall status :: SetStatus(s, t, token, status).snapshots == s.snapshots
    ensures forall now, expires :: Heartbeat(s, t, token, now, expires).snapshots == s.snapshots
  {
    hide EndAttempts, Recounted, Reopen, ReopenBlocked;
  }

  lemma VerdictSnapshots(w: World, l: Lease, code: string, now: int)
    ensures VerdictStep(w, l, code, now).db.snapshots == w.db.snapshots
  {
    GuardedSnapshots(w.db, l.task, l.token);
    hide Retry, FinishFailure, Retries, Retryable, Wait;
  }

  lemma {:induction false} RequeueSnapshots(s: State, items: seq<string>, now: int)
    requires forall t :: t in items ==> t in s.tasks
    ensures RequeueAll(s, items, now).snapshots == s.snapshots
  {
    if items != [] {
      RequeueSnapshots(s, items[..|items| - 1], now);
      hide EndAttempts, Recounted, Unstart;
    }
  }
}
