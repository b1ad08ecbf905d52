/** What holds in every state that any run of the queue can reach. */
module QueueTheorems {
  import opened Tables
  import opened QueueSpec
  import opened QueueInvariants
  import opened QueueRuns

  // ---------------------------------------------------------------- invariant of a world

  function Allowed(row: Task): nat
  {
    if row.maxRetries < 0 then 0 else row.maxRetries
  }

  function Least(a: nat, b: nat): nat
  {
    if a < b then a else b
  }

  /** Attempts that have ended, as far as automatic retries may follow them. */
  function Spent(row: Task): nat
  {
    var ended: nat := if row.token != "" && row.attemptCount > 0 then row.attemptCount - 1 else row.attemptCount;
    Least(ended, Allowed(row))
  }

  /** The books of one task. */
  ghost predicate HistoryOk(row: Task, h: History)
  {
    h.claims == row.attemptCount
    && h.created + h.retries + h.requeues + h.resets == h.claims + h.dropped + (if row.status == Queued then 1 else 0)
    && h.retries <= Spent(row)
    && h.delay <= Base(row) * Factors(Spent(row))
    && (row.token != "" ==> row.expires == h.granted)
    && (h.pending.Some? ==>
          h.pending.value.number >= 1
          && (row.status == Queued ==>
                row.attemptCount == h.pending.value.number
                && row.availableAt == h.pending.value.at + Wait(row, h.pending.value.number)))
  }

  ghost predicate HistoriesOk(tasks: map<string, Task>, history: map<string, History>)
  {
    tasks.Keys == history.Keys && forall t | t in tasks :: HistoryOk(tasks[t], history[t])
  }

  ghost predicate LeaseKnown(tasks: map<string, Task>, used: set<string>, l: Lease)
  {
    l.token != "" && l.token in used && l.task in tasks && SameIdentity(l.row, tasks[l.task])
    && 1 <= l.row.attemptCount <= tasks[l.task].attemptCount
    && (tasks[l.task].token == l.token ==> tasks[l.task].attemptCount == l.row.attemptCount)
  }

  ghost predicate WorkerOk(tasks: map<string, Task>, jobs: map<string, Job>, used: set<string>, pc: Worker)
  {
    pc.Idle?
    || (LeaseKnown(tasks, used, pc.lease)
        && (pc.Delivered? || pc.Completing? ==>
              pc.lease.row.job in jobs && jobs[pc.lease.row.job].status == Succeeded)
        && (pc.Completing? ==> pc.snapshot == jobs[pc.lease.row.job].snapshot))
  }

  ghost predicate WorkersOk(w: World)
  {
    forall name | name in w.workers :: WorkerOk(w.db.tasks, w.db.jobs, w.used, w.workers[name])
  }

  /** Every lease token in the table has been handed out by a claim, and no claim hands out the empty one. */
  ghost predicate TokensUsed(tasks: map<string, Task>, used: set<string>)
  {
    "" !in used && forall t | t in tasks && tasks[t].token != "" :: tasks[t].token in used
  }

  ghost predicate Good(w: World)
  {
    Inv(w.db) && WorkersOk(w) && TokensUsed(w.db.tasks, w.used) && HistoriesOk(w.db.tasks, w.history)
  }

  // ---------------------------------------------------------------- relation between a world and a later one

  /** A token that stopped being a task's token never becomes it again. */
  ghost predicate Fenced(a: World, b: World)
  {
    a.used <= b.used
    && forall t, token | t in a.db.tasks && token in a.used && a.db.tasks[t].token != token ::
         t in b.db.tasks && b.db.tasks[t].token != token
  }

  ghost predicate Monotone(a: World, b: World)
  {
    JobsEvolve(a.db.jobs, b.db.jobs)
    && forall t | t in a.db.tasks ::
         t in b.db.tasks && SameIdentity(a.db.tasks[t], b.db.tasks[t])
         && a.db.tasks[t].attemptCount <= b.db.tasks[t].attemptCount
         && (a.db.tasks[t].status == Succeeded || a.db.tasks[t].status == Skipped ==> b.db.tasks[t].status == a.db.tasks[t].status)
  }

  ghost predicate Later(a: World, b: World)
  {
    Fenced(a, b) && Monotone(a, b)
  }

  lemma LaterReflexive(w: World)
    ensures Later(w, w)
  {
  }

  lemma FencedTransitive(a: World, b: World, c: World)
    requires Fenced(a, b) && Fenced(b, c)
    ensures Fenced(a, c)
  {
  }

  lemma MonotoneTransitive(a: World, b: World, c: World)
    requires Monotone(a, b) && Monotone(b, c)
    ensures Monotone(a, c)
  {
    JobsEvolveTransitive(a.db.jobs, b.db.jobs, c.db.jobs);
    hide JobsEvolve;
    forall t | t in a.db.tasks
      ensures t in c.db.tasks && SameIdentity(a.db.tasks[t], c.db.tasks[t])
        && a.db.tasks[t].attemptCount <= c.db.tasks[t].attemptCount
        && (a.db.tasks[t].status == Succeeded || a.db.tasks[t].status == Skipped ==> c.db.tasks[t].status == a.db.tasks[t].status)
    {
      assert t in b.db.tasks;
    }
  }

  // ---------------------------------------------------------------- what a lease-free step of the tables does to a world

  lemma WorkerStays(a: State, b: State, used: set<string>, pc: Worker)
    requires Evolves(a, b) && WorkerOk(a.tasks, a.jobs, used, pc)
    ensures WorkerOk(b.tasks, b.jobs, used, pc)
  {
    if !pc.Idle? {
      assert RowEvolves(a.tasks[pc.lease.task], b.tasks[pc.lease.task]);
    }
  }

  lemma WorkersStay(w: World, db: State, history: map<string, History>)
    requires Good(w) && Inv(db) && Evolves(w.db, db) && HistoriesOk(db.tasks, history)
    ensures Good(w.(db := db, history := history)) && Later(w, w.(db := db, history := history))
  {
    var after := w.(db := db, history := history);
    assert WorkersOk(after) by {
      hide Inv, HistoriesOk, TokensUsed, Evolves, WorkerOk;
      forall name | name in w.workers ensures WorkerOk(db.tasks, db.jobs, w.used, w.workers[name]) {
        WorkerStays(w.db, db, w.used, w.workers[name]);
      }
    }
    assert TokensUsed(db.tasks, w.used) && Later(w, after) by {
      hide Inv, HistoriesOk, WorkersOk, JobsEvolve;
    }
    hide Inv, HistoriesOk, WorkersOk, TokensUsed, Evolves;
  }

  /** A transaction that changes no task row. */
  lemma QuietStep(w: World, db: State)
    requires Good(w) && Inv(db) && Evolves(w.db, db) && db.tasks == w.db.tasks
    ensures Good(w.(db := db)) && Later(w, w.(db := db))
  {
    hide Inv, Evolves, HistoriesOk, WorkersOk, TokensUsed, Later;
    WorkersStay(w, db, w.history);
    assert w.(db := db) == w.(db := db, history := w.history);
  }

  /** A transaction that changes one task row. */
  lemma RowStep(w: World, db: State, t: string, h: History)
    requires Good(w) && Inv(db) && Evolves(w.db, db) && t in db.tasks && HistoryOk(db.tasks[t], h)
    requires db.tasks == w.db.tasks[t := db.tasks[t]]
    ensures Good(w.(db := db, history := Note(w, t, h))) && Later(w, w.(db := db, history := Note(w, t, h)))
  {
    hide Inv, Evolves, WorkersOk, TokensUsed, Later, HistoryOk;
    WorkersStay(w, db, Note(w, t, h));
  }

  /** A worker moves on without touching the tables. */
  lemma PcStep(w: World, name: string, pc: Worker)
    requires Good(w) && WorkerOk(w.db.tasks, w.db.jobs, w.used, pc)
    ensures Good(Move(w, name, pc)) && Later(w, Move(w, name, pc))
  {
    hide Inv, WorkerOk, HistoriesOk, TokensUsed, Later;
    assert Later(w, Move(w, name, pc)) by {
      hide Good, WorkersOk;
      LaterCongruent(w, Move(w, name, pc));
    }
  }

  lemma LaterCongruent(a: World, b: World)
    requires a.db == b.db && a.used == b.used
    ensures Later(a, b)
  {
  }

  lemma LaterMove(a: World, b: World, name: string, pc: Worker)
    requires Later(a, b)
    ensures Later(a, Move(b, name, pc))
  {
  }

  // ---------------------------------------------------------------- arithmetic of delays

  lemma {:induction false} FactorsGrow(m: nat, n: nat)
    requires m <= n
    ensures Factors(m) <= Factors(n)
  {
    if m < n { FactorsGrow(m, n - 1); }
  }

  lemma BudgetGrows(base: nat, m: nat, n: nat)
    requires m <= n
    ensures base * Factors(m) <= base * Factors(n)
  {
    FactorsGrow(m, n);
    hide Factors;
    Scale(base, Factors(m), Factors(n));
  }

  lemma Scale(b: nat, x: nat, y: nat)
    requires x <= y
    ensures b * x <= b * y
  {
    assert b * y - b * x == b * (y - x);
  }

  /** The books stay right when the row ends, or stays in progress, without another claim. */
  lemma BooksCarry(a: Task, b: Task, h: History)
    requires HistoryOk(a, h) && SameIdentity(a, b) && a.attemptCount == b.attemptCount
    requires (b.token == a.token && b.expires == a.expires) || b.token == ""
    requires (a.status == Queued) == (b.status == Queued) && (a.status == Queued ==> b.availableAt == a.availableAt)
    ensures HistoryOk(b, h)
  {
    BudgetGrows(Base(a), Spent(a), Spent(b));
    hide Factors, Factor, Pow2;
  }

  lemma BooksProlong(a: Task, b: Task, h: History)
    requires HistoryOk(a, h) && SameIdentity(a, b) && a.attemptCount == b.attemptCount && b.token == a.token
    requires b.status == a.status && b.availableAt == a.availableAt
    ensures HistoryOk(b, h.(granted := b.expires))
  {
    hide Factors, Factor, Pow2;
  }

  lemma BooksReopen(a: Task, b: Task, h: History, requeue: bool)
    requires HistoryOk(a, h) && SameIdentity(a, b) && a.attemptCount == b.attemptCount
    requires b.token == "" && a.status != Queued && b.status == Queued
    ensures HistoryOk(b, if requeue then h.(requeues := h.requeues + 1, pending := None) else h.(resets := h.resets + 1, pending := None))
  {
    BudgetGrows(Base(a), Spent(a), Spent(b));
    hide Factors, Factor, Pow2;
  }

  lemma BooksDrop(a: Task, b: Task, h: History)
    requires HistoryOk(a, h) && SameIdentity(a, b) && a.attemptCount == b.attemptCount
    requires b.token == a.token && b.expires == a.expires && a.status == Queued && b.status != Queued
    ensures HistoryOk(b, h.(dropped := h.dropped + 1, pending := None))
  {
    hide Factors, Factor, Pow2;
  }

  lemma BooksClaim(a: Task, b: Task, h: History)
    requires HistoryOk(a, h) && SameIdentity(a, b) && b.attemptCount == a.attemptCount + 1
    requires a.token == "" && b.token != "" && b.expires.Some? && a.status == Queued && b.status != Queued
    ensures HistoryOk(b, h.(claims := h.claims + 1, pending := None, granted := b.expires))
  {
    hide Factors, Factor, Pow2;
  }

  /** An automatic retry of attempt n spends the budget of attempt n. */
  lemma BooksRetry(a: Task, b: Task, h: History, now: int)
    requires HistoryOk(a, h) && SameIdentity(a, b) && a.attemptCount == b.attemptCount
    requires a.token != "" && b.token == "" && a.status != Queued && b.status == Queued
    requires 1 <= a.attemptCount <= a.maxRetries && b.availableAt == now + Wait(a, a.attemptCount)
    ensures HistoryOk(b, h.(retries := h.retries + 1, delay := h.delay + Wait(a, a.attemptCount),
                            pending := Some(Backoff(a.attemptCount, now))))
  {
    var n := a.attemptCount;
    assert Spent(a) == n - 1 && Spent(b) == n;
    assert Factors(n) == Factors(n - 1) + Factor(n);
    hide Factors, Factor;
    Distribute(Base(a), Factors(n - 1), Factor(n));
  }

  lemma Distribute(b: nat, x: nat, y: nat)
    ensures b * (x + y) == b * x + b * y
  {
  }

  // ---------------------------------------------------------------- one lemma per event

  lemma AddTaskStepKeeps(w: World, id: string, task: Task, now: int)
    requires Good(w)
    ensures Good(AddTaskStep(w, id, task, now)) && Later(w, AddTaskStep(w, id, task, now))
  {
    hide Inv, Evolves, HistoriesOk, WorkersOk, TokensUsed, Later, HistoryOk, AddsTask, AddTask;
    if (task.status == Queued || task.status == Skipped) && task.attemptCount == 0 && AddsTask(w.db, id, task) {
      var h := History(if task.status == Queued then 1 else 0, 0, 0, 0, 0, 0, 0, None, None);
      AddTaskKeeps(w.db, id, task, now);
      AddTaskWrites(w.db, id, task, now);
      FirstEntry(FreshTask(task), h);
      RowStep(w, AddTask(w.db, id, task, now), id, h);
    } else {
      LaterReflexive(w);
    }
  }

  lemma AddTaskWrites(s: State, id: string, task: Task, now: int)
    requires AddsTask(s, id, task)
    ensures AddTask(s, id, task, now).tasks == s.tasks[id := FreshTask(task)]
  {
  }

  lemma FirstEntry(row: Task, h: History)
    requires row.attemptCount == 0 && row.token == "" && h == History(if row.status == Queued then 1 else 0, 0, 0, 0, 0, 0, 0, None, None)
    ensures HistoryOk(row, h)
  {
    hide Factors;
  }

  lemma CancelTaskStepKeeps(w: World, t: string, now: int)
    requires Good(w)
    ensures Good(CancelTaskStep(w, t, now)) && Later(w, CancelTaskStep(w, t, now))
  {
    hide Inv, Evolves, WorkersOk, TokensUsed, Later, HistoryOk;
    if t in w.db.tasks && t in w.history && w.db.tasks[t].status == Queued {
      var db := CancelTaskRow(w.db, t, now);
      CancelTaskRowKeeps(w.db, t, now);
      BooksDrop(w.db.tasks[t], db.tasks[t], w.history[t]);
      RowStep(w, db, t, w.history[t].(dropped := w.history[t].dropped + 1, pending := None));
    } else {
      LaterReflexive(w);
    }
  }

  lemma ResetStepKeeps(w: World, t: string, now: int)
    requires Good(w)
    ensures Good(ResetStep(w, t, now)) && Later(w, ResetStep(w, t, now))
  {
    hide Inv, Evolves, WorkersOk, TokensUsed, Later, HistoryOk, ReopenBlocked, Recounted, Exact;
    if Resets(w.db, t) && t in w.history {
      var db := Reset(w.db, t, now);
      ResetKeeps(w.db, t, now);
      BooksReopen(w.db.tasks[t], db.tasks[t], w.history[t], false);
      RowStep(w, db, t, w.history[t].(resets := w.history[t].resets + 1, pending := None));
    } else {
      LaterReflexive(w);
    }
  }

  lemma ExpiredIsLeased(s: State, t: string, now: int)
    requires Inv(s) && t in Expired(s.tasks, now)
    ensures t in s.tasks && s.tasks[t].token != "" && s.tasks[t].status != Queued
  {
    hide Inv, Terminal;
    RowFacts(s, t);
    LeaseStatuses(s.tasks[t]);
    hide AttemptsOk, DeliveryOk;
  }

  lemma RequeueStepKeeps(w: World, items: seq<string>, now: int)
    requires Good(w)
    ensures Good(RequeueStep(w, items, now)) && Later(w, RequeueStep(w, items, now))
  {
    hide Inv, Evolves, WorkersOk, TokensUsed, Later, HistoryOk, RequeueAll, Expired;
    var after := RequeueStep(w, items, now);
    LaterReflexive(w);
    if (forall i, j | 0 <= i < j < |items| :: items[i] != items[j])
       && (forall t | t in items :: t in Expired(w.db.tasks, now)) && (forall t | t in Expired(w.db.tasks, now) :: t in items) {
      forall t | t in items ensures t in w.db.tasks && w.db.tasks[t].token != "" && w.db.tasks[t].status != Queued {
        ExpiredIsLeased(w.db, t, now);
      }
      RequeueAllKeeps(w.db, items, now);
      RequeueAllRows(w.db, items, now);
      forall t | t in w.db.tasks ensures HistoryOk(after.db.tasks[t], after.history[t]) {
        if t in items { BooksReopen(w.db.tasks[t], after.db.tasks[t], w.history[t], true); }
      }
      WorkersStay(w, after.db, after.history);
    }
  }

  /** The row recovery leaves behind for each task it lists. */
  lemma {:induction false} RequeueAllRows(s: State, items: seq<string>, now: int)
    requires forall t :: t in items ==> t in s.tasks
    ensures forall t | t in items :: var row := RequeueAll(s, items, now).tasks[t];
      row.status == Queued && row.token == "" && SameIdentity(s.tasks[t], row)
      && row.attemptCount == s.tasks[t].attemptCount && row.availableAt == now
    ensures forall t | t in s.tasks && t !in items :: RequeueAll(s, items, now).tasks[t] == s.tasks[t]
  {
    if items != [] {
      var init, last := items[..|items| - 1], items[|items| - 1];
      assert items == init + [last];
      RequeueAllRows(s, init, now);
      var mid := RequeueAll(s, init, now);
      SettleTouches(mid.(jobs := Unstart(mid.jobs, mid.tasks[last].job)), last,
        Released(mid.tasks[last]).(status := Queued, errorCode := "WORKER_INTERRUPTED", availableAt := now),
        Interrupted, Some("WORKER_INTERRUPTED"), now);
      hide Settle, Unstart;
      assert SameIdentity(s.tasks[last], mid.tasks[last]);
    }
  }

  lemma DropStep(w: World, plan: string, status: Status, code: string, now: int, db: State)
    requires Good(w) && (status == Cancelled || status == Skipped)
    requires Inv(db) && Evolves(w.db, db) && db.tasks == EndQueued(w.db, plan, status, code, now).tasks
    ensures Good(w.(db := db, history := DropQueued(w, plan))) && Later(w, w.(db := db, history := DropQueued(w, plan)))
  {
    hide Inv, Evolves, WorkersOk, TokensUsed, Later, HistoryOk;
    var history := DropQueued(w, plan);
    forall t | t in w.db.tasks ensures HistoryOk(db.tasks[t], history[t]) {
      if QueuedFor(w.db.tasks[t], plan) { BooksDrop(w.db.tasks[t], db.tasks[t], w.history[t]); }
    }
    WorkersStay(w, db, history);
  }

  lemma PausePlanStepKeeps(w: World, p: string, now: int)
    requires Good(w)
    ensures Good(PausePlanStep(w, p, now)) && Later(w, PausePlanStep(w, p, now))
  {
    hide Inv, Evolves, Later, DropQueued, HistoriesOk, WorkersOk, TokensUsed;
    PausePlanKeeps(w.db, p, now);
    DropStep(w, p, Skipped, "PLAN_PAUSED_SCOPE_INVALID", now, PausePlan(w.db, p, now));
  }

  lemma EditPlanStepKeeps(w: World, p: string, row: Plan, cancelQueued: bool, now: int)
    requires Good(w)
    ensures Good(EditPlanStep(w, p, row, cancelQueued, now)) && Later(w, EditPlanStep(w, p, row, cancelQueued, now))
  {
    hide Inv, Evolves, Later, DropQueued, HistoriesOk, WorkersOk, TokensUsed;
    UpdatePlanKeeps(w.db, p, row, cancelQueued, now);
    if Edits(w.db, p, row) && cancelQueued {
      DropStep(w, p, Cancelled, "SCOPE_REVISION_SUPERSEDED", now, UpdatePlan(w.db, p, row, cancelQueued, now));
    } else {
      QuietStep(w, UpdatePlan(w.db, p, row, cancelQueued, now));
      assert EditPlanStep(w, p, row, cancelQueued, now) == w.(db := UpdatePlan(w.db, p, row, cancelQueued, now));
    }
  }

  lemma FinishStepKeeps(w: World, l: Lease, status: Status, code: string, now: int)
    requires Good(w) && l.token != "" && Reopenable(status)
    ensures Good(FinishStep(w, l, status, code, now)) && Later(w, FinishStep(w, l, status, code, now))
  {
    hide Inv, Evolves, WorkersOk, TokensUsed, Later, HistoryOk, Settle, Exact;
    var db := FinishFailure(w.db, l.task, l.token, status, code, now);
    FinishFailureKeeps(w.db, l.task, l.token, status, code, now);
    if Holds(w.db, l.task, l.token) {
      var t := l.task;
      HolderIsLeased(w.db, t, l.token);
      var row := Released(w.db.tasks[t]).(status := status, errorCode := code, finishedAt := Some(now));
      SettleTouches(w.db, t, row, status, Some(code), now);
      BooksCarry(w.db.tasks[t], row, w.history[t]);
      RowStep(w, db, t, w.history[t]);
      assert Note(w, t, w.history[t]) == w.history;
    } else {
      LaterReflexive(w);
    }
  }

  lemma VerdictStepKeeps(w: World, l: Lease, code: string, now: int)
    requires Good(w) && LeaseKnown(w.db.tasks, w.used, l)
    ensures Good(VerdictStep(w, l, code, now)) && Later(w, VerdictStep(w, l, code, now))
  {
    hide Inv, Evolves, WorkersOk, TokensUsed, Later, HistoryOk, Settle, Exact, Retryable, ReopenBlocked, Factor, Base;
    LaterReflexive(w);
    if Retryable(code) && 1 <= l.row.attemptCount <= l.row.maxRetries {
      if Retries(w.db, l.task, l.token) && l.task in w.history {
        var t, n, before := l.task, l.row.attemptCount, w.db.tasks[l.task];
        var db := Retry(w.db, t, l.token, code, now + Wait(l.row, n), now);
        RetryKeeps(w.db, t, l.token, code, now + Wait(l.row, n), now);
        HolderIsLeased(w.db, t, l.token);
        var row := Released(before).(status := Queued, errorCode := code, availableAt := now + Wait(l.row, n));
        SettleTouches(w.db.(jobs := Reopen(w.db.jobs, before.job, false)), t, row, Failed, Some(code), now);
        SameWait(l.row, before, n);
        BooksRetry(before, row, w.history[t], now);
        RowStep(w, db, t, w.history[t].(retries := w.history[t].retries + 1, delay := w.history[t].delay + Wait(l.row, n),
                                        pending := Some(Backoff(n, now))));
      }
    } else {
      FinishStepKeeps(w, l, if code == "BACKUP_TIMED_OUT" then TimedOut else Failed, code, now);
    }
  }

  lemma SameWait(a: Task, b: Task, n: nat)
    requires SameIdentity(a, b) && n >= 1
    ensures Wait(a, n) == Wait(b, n)
  {
  }

  lemma ClaimStepKeeps(w: World, name: string, t: string, token: string, now: int, expires: int)
    requires Good(w)
    ensures Good(ClaimStep(w, name, t, token, now, expires)) && Later(w, ClaimStep(w, name, t, token, now, expires))
  {
    hide Inv, HistoriesOk, Exact, WorkersOk, TokensUsed, Later, Claim, Claims;
    LaterReflexive(w);
    if Pc(w, name).Idle? && First(w.db.tasks, t, now) && t in w.history && token != "" && token !in w.used {
      assert Claimable(w.db.tasks, t, now);
      hide First;
      ClaimKeeps(w.db, t, name, token, now, expires);
      ClaimWrites(w.db, t, name, token, now, expires);
      ClaimedWorld(w, Claim(w.db, t, name, token, now, expires), name, t, token, now, expires);
    }
  }

  lemma ClaimedWorld(w: World, db: State, name: string, t: string, token: string, now: int, expires: int)
    requires Good(w) && Inv(db) && t in w.db.tasks && w.db.tasks[t].status == Queued && t in w.history
    requires token != "" && token !in w.used && db.jobs == w.db.jobs
    requires db.tasks == w.db.tasks[t := LeasedRow(w.db.tasks[t], name, token, now, expires)]
    ensures var after := World(db, w.workers[name := Claimed(Lease(t, token, db.tasks[t]))],
                               Note(w, t, w.history[t].(claims := w.history[t].claims + 1, pending := None, granted := Some(expires))), w.used + {token});
      Good(after) && Later(w, after)
  {
    hide Inv, HistoriesOk, WorkersOk, TokensUsed, Later;
    var after := World(db, w.workers[name := Claimed(Lease(t, token, db.tasks[t]))],
                       Note(w, t, w.history[t].(claims := w.history[t].claims + 1, pending := None, granted := Some(expires))), w.used + {token});
    QueuedHasNoToken(w.db, t);
    ClaimedBooks(w, after, t);
    ClaimedWorkers(w, after, name, t, token);
  }

  lemma QueuedHasNoToken(s: State, t: string)
    requires Inv(s) && t in s.tasks && s.tasks[t].status == Queued
    ensures s.tasks[t].token == ""
  {
    hide Inv;
    RowFacts(s, t);
    hide AttemptsOk, DeliveryOk;
  }

  lemma ClaimWrites(s: State, t: string, worker: string, token: string, now: int, expires: int)
    requires Claims(s, t, now)
    ensures Claim(s, t, worker, token, now, expires).tasks == s.tasks[t := LeasedRow(s.tasks[t], worker, token, now, expires)]
    ensures Claim(s, t, worker, token, now, expires).jobs == s.jobs
  {
  }

  lemma ClaimedBooks(w: World, after: World, t: string)
    requires HistoriesOk(w.db.tasks, w.history) && t in w.db.tasks && t in after.db.tasks
    requires after.db.tasks == w.db.tasks[t := after.db.tasks[t]]
    requires SameIdentity(w.db.tasks[t], after.db.tasks[t]) && after.db.tasks[t].attemptCount == w.db.tasks[t].attemptCount + 1
    requires w.db.tasks[t].token == "" && after.db.tasks[t].token != "" && after.db.tasks[t].expires.Some?
    requires w.db.tasks[t].status == Queued && after.db.tasks[t].status != Queued
    requires t in w.history
    requires after.history == Note(w, t, w.history[t].(claims := w.history[t].claims + 1, pending := None, granted := after.db.tasks[t].expires))
    ensures HistoriesOk(after.db.tasks, after.history)
  {
    hide HistoryOk;
    BooksClaim(w.db.tasks[t], after.db.tasks[t], w.history[t]);
  }

  lemma ClaimedWorkers(w: World, after: World, name: string, t: string, token: string)
    requires WorkersOk(w) && TokensUsed(w.db.tasks, w.used) && token != "" && token !in w.used
    requires t in w.db.tasks && after.db.jobs == w.db.jobs && after.used == w.used + {token}
    requires t in after.db.tasks && after.db.tasks == w.db.tasks[t := after.db.tasks[t]]
    requires SameIdentity(w.db.tasks[t], after.db.tasks[t]) && after.db.tasks[t].token == token
    requires after.db.tasks[t].attemptCount == w.db.tasks[t].attemptCount + 1
    requires w.db.tasks[t].status == Queued
    requires after.workers == w.workers[name := Claimed(Lease(t, token, after.db.tasks[t]))]
    ensures WorkersOk(after) && TokensUsed(after.db.tasks, after.used) && Later(w, after)
  {
    forall other | other in after.workers
      ensures WorkerOk(after.db.tasks, after.db.jobs, after.used, after.workers[other])
    {
      hide TokensUsed;
      if other != name {
        assert WorkerOk(w.db.tasks, w.db.jobs, w.used, w.workers[other]);
      }
    }
    hide WorkersOk;
  }

  // ---------------------------------------------------------------- steps of a worker that holds a claim

  lemma PcOk(w: World, name: string)
    requires Good(w)
    ensures WorkerOk(w.db.tasks, w.db.jobs, w.used, Pc(w, name))
  {
    hide Inv, HistoriesOk, TokensUsed, LeaseKnown;
  }

  /** A step of the tables followed by a move of the worker that made it. */
  lemma ThenMove(w: World, mid: World, name: string, pc: Worker)
    requires Good(mid) && Later(w, mid) && WorkerOk(mid.db.tasks, mid.db.jobs, mid.used, pc)
    ensures Good(Move(mid, name, pc)) && Later(w, Move(mid, name, pc))
  {
    hide Good, WorkerOk, Later;
    PcStep(mid, name, pc);
    LaterMove(w, mid, name, pc);
  }

  /** A job statement of a worker: no task row changes. */
  lemma JobStep(w: World, db: State, name: string, pc: Worker)
    requires Good(w) && Inv(db) && Evolves(w.db, db) && db.tasks == w.db.tasks
    requires WorkerOk(db.tasks, db.jobs, w.used, pc)
    ensures Good(Move(w.(db := db), name, pc)) && Later(w, Move(w.(db := db), name, pc))
  {
    hide Good, WorkerOk, Later, Inv, Evolves;
    QuietStep(w, db);
    ThenMove(w, w.(db := db), name, pc);
  }

  lemma SetStatusStep(w: World, l: Lease)
    requires Good(w) && l.token != ""
    ensures var db := SetStatus(w.db, l.task, l.token, Prechecking);
      Good(w.(db := db)) && Later(w, w.(db := db)) && Evolves(w.db, db)
  {
    hide Inv, Evolves, WorkersOk, TokensUsed, Later, HistoryOk;
    var t, db := l.task, SetStatus(w.db, l.task, l.token, Prechecking);
    SetStatusKeeps(w.db, t, l.token, Prechecking);
    LaterReflexive(w);
    if Holds(w.db, t, l.token) && InLease(w.db.tasks[t].status) {
      BooksCarry(w.db.tasks[t], db.tasks[t], w.history[t]);
      RowStep(w, db, t, w.history[t]);
      assert Note(w, t, w.history[t]) == w.history;
      assert w.(db := db, history := w.history) == w.(db := db);
    }
  }

  lemma HeartbeatStep(w: World, l: Lease, now: int, expires: int)
    requires Good(w) && l.token != ""
    ensures var after := w.(db := Heartbeat(w.db, l.task, l.token, now, expires), history := Prolong(w, l, expires));
      Good(after) && Later(w, after)
  {
    hide Inv, Evolves, WorkersOk, TokensUsed, Later, HistoryOk;
    var t, db := l.task, Heartbeat(w.db, l.task, l.token, now, expires);
    HeartbeatKeeps(w.db, t, l.token, now, expires);
    LaterReflexive(w);
    if Holds(w.db, t, l.token) {
      HolderIsLeased(w.db, t, l.token);
      BooksProlong(w.db.tasks[t], db.tasks[t], w.history[t]);
      RowStep(w, db, t, w.history[t].(granted := Some(expires)));
    } else {
      assert w.(db := db, history := Prolong(w, l, expires)) == w;
    }
  }

  lemma CompleteStep(w: World, l: Lease, snapshot: string, now: int)
    requires Good(w) && WorkerOk(w.db.tasks, w.db.jobs, w.used, Completing(l, snapshot))
    ensures var db := Complete(w.db, l.task, l.token, snapshot, now);
      Good(w.(db := db)) && Later(w, w.(db := db))
  {
    hide Inv, Evolves, WorkersOk, TokensUsed, Later, HistoryOk, Settle, Exact;
    var t, db := l.task, Complete(w.db, l.task, l.token, snapshot, now);
    CompleteKeeps(w.db, t, l.token, snapshot, now);
    LaterReflexive(w);
    if Holds(w.db, t, l.token) {
      HolderIsLeased(w.db, t, l.token);
      var row := Released(w.db.tasks[t]).(status := Succeeded, snapshot := snapshot, finishedAt := Some(now));
      SettleTouches(w.db, t, row, Succeeded, None, now);
      BooksCarry(w.db.tasks[t], row, w.history[t]);
      RowStep(w, db, t, w.history[t]);
      assert Note(w, t, w.history[t]) == w.history;
      assert w.(db := db, history := w.history) == w.(db := db);
    }
  }

  lemma SetStatusEventKeeps(w: World, e: Event)
    requires Good(w) && e.SetStatusEvent?
    ensures Good(WorkerStep(w, e)) && Later(w, WorkerStep(w, e))
  {
    hide Good, Later, SetStatus, Evolves, LeaseKnown;
    LaterReflexive(w);
    var pc := Pc(w, e.name);
    PcOk(w, e.name);
    if pc.Claimed? {
      TokenOf(w, pc);
      if e.ok {
        SetStatusStep(w, pc.lease);
        var db := SetStatus(w.db, pc.lease.task, pc.lease.token, Prechecking);
        WorkerStays(w.db, db, w.used, Checked(pc.lease));
        hide WorkerOk;
        ThenMove(w, w.(db := db), e.name, Checked(pc.lease));
      } else {
        PcStep(w, e.name, Checked(pc.lease));
      }
    }
  }

  lemma TokenOf(w: World, pc: Worker)
    requires WorkerOk(w.db.tasks, w.db.jobs, w.used, pc) && !pc.Idle?
    ensures pc.lease.token != "" && LeaseKnown(w.db.tasks, w.used, pc.lease)
  {
  }

  lemma HeartbeatEventKeeps(w: World, e: Event)
    requires Good(w) && e.HeartbeatEvent?
    ensures Good(WorkerStep(w, e)) && Later(w, WorkerStep(w, e))
  {
    hide Good, Later, Heartbeat, LeaseKnown, Prolong;
    LaterReflexive(w);
    var pc := Pc(w, e.name);
    PcOk(w, e.name);
    if !pc.Idle? {
      TokenOf(w, pc);
      hide WorkerOk;
      HeartbeatStep(w, pc.lease, e.now, e.expires);
    }
  }

  lemma StartEventKeeps(w: World, e: Event)
    requires Good(w) && e.StartEvent?
    ensures Good(WorkerStep(w, e)) && Later(w, WorkerStep(w, e))
  {
    hide Inv, HistoriesOk, TokensUsed, Later, LeaseKnown, Evolves, StartsJob;
    LaterReflexive(w);
    var pc := Pc(w, e.name);
    PcOk(w, e.name);
    hide WorkersOk;
    if pc.Checked? {
      if StartsJob(w.db, pc.lease.row.job) {
        var db := StartJob(w.db, pc.lease.row.job, e.now);
        StartJobKeeps(w.db, pc.lease.row.job, e.now);
        JobStep(w, db, e.name, Executing(pc.lease));
      } else {
        PcStep(w, e.name, Faulted(pc.lease, "BACKUP_FAILED", false));
      }
    }
  }

  lemma LocalEventKeeps(w: World, e: Event)
    requires Good(w) && (e.AbortEvent? || e.RunFailsEvent? || e.LookupEvent?)
    ensures Good(WorkerStep(w, e)) && Later(w, WorkerStep(w, e))
  {
    hide Good, Later, LeaseKnown;
    LaterReflexive(w);
    var pc := Pc(w, e.name);
    PcOk(w, e.name);
    if e.AbortEvent? && pc.Checked? {
      PcStep(w, e.name, Faulted(pc.lease, e.code, e.cancelled));
    } else if e.RunFailsEvent? && pc.Executing? {
      PcStep(w, e.name, Failing(pc.lease, e.code, e.cancelled));
    } else if e.LookupEvent? && pc.Delivered? {
      PcStep(w, e.name, Completing(pc.lease, w.db.jobs[pc.lease.row.job].snapshot));
    }
  }

  lemma CommitEventKeeps(w: World, e: Event)
    requires Good(w) && e.CommitEvent?
    ensures Good(WorkerStep(w, e)) && Later(w, WorkerStep(w, e))
  {
    hide Inv, HistoriesOk, TokensUsed, Later, LeaseKnown, Evolves, Commits, SnapshotId;
    LaterReflexive(w);
    var pc := Pc(w, e.name);
    PcOk(w, e.name);
    hide WorkersOk;
    if pc.Executing? && e.snapshot.job == pc.lease.row.job {
      var id := SnapshotId(pc.lease.row.job);
      if Commits(w.db, id, e.snapshot) {
        var db := CommitSnapshot(w.db, id, e.snapshot);
        CommitSnapshotKeeps(w.db, id, e.snapshot);
        assert db.tasks == w.db.tasks && pc.lease.row.job in db.jobs;
        JobStep(w, db, e.name, Delivered(pc.lease));
      } else {
        PcStep(w, e.name, Failing(pc.lease, "CONTROL_DATABASE_WRITE_FAILED", false));
      }
    }
  }

  lemma FailOwnJobEventKeeps(w: World, e: Event)
    requires Good(w) && e.FailOwnJobEvent?
    ensures Good(WorkerStep(w, e)) && Later(w, WorkerStep(w, e))
  {
    hide Inv, HistoriesOk, TokensUsed, Later, LeaseKnown, Evolves;
    LaterReflexive(w);
    var pc := Pc(w, e.name);
    PcOk(w, e.name);
    hide WorkersOk;
    if pc.Failing? {
      var next := Faulted(pc.lease, pc.code, pc.cancelled);
      if e.ok {
        var db := FailJob(w.db, pc.lease.row.job, pc.code, e.now);
        FailJobKeeps(w.db, pc.lease.row.job, pc.code, e.now);
        JobStep(w, db, e.name, next);
      } else {
        PcStep(w, e.name, next);
      }
    }
  }

  lemma PauseOwnPlanEventKeeps(w: World, e: Event)
    requires Good(w) && e.PauseOwnPlanEvent?
    ensures Good(WorkerStep(w, e)) && Later(w, WorkerStep(w, e))
  {
    hide Inv, HistoriesOk, TokensUsed, Later, LeaseKnown, Evolves, PausesPlan, PausePlan, DropQueued;
    LaterReflexive(w);
    var pc := Pc(w, e.name);
    PcOk(w, e.name);
    hide WorkersOk;
    if pc.Faulted? && !pc.cancelled && PausesPlan(pc.lease.row, pc.code) {
      var next := Deciding(pc.lease, pc.code);
      if e.ok {
        var mid := PausePlanStep(w, pc.lease.row.plan, e.now);
        PausePlanStepKeeps(w, pc.lease.row.plan, e.now);
        PausePlanKeeps(w.db, pc.lease.row.plan, e.now);
        WorkerStays(w.db, mid.db, w.used, next);
        hide WorkerOk;
        ThenMove(w, mid, e.name, next);
      } else {
        PcStep(w, e.name, next);
      }
    }
  }

  lemma VerdictEventKeeps(w: World, e: Event)
    requires Good(w) && e.VerdictEvent?
    ensures Good(WorkerStep(w, e)) && Later(w, WorkerStep(w, e))
  {
    hide Good, Later, LeaseKnown, PausesPlan, VerdictStep, FinishStep;
    LaterReflexive(w);
    var pc := Pc(w, e.name);
    PcOk(w, e.name);
    if pc.Faulted? || pc.Deciding? {
      TokenOf(w, pc);
      PcStep(w, e.name, Idle);
      if e.ok && pc.Faulted? && pc.cancelled {
        FinishStepKeeps(w, pc.lease, Cancelled, "BACKUP_CANCELLED", e.now);
        ThenMove(w, FinishStep(w, pc.lease, Cancelled, "BACKUP_CANCELLED", e.now), e.name, Idle);
      } else if e.ok {
        VerdictStepKeeps(w, pc.lease, pc.code, e.now);
        ThenMove(w, VerdictStep(w, pc.lease, pc.code, e.now), e.name, Idle);
      }
    }
  }

  lemma CompleteEventKeeps(w: World, e: Event)
    requires Good(w) && e.CompleteEvent?
    ensures Good(WorkerStep(w, e)) && Later(w, WorkerStep(w, e))
  {
    hide Good, Later, Complete;
    LaterReflexive(w);
    var pc := Pc(w, e.name);
    PcOk(w, e.name);
    if pc.Completing? {
      PcStep(w, e.name, Idle);
      if e.ok {
        CompleteStep(w, pc.lease, pc.snapshot, e.now);
        ThenMove(w, w.(db := Complete(w.db, pc.lease.task, pc.lease.token, pc.snapshot, e.now)), e.name, Idle);
      }
    }
  }

  // ---------------------------------------------------------------- every step

  lemma TableEventKeeps(w: World, e: Event)
    requires Good(w)
    ensures Good(w.(db := TableStep(w.db, e))) && Later(w, w.(db := TableStep(w.db, e)))
  {
    hide Inv, HistoriesOk, TokensUsed, WorkersOk, Later, Evolves, CreatesBatch, CreatesJob;
    LaterReflexive(w);
    match e {
      case CreateBatchEvent(id, b) =>
        if b == NewBatch(b.plan, b.trigger, b.status, b.scheduledAt, b.createdAt, b.finishedAt) {
          CreateBatchKeeps(w.db, id, b);
          QuietStep(w, CreateBatch(w.db, id, b));
        }
      case CreateJobEvent(id, job) => CreateJobKeeps(w.db, id, job); QuietStep(w, CreateJob(w.db, id, job));
      case FailJobEvent(id, code, now) => FailJobKeeps(w.db, id, code, now); QuietStep(w, FailJob(w.db, id, code, now));
      case CancelJobEvent(id, now) => CancelJobRowKeeps(w.db, id, now); QuietStep(w, CancelJobRow(w.db, id, now));
      case PlanRowEvent(plans) => PlansKeep(w.db, plans); QuietStep(w, w.db.(plans := plans));
      case TrashEvent(id, path, now) => TrashKeeps(w.db, id, path, now); QuietStep(w, TrashSnapshot(w.db, id, path, now));
      case PurgeEvent(now) => PurgeKeeps(w.db, now); QuietStep(w, PurgeSnapshots(w.db, now));
      case _ =>
    }
  }

  lemma PlansKeep(s: State, plans: map<string, Plan>)
    requires Inv(s)
    ensures Inv(s.(plans := plans)) && Evolves(s, s.(plans := plans))
  {
    Unmoved(s);
    hide LeaseInv, BatchInv, JobInv, TasksEvolve, JobsEvolve;
  }

  lemma TableStepKeepsTasks(s: State, e: Event)
    ensures TableStep(s, e).tasks == s.tasks
  {
    hide NewBatch, CreatesBatch, CreatesJob;
  }

  /** Worker steps that write no task row. */
  predicate Quiet(e: Event)
  {
    e.StartEvent? || e.AbortEvent? || e.RunFailsEvent? || e.CommitEvent? || e.FailOwnJobEvent? || e.LookupEvent?
  }

  lemma QuietHolder(w: World, e: Event)
    requires Quiet(e)
    ensures WorkerStep(w, e).db.tasks == w.db.tasks && WorkerStep(w, e).db.batches == w.db.batches
  {
    hide Commits, StartsJob, SnapshotId;
  }

  lemma VerdictForm(w: World, e: Event)
    requires e.VerdictEvent?
    ensures var pc := Pc(w, e.name); var r := WorkerStep(w, e).db;
      r == w.db
      || (pc.Faulted? && r == FinishStep(w, pc.lease, Cancelled, "BACKUP_CANCELLED", e.now).db)
      || ((pc.Faulted? || pc.Deciding?) && r == VerdictStep(w, pc.lease, pc.code, e.now).db)
  {
    hide FinishStep, VerdictStep, PausesPlan;
  }

  /** Events of a worker that holds a claim. */
  lemma HolderEventKeeps(w: World, e: Event)
    requires Good(w) && HolderEvent(e)
    ensures Good(WorkerStep(w, e)) && Later(w, WorkerStep(w, e))
  {
    hide Good, Later, WorkerStep;
    if e.SetStatusEvent? { SetStatusEventKeeps(w, e); }
    else if e.HeartbeatEvent? { HeartbeatEventKeeps(w, e); }
    else if e.StartEvent? { StartEventKeeps(w, e); }
    else if e.AbortEvent? || e.RunFailsEvent? || e.LookupEvent? { LocalEventKeeps(w, e); }
    else if e.CommitEvent? { CommitEventKeeps(w, e); }
    else if e.FailOwnJobEvent? { FailOwnJobEventKeeps(w, e); }
    else if e.PauseOwnPlanEvent? { PauseOwnPlanEventKeeps(w, e); }
    else if e.VerdictEvent? { VerdictEventKeeps(w, e); }
    else { CompleteEventKeeps(w, e); }
  }

  /** Every step of every participant, from any state, keeps everything above. */
  lemma StepKeeps(w: World, e: Event)
    requires Good(w)
    ensures Good(Step(w, e)) && Later(w, Step(w, e))
  {
    hide Good, Later, AddTaskStep, CancelTaskStep, RequeueStep, ResetStep, EditPlanStep, PausePlanStep, ClaimStep, WorkerStep, TableStep;
    if e.AddTaskEvent? { AddTaskStepKeeps(w, e.id, e.task, e.now); }
    else if e.CancelTaskEvent? { CancelTaskStepKeeps(w, e.id, e.now); }
    else if e.RequeueEvent? { RequeueStepKeeps(w, e.items, e.now); }
    else if e.ResetEvent? { ResetStepKeeps(w, e.id, e.now); }
    else if e.EditPlanEvent? { EditPlanStepKeeps(w, e.id, e.plan, e.cancelQueued, e.now); }
    else if e.PausePlanEvent? { PausePlanStepKeeps(w, e.id, e.now); }
    else if e.ClaimEvent? { ClaimStepKeeps(w, e.name, e.id, e.token, e.now, e.expires); }
    else if e.CrashEvent? { PcStep(w, e.name, Idle); }
    else if HolderEvent(e) { HolderEventKeeps(w, e); }
    else { TableEventKeeps(w, e); }
  }
}
