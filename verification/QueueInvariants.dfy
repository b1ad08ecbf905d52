/** What every transaction of the control database keeps, one transaction at a time. */
module QueueInvariants {
  import opened Tables
  import opened QueueSpec
  import opened Sets

  // ---------------------------------------------------------------- the invariants

  /** Attempt numbers of task t are exactly 1..n; only number n may be running, and it is iff `leased`. */
  ghost predicate AttemptsOk(attempts: map<AttemptKey, Attempt>, t: string, n: nat, leased: bool)
  {
    (forall k :: AttemptKey(t, k) in attempts <==> 1 <= k <= n)
    && (forall k :: AttemptKey(t, k) in attempts ==>
          (attempts[AttemptKey(t, k)].status == Running <==> leased && k == n))
    && (leased ==> n >= 1)
  }

  /** Token, lease status and lease expiry come and go together. */
  ghost predicate LeaseOk(row: Task)
  {
    (row.token != "" <==> InLease(row.status)) && (row.token != "" <==> row.expires.Some?)
    && (ClassOf(row.status) == InProgress ==> InLease(row.status))
  }

  ghost predicate LeaseInv(tasks: map<string, Task>, attempts: map<AttemptKey, Attempt>)
  {
    (forall t | t in tasks :: LeaseOk(tasks[t]) && AttemptsOk(attempts, t, tasks[t].attemptCount, tasks[t].token != ""))
    && forall k | k in attempts :: k.task in tasks
  }

  /** The batch row's status is what its tasks amount to. */
  ghost predicate Tells(tasks: map<string, Task>, id: string, row: Batch)
  {
    if InClass(tasks, id, InQueue) == {} && InClass(tasks, id, InProgress) == {} then
      row.finishedAt.Some?
      && row.status == if InClass(tasks, id, Unsuccessful) != {} then Failed
                       else if InClass(tasks, id, Successful) != {} then Succeeded else Skipped
    else
      row.finishedAt.None? && row.status == if InClass(tasks, id, InQueue) == Members(tasks, id) then Queued else Running
  }

  /** Total, succeeded and running are exact; failed and skipped may lag; the five sum to the total. A row that counts its
      queued tasks right tells the status of its tasks, too. */
  ghost predicate CountersOk(tasks: map<string, Task>, id: string, row: Batch)
  {
    row.total == |Members(tasks, id)|
    && row.succeeded == |InClass(tasks, id, Successful)|
    && row.running == |InClass(tasks, id, InProgress)|
    && row.failed <= |InClass(tasks, id, Unsuccessful)|
    && row.skipped <= |InClass(tasks, id, Bypassed)|
    && row.queued + row.running + row.succeeded + row.failed + row.skipped == row.total
    && (row.finishedAt.Some? ==> row.queued == 0 && InClass(tasks, id, InQueue) == {} && InClass(tasks, id, InProgress) == {})
    && (row.total > 0 && row.queued == |InClass(tasks, id, InQueue)| ==> Tells(tasks, id, row))
  }

  ghost predicate Exact(tasks: map<string, Task>, id: string, row: Batch)
  {
    CountersOk(tasks, id, row)
    && row.queued == |InClass(tasks, id, InQueue)|
    && row.failed == |InClass(tasks, id, Unsuccessful)|
    && row.skipped == |InClass(tasks, id, Bypassed)|
  }

  ghost predicate BatchInv(tasks: map<string, Task>, batches: map<string, Batch>)
  {
    (forall t | t in tasks :: tasks[t].batch in batches)
    && forall b | b in batches :: CountersOk(tasks, b, batches[b])
  }

  /** No deployment has two active jobs. */
  ghost predicate UniqueActive(jobs: map<string, Job>)
  {
    forall j, k | j in jobs && k in jobs && j != k && Active(jobs[j].status) && Active(jobs[k].status) ::
      jobs[j].deploy != jobs[k].deploy
  }

  /** A snapshot's job succeeded with that snapshot; a succeeded job names a snapshot. */
  ghost predicate SnapshotsOk(jobs: map<string, Job>, snapshots: map<string, Snapshot>)
  {
    (forall x | x in snapshots ::
       snapshots[x].job in jobs && jobs[snapshots[x].job].status == Succeeded && jobs[snapshots[x].job].snapshot == x)
    && forall j | j in jobs && jobs[j].status == Succeeded :: jobs[j].snapshot != ""
  }

  /** A succeeded task carries the snapshot of its succeeded job. */
  ghost predicate DeliveryOk(row: Task, jobs: map<string, Job>)
  {
    row.status == Succeeded ==>
      row.job in jobs && jobs[row.job].status == Succeeded && row.snapshot == jobs[row.job].snapshot
  }

  ghost predicate JobInv(tasks: map<string, Task>, jobs: map<string, Job>, snapshots: map<string, Snapshot>)
  {
    UniqueActive(jobs) && SnapshotsOk(jobs, snapshots) && forall t | t in tasks :: DeliveryOk(tasks[t], jobs)
  }

  ghost predicate Inv(s: State)
  {
    LeaseInv(s.tasks, s.attempts) && BatchInv(s.tasks, s.batches) && JobInv(s.tasks, s.jobs, s.snapshots)
  }

  // ---------------------------------------------------------------- what never changes

  ghost predicate SameIdentity(a: Task, b: Task)
  {
    a.batch == b.batch && a.plan == b.plan && a.job == b.job && a.deploy == b.deploy
    && a.maxRetries == b.maxRetries && a.backoff == b.backoff
  }

  /** How one row may differ after a transaction that hands out no lease. */
  ghost predicate RowEvolves(a: Task, b: Task)
  {
    SameIdentity(a, b) && a.attemptCount == b.attemptCount && (b.token == a.token || b.token == "")
    && (a.status == Succeeded || a.status == Skipped ==> b.status == a.status)
  }

  ghost predicate TasksEvolve(a: map<string, Task>, b: map<string, Task>)
  {
    (forall t | t in a :: t in b && RowEvolves(a[t], b[t]))
    && forall t | t in b && t !in a :: b[t].token == "" && b[t].attemptCount == 0
  }

  /** A succeeded job never changes again. */
  ghost predicate JobsEvolve(a: map<string, Job>, b: map<string, Job>)
  {
    forall j | j in a :: j in b && (a[j].status == Succeeded ==> b[j] == a[j])
  }

  ghost predicate Evolves(a: State, b: State)
  {
    TasksEvolve(a.tasks, b.tasks) && JobsEvolve(a.jobs, b.jobs)
  }

  lemma Unmoved(s: State)
    ensures TasksEvolve(s.tasks, s.tasks) && JobsEvolve(s.jobs, s.jobs)
  {
  }

  lemma TaskMoves(tasks: map<string, Task>, t: string, row: Task)
    requires t in tasks && RowEvolves(tasks[t], row)
    ensures TasksEvolve(tasks, tasks[t := row])
  {
  }

  lemma TasksEvolveTransitive(a: map<string, Task>, b: map<string, Task>, c: map<string, Task>)
    requires TasksEvolve(a, b) && TasksEvolve(b, c)
    ensures TasksEvolve(a, c)
  {
    forall t | t in c && t !in a ensures c[t].token == "" && c[t].attemptCount == 0 {
      if t in b { assert RowEvolves(b[t], c[t]); }
    }
    forall t | t in a ensures t in c && RowEvolves(a[t], c[t]) {
      assert RowEvolves(a[t], b[t]) && RowEvolves(b[t], c[t]);
    }
  }

  lemma JobsEvolveTransitive(a: map<string, Job>, b: map<string, Job>, c: map<string, Job>)
    requires JobsEvolve(a, b) && JobsEvolve(b, c)
    ensures JobsEvolve(a, c)
  {
  }

  // ---------------------------------------------------------------- counting

  lemma Partition(tasks: map<string, Task>, b: string)
    ensures |Members(tasks, b)| == |InClass(tasks, b, InQueue)| + |InClass(tasks, b, InProgress)|
      + |InClass(tasks, b, Successful)| + |InClass(tasks, b, Unsuccessful)| + |InClass(tasks, b, Bypassed)|
  {
    ClassesCover(tasks, b);
    ClassesDisjoint(tasks, b);
    hide ClassOf, Members, InClass;
    var m := Members(tasks, b);
    var q, r, s := InClass(tasks, b, InQueue), InClass(tasks, b, InProgress), InClass(tasks, b, Successful);
    var f, k := InClass(tasks, b, Unsuccessful), InClass(tasks, b, Bypassed);
    TakeAway(m, q);
    TakeAway(m - q, r);
    TakeAway(m - q - r, s);
    TakeAway(m - q - r - s, f);
    assert m - q - r - s - f == k;
  }

  lemma ClassesCover(tasks: map<string, Task>, b: string)
    ensures Members(tasks, b) == InClass(tasks, b, InQueue) + InClass(tasks, b, InProgress)
      + InClass(tasks, b, Successful) + InClass(tasks, b, Unsuccessful) + InClass(tasks, b, Bypassed)
  {
    hide ClassOf;
  }

  lemma ClassesDisjoint(tasks: map<string, Task>, b: string)
    ensures forall c, d | c != d :: InClass(tasks, b, c) !! InClass(tasks, b, d)
  {
    hide ClassOf;
  }

  /** Counts look only at which tasks a batch has and at the class of their status. */
  lemma SameClasses(a: map<string, Task>, b: map<string, Task>, id: string)
    requires forall t :: t in a && a[t].batch == id <==> t in b && b[t].batch == id
    requires forall t | t in a && a[t].batch == id :: ClassOf(a[t].status) == ClassOf(b[t].status)
    ensures Members(a, id) == Members(b, id)
    ensures forall c :: InClass(a, id, c) == InClass(b, id, c)
  {
    hide ClassOf;
  }

  lemma CountersDependOnClasses(a: map<string, Task>, b: map<string, Task>, id: string, row: Batch)
    requires CountersOk(a, id, row)
    requires forall t :: t in a && a[t].batch == id <==> t in b && b[t].batch == id
    requires forall t | t in a && a[t].batch == id :: ClassOf(a[t].status) == ClassOf(b[t].status)
    ensures CountersOk(b, id, row)
  {
    hide ClassOf;
    SameClasses(a, b, id);
    hide Members, InClass;
  }

  lemma RecountIsExact(tasks: map<string, Task>, b: string, row: Batch, now: int)
    ensures Exact(tasks, b, Recounted(tasks, b, row, now))
  {
    Partition(tasks, b);
    AllQueued(tasks, b);
    hide ClassOf, Members, InClass;
  }

  lemma AllQueued(tasks: map<string, Task>, b: string)
    ensures InClass(tasks, b, InQueue) == Members(tasks, b) <==>
      InClass(tasks, b, InProgress) == {} && InClass(tasks, b, Successful) == {} && InClass(tasks, b, Unsuccessful) == {}
      && InClass(tasks, b, Bypassed) == {}
  {
    ClassesCover(tasks, b);
    ClassesDisjoint(tasks, b);
    hide ClassOf, Members, InClass;
  }

  /** A queued-count surplus is exactly what the two lagging counters miss. */
  lemma Drift(s: State, b: string)
    requires BatchInv(s.tasks, s.batches) && b in s.batches
    ensures s.batches[b].queued - |InClass(s.tasks, b, InQueue)|
         == (|InClass(s.tasks, b, Unsuccessful)| - s.batches[b].failed)
          + (|InClass(s.tasks, b, Bypassed)| - s.batches[b].skipped)
    ensures s.batches[b].queued >= |InClass(s.tasks, b, InQueue)|
  {
    Partition(s.tasks, b);
    assert CountersOk(s.tasks, b, s.batches[b]);
    hide ClassOf, Members, InClass, BatchInv;
  }

  /** Changing one task and recounting its batch keeps every batch right, and makes that one exact. */
  lemma RefreshKeepsBatches(tasks: map<string, Task>, batches: map<string, Batch>, t: string, row: Task, now: int)
    requires BatchInv(tasks, batches) && row.batch in batches
    requires t in tasks ==> tasks[t].batch == row.batch
    ensures BatchInv(tasks[t := row], batches[row.batch := Recounted(tasks[t := row], row.batch, batches[row.batch], now)])
    ensures Exact(tasks[t := row], row.batch, Recounted(tasks[t := row], row.batch, batches[row.batch], now))
  {
    hide CountersOk, Recounted, ClassOf;
    var after := tasks[t := row];
    RecountIsExact(after, row.batch, batches[row.batch], now);
    ExactIsOk(after, row.batch, Recounted(after, row.batch, batches[row.batch], now));
    forall b | b in batches && b != row.batch
      ensures CountersOk(after, b, batches[b])
    {
      CountersDependOnClasses(tasks, after, b, batches[b]);
    }
  }

  lemma ExactIsOk(tasks: map<string, Task>, id: string, row: Batch)
    requires Exact(tasks, id, row)
    ensures CountersOk(tasks, id, row)
  {
    hide CountersOk;
  }

  /** Queued rows may turn unsuccessful or bypassed; nothing else moves between classes. */
  ghost predicate OnlyEnds(a: map<string, Task>, b: map<string, Task>)
  {
    a.Keys == b.Keys
    && forall t | t in a ::
         (a[t].batch == b[t].batch
          && (ClassOf(b[t].status) == ClassOf(a[t].status)
              || (ClassOf(a[t].status) == InQueue && (ClassOf(b[t].status) == Unsuccessful || ClassOf(b[t].status) == Bypassed))))
  }

  lemma OnlyEndsGrows(a: map<string, Task>, b: map<string, Task>, id: string)
    requires OnlyEnds(a, b)
    ensures Members(a, id) == Members(b, id)
    ensures InClass(a, id, Successful) == InClass(b, id, Successful) && InClass(a, id, InProgress) == InClass(b, id, InProgress)
    ensures InClass(b, id, InQueue) <= InClass(a, id, InQueue)
    ensures InClass(a, id, Unsuccessful) <= InClass(b, id, Unsuccessful) && InClass(a, id, Bypassed) <= InClass(b, id, Bypassed)
  {
    hide ClassOf;
  }

  /** Ending queued tasks without a recount leaves every counter within its drift. */
  lemma EndingKeepsBatches(a: map<string, Task>, b: map<string, Task>, batches: map<string, Batch>)
    requires BatchInv(a, batches) && OnlyEnds(a, b)
    ensures BatchInv(b, batches)
  {
    hide CountersOk, ClassOf;
    forall id | id in batches ensures CountersOk(b, id, batches[id]) {
      EndingKeepsCounters(a, b, id, batches[id]);
    }
  }

  lemma EndingKeepsCounters(a: map<string, Task>, b: map<string, Task>, id: string, row: Batch)
    requires CountersOk(a, id, row) && OnlyEnds(a, b)
    ensures CountersOk(b, id, row)
  {
    hide OnlyEnds, ClassOf, Members, InClass;
    OnlyEndsGrows(a, b, id);
    SubsetSize(InClass(a, id, Unsuccessful), InClass(b, id, Unsuccessful));
    SubsetSize(InClass(a, id, Bypassed), InClass(b, id, Bypassed));
    SubsetSize(InClass(b, id, InQueue), InClass(a, id, InQueue));
    if row.queued == |InClass(b, id, InQueue)| {
      Partition(a, id);
      SameSize(InClass(b, id, InQueue), InClass(a, id, InQueue));
      OnlyEndsNothing(a, b, id);
    }
  }

  lemma OnlyEndsNothing(a: map<string, Task>, b: map<string, Task>, id: string)
    requires OnlyEnds(a, b) && InClass(a, id, InQueue) == InClass(b, id, InQueue)
    ensures Members(a, id) == Members(b, id) && forall c :: InClass(a, id, c) == InClass(b, id, c)
  {
    hide ClassOf;
    forall t | t in a && a[t].batch == id ensures ClassOf(a[t].status) == ClassOf(b[t].status) {
      if ClassOf(a[t].status) == InQueue { assert t in InClass(a, id, InQueue); assert t in InClass(b, id, InQueue); }
    }
  }

  lemma OneEnds(tasks: map<string, Task>, t: string, row: Task)
    requires t in tasks && row.batch == tasks[t].batch
    requires ClassOf(row.status) == ClassOf(tasks[t].status)
      || (ClassOf(tasks[t].status) == InQueue && (ClassOf(row.status) == Unsuccessful || ClassOf(row.status) == Bypassed))
    ensures OnlyEnds(tasks, tasks[t := row])
  {
    hide ClassOf;
  }

  // ---------------------------------------------------------------- attempts and leases

  lemma EndAttemptsEnds(attempts: map<AttemptKey, Attempt>, t: string, n: nat, leased: bool, status: Status, code: Option<string>, now: int)
    requires AttemptsOk(attempts, t, n, leased) && status != Running
    ensures AttemptsOk(EndAttempts(attempts, t, status, code, now), t, n, false)
  {
  }

  lemma EndAttemptsElsewhere(attempts: map<AttemptKey, Attempt>, t: string, u: string, n: nat, leased: bool, status: Status, code: Option<string>, now: int)
    requires AttemptsOk(attempts, u, n, leased) && u != t
    ensures AttemptsOk(EndAttempts(attempts, t, status, code, now), u, n, leased)
  {
  }

  /** A task has exactly one running attempt, number attempt_count, iff it is leased; none otherwise. */
  lemma RunningAttempt(s: State, t: string)
    requires LeaseInv(s.tasks, s.attempts) && t in s.tasks
    ensures (set k | k in s.attempts && k.task == t && s.attempts[k].status == Running)
         == if InLease(s.tasks[t].status) then {AttemptKey(t, s.tasks[t].attemptCount)} else {}
  {
    assert LeaseOk(s.tasks[t]) && AttemptsOk(s.attempts, t, s.tasks[t].attemptCount, s.tasks[t].token != "");
    hide ClassOf, InLease;
    forall k | k in s.attempts && k.task == t
      ensures s.attempts[k].status == Running <==> InLease(s.tasks[t].status) && k == AttemptKey(t, s.tasks[t].attemptCount)
    {
      assert k == AttemptKey(t, k.number);
    }
    if InLease(s.tasks[t].status) {
      assert AttemptKey(t, s.tasks[t].attemptCount) in s.attempts;
    }
  }

  lemma LeaseKeptBySettle(tasks: map<string, Task>, attempts: map<AttemptKey, Attempt>, t: string, row: Task, ended: Status, code: Option<string>, now: int)
    requires LeaseInv(tasks, attempts) && t in tasks && ended != Running
    requires row.attemptCount == tasks[t].attemptCount && row.token == "" && LeaseOk(row)
    ensures LeaseInv(tasks[t := row], EndAttempts(attempts, t, ended, code, now))
  {
    hide LeaseOk, AttemptsOk;
    forall u | u in tasks
      ensures AttemptsOk(EndAttempts(attempts, t, ended, code, now), u, tasks[u].attemptCount, u != t && tasks[u].token != "")
    {
      if u == t {
        EndAttemptsEnds(attempts, t, tasks[t].attemptCount, tasks[t].token != "", ended, code, now);
      } else {
        EndAttemptsElsewhere(attempts, t, u, tasks[u].attemptCount, tasks[u].token != "", ended, code, now);
      }
    }
  }

  lemma LeaseKeptByRow(tasks: map<string, Task>, attempts: map<AttemptKey, Attempt>, t: string, row: Task)
    requires LeaseInv(tasks, attempts) && t in tasks
    requires row.attemptCount == tasks[t].attemptCount && (row.token != "" <==> tasks[t].token != "") && LeaseOk(row)
    ensures LeaseInv(tasks[t := row], attempts)
  {
    hide LeaseOk, AttemptsOk;
  }

  lemma NoForeignAttempts(tasks: map<string, Task>, attempts: map<AttemptKey, Attempt>, t: string)
    requires LeaseInv(tasks, attempts) && t !in tasks
    ensures AttemptsOk(attempts, t, 0, false)
  {
    hide LeaseOk;
    forall n ensures AttemptKey(t, n) !in attempts {
      assert AttemptKey(t, n).task == t;
    }
  }

  lemma LeaseKeptByAdd(tasks: map<string, Task>, attempts: map<AttemptKey, Attempt>, t: string, row: Task)
    requires LeaseInv(tasks, attempts) && t !in tasks
    requires row.attemptCount == 0 && row.token == "" && LeaseOk(row)
    ensures LeaseInv(tasks[t := row], attempts)
  {
    NoForeignAttempts(tasks, attempts, t);
    hide LeaseOk, AttemptsOk;
  }

  lemma AttemptOpens(attempts: map<AttemptKey, Attempt>, t: string, n: nat, attempt: Attempt)
    requires AttemptsOk(attempts, t, n, false) && attempt.status == Running
    ensures AttemptKey(t, n + 1) !in attempts
    ensures AttemptsOk(attempts[AttemptKey(t, n + 1) := attempt], t, n + 1, true)
    ensures forall u, m, leased | u != t && AttemptsOk(attempts, u, m, leased) ::
      AttemptsOk(attempts[AttemptKey(t, n + 1) := attempt], u, m, leased)
  {
  }

  lemma LeaseKeptByClaim(tasks: map<string, Task>, attempts: map<AttemptKey, Attempt>, t: string, row: Task, attempt: Attempt)
    requires LeaseInv(tasks, attempts) && t in tasks && tasks[t].token == "" && attempt.status == Running
    requires row.token != "" && row.attemptCount == tasks[t].attemptCount + 1 && LeaseOk(row)
    ensures AttemptKey(t, row.attemptCount) !in attempts
    ensures LeaseInv(tasks[t := row], attempts[AttemptKey(t, row.attemptCount) := attempt])
  {
    assert AttemptsOk(attempts, t, tasks[t].attemptCount, false);
    AttemptOpens(attempts, t, tasks[t].attemptCount, attempt);
    hide LeaseOk, AttemptsOk;
  }

  // ---------------------------------------------------------------- jobs

  /** A job that has not succeeded may move to any unsuccessful status, and become active only where its deployment is free. */
  lemma JobMoves(tasks: map<string, Task>, jobs: map<string, Job>, snapshots: map<string, Snapshot>, j: string, row: Job)
    requires JobInv(tasks, jobs, snapshots) && j in jobs && jobs[j].status != Succeeded && row.status != Succeeded
    requires row.deploy == jobs[j].deploy
    requires Active(row.status) ==> Active(jobs[j].status) || !Occupied(jobs, j)
    ensures JobInv(tasks, jobs[j := row], snapshots) && JobsEvolve(jobs, jobs[j := row])
  {
    var after := jobs[j := row];
    assert UniqueActive(after) by { hide SnapshotsOk, DeliveryOk; }
    assert SnapshotsOk(after, snapshots) by { hide UniqueActive, DeliveryOk; }
    forall t | t in tasks ensures DeliveryOk(tasks[t], after) {
      hide UniqueActive, SnapshotsOk;
      assert DeliveryOk(tasks[t], jobs);
    }
    hide UniqueActive, SnapshotsOk, DeliveryOk;
  }

  lemma ReopenKeeps(tasks: map<string, Task>, jobs: map<string, Job>, snapshots: map<string, Snapshot>, j: string, clearStart: bool)
    requires JobInv(tasks, jobs, snapshots) && !ReopenBlocked(jobs, j)
    ensures JobInv(tasks, Reopen(jobs, j, clearStart), snapshots) && JobsEvolve(jobs, Reopen(jobs, j, clearStart))
  {
    hide JobInv, Occupied;
    if j in jobs && jobs[j].status == Failed {
      JobMoves(tasks, jobs, snapshots, j, Reopen(jobs, j, clearStart)[j]);
    }
  }

  /** Recovery moves a job between two active statuses, so it never meets the active-instance index. */
  lemma UnstartKeeps(tasks: map<string, Task>, jobs: map<string, Job>, snapshots: map<string, Snapshot>, j: string)
    requires JobInv(tasks, jobs, snapshots)
    ensures JobInv(tasks, Unstart(jobs, j), snapshots) && JobsEvolve(jobs, Unstart(jobs, j))
  {
    hide JobInv, Occupied;
    if j in jobs && jobs[j].status == Running {
      JobMoves(tasks, jobs, snapshots, j, Unstart(jobs, j)[j]);
    }
  }

  lemma JobsKeptByRow(tasks: map<string, Task>, jobs: map<string, Job>, snapshots: map<string, Snapshot>, t: string, row: Task)
    requires JobInv(tasks, jobs, snapshots) && DeliveryOk(row, jobs)
    ensures JobInv(tasks[t := row], jobs, snapshots)
  {
    hide UniqueActive, SnapshotsOk, DeliveryOk;
  }

  // ---------------------------------------------------------------- claim

  lemma LeasedRowOk(queued: Task, row: Task, jobs: map<string, Job>)
    requires LeaseOk(queued) && queued.status == Queued
    requires row.status == Leased && row.token != "" && row.expires.Some?
    ensures queued.token == "" && LeaseOk(row) && DeliveryOk(row, jobs)
  {
  }

  lemma RowFacts(s: State, t: string)
    requires Inv(s) && t in s.tasks
    ensures LeaseOk(s.tasks[t]) && s.tasks[t].batch in s.batches && DeliveryOk(s.tasks[t], s.jobs)
    ensures AttemptsOk(s.attempts, t, s.tasks[t].attemptCount, s.tasks[t].token != "")
  {
    hide LeaseOk, AttemptsOk, DeliveryOk, CountersOk, UniqueActive, SnapshotsOk;
  }

  lemma LeaseStatuses(row: Task)
    requires LeaseOk(row)
    ensures row.token != "" <==> InLease(row.status)
    ensures row.token != "" <==> ClassOf(row.status) == InProgress
    ensures row.token != "" ==> row.expires.Some? && !Terminal(row.status) && row.status != Queued && row.status != Skipped
  {
  }

  lemma ClaimKeeps(s: State, t: string, worker: string, token: string, now: int, expires: int)
    requires Inv(s) && token != "" && Claimable(s.tasks, t, now)
    ensures Claims(s, t, now)
    ensures Inv(Claim(s, t, worker, token, now, expires)) && JobsEvolve(s.jobs, Claim(s, t, worker, token, now, expires).jobs)
    ensures var after := Claim(s, t, worker, token, now, expires);
      Exact(after.tasks, s.tasks[t].batch, after.batches[s.tasks[t].batch])
  {
    hide BatchInv, JobInv, LeaseInv, Recounted, Exact, JobsEvolve, LeaseOk, AttemptsOk, DeliveryOk;
    var row := LeasedRow(s.tasks[t], worker, token, now, expires);
    RowFacts(s, t);
    LeasedRowOk(s.tasks[t], row, s.jobs);
    LeaseKeptByClaim(s.tasks, s.attempts, t, row, Attempt(Running, "", worker, now, None));
    RefreshKeepsBatches(s.tasks, s.batches, t, row, now);
    JobsKeptByRow(s.tasks, s.jobs, s.snapshots, t, row);
    Unmoved(s);
  }

  // ---------------------------------------------------------------- giving a lease up

  /** Every way of giving a lease up keeps leases, attempts, jobs and counters right. */
  lemma SettleKeeps(s: State, t: string, row: Task, ended: Status, code: Option<string>, now: int)
    requires Inv(s) && t in s.tasks && ended != Running && RowEvolves(s.tasks[t], row)
    requires row.token == "" && LeaseOk(row) && DeliveryOk(row, s.jobs)
    ensures Inv(Settle(s, t, row, ended, code, now)) && Evolves(s, Settle(s, t, row, ended, code, now))
    ensures var after := Settle(s, t, row, ended, code, now);
      Exact(after.tasks, row.batch, after.batches[row.batch])
  {
    RowFacts(s, t);
    hide BatchInv, JobInv, LeaseInv, Recounted, Exact, JobsEvolve, TasksEvolve, EndAttempts, DeliveryOk, LeaseOk;
    LeaseKeptBySettle(s.tasks, s.attempts, t, row, ended, code, now);
    RefreshKeepsBatches(s.tasks, s.batches, t, row, now);
    JobsKeptByRow(s.tasks, s.jobs, s.snapshots, t, row);
    TaskMoves(s.tasks, t, row);
    Unmoved(s);
  }

  lemma HolderIsLeased(s: State, t: string, token: string)
    requires Inv(s) && Holds(s, t, token) && token != ""
    ensures InLease(s.tasks[t].status) && s.tasks[t].attemptCount >= 1
  {
    hide Inv;
    RowFacts(s, t);
    LeaseStatuses(s.tasks[t]);
    hide LeaseOk;
  }

  lemma CompleteKeeps(s: State, t: string, token: string, snapshot: string, now: int)
    requires Inv(s) && token != ""
    requires Holds(s, t, token) ==>
      s.tasks[t].job in s.jobs && s.jobs[s.tasks[t].job].status == Succeeded && s.jobs[s.tasks[t].job].snapshot == snapshot
    ensures Inv(Complete(s, t, token, snapshot, now)) && Evolves(s, Complete(s, t, token, snapshot, now))
    ensures Holds(s, t, token) ==>
      var after := Complete(s, t, token, snapshot, now);
      Exact(after.tasks, s.tasks[t].batch, after.batches[s.tasks[t].batch])
  {
    hide Inv, Settle, TasksEvolve, JobsEvolve, Exact;
    if Holds(s, t, token) {
      HolderIsLeased(s, t, token);
      SettleKeeps(s, t, Released(s.tasks[t]).(status := Succeeded, snapshot := snapshot, finishedAt := Some(now)), Succeeded, None, now);
    } else {
      Unmoved(s);
    }
  }

  lemma FinishFailureKeeps(s: State, t: string, token: string, status: Status, code: string, now: int)
    requires Inv(s) && token != "" && Reopenable(status)
    ensures Inv(FinishFailure(s, t, token, status, code, now)) && Evolves(s, FinishFailure(s, t, token, status, code, now))
    ensures Holds(s, t, token) ==>
      var after := FinishFailure(s, t, token, status, code, now);
      Exact(after.tasks, s.tasks[t].batch, after.batches[s.tasks[t].batch])
  {
    hide Inv, Settle, TasksEvolve, JobsEvolve, Exact;
    if Holds(s, t, token) {
      HolderIsLeased(s, t, token);
      SettleKeeps(s, t, Released(s.tasks[t]).(status := status, errorCode := code, finishedAt := Some(now)), status, Some(code), now);
    } else {
      Unmoved(s);
    }
  }

  lemma RetryKeeps(s: State, t: string, token: string, code: string, availableAt: int, now: int)
    requires Inv(s) && token != ""
    ensures Inv(Retry(s, t, token, code, availableAt, now)) && Evolves(s, Retry(s, t, token, code, availableAt, now))
    ensures Retries(s, t, token) ==>
      var after := Retry(s, t, token, code, availableAt, now);
      Exact(after.tasks, s.tasks[t].batch, after.batches[s.tasks[t].batch])
  {
    hide LeaseInv, BatchInv, JobInv, Settle, TasksEvolve, JobsEvolve, Exact, Reopen, ReopenBlocked, Occupied;
    if Retries(s, t, token) {
      HolderIsLeased(s, t, token);
      hide InLease;
      ReopenKeeps(s.tasks, s.jobs, s.snapshots, s.tasks[t].job, false);
      var reopened := s.(jobs := Reopen(s.jobs, s.tasks[t].job, false));
      var row := Released(s.tasks[t]).(status := Queued, errorCode := code, availableAt := availableAt);
      QueuedRowOk(row, reopened.jobs);
      HeldRowMayQueue(s, t, row);
      SettleKeeps(reopened, t, row, Failed, Some(code), now);
      SettleTouches(reopened, t, row, Failed, Some(code), now);
    } else {
      Unmoved(s);
    }
  }

  lemma QueuedRowOk(row: Task, jobs: map<string, Job>)
    requires row.status == Queued && row.token == "" && row.expires.None?
    ensures LeaseOk(row) && DeliveryOk(row, jobs)
  {
  }

  lemma HeldRowMayQueue(s: State, t: string, row: Task)
    requires Inv(s) && t in s.tasks && s.tasks[t].token != ""
    requires SameIdentity(s.tasks[t], row) && row.attemptCount == s.tasks[t].attemptCount && row.token == ""
    ensures RowEvolves(s.tasks[t], row)
  {
    hide Inv;
    RowFacts(s, t);
    LeaseStatuses(s.tasks[t]);
    hide LeaseOk, AttemptsOk, DeliveryOk, InLease, ClassOf;
  }

  /** What the shared steps write besides attempts and the counters. */
  lemma SettleTouches(s: State, t: string, row: Task, ended: Status, code: Option<string>, now: int)
    requires t in s.tasks
    ensures Settle(s, t, row, ended, code, now).tasks == s.tasks[t := row]
    ensures Settle(s, t, row, ended, code, now).jobs == s.jobs
  {
  }

  lemma ResetKeeps(s: State, t: string, now: int)
    requires Inv(s)
    ensures Inv(Reset(s, t, now)) && Evolves(s, Reset(s, t, now))
    ensures Resets(s, t) ==>
      Exact(Reset(s, t, now).tasks, s.tasks[t].batch, Reset(s, t, now).batches[s.tasks[t].batch])
  {
    hide LeaseInv, BatchInv, JobInv, TasksEvolve, JobsEvolve, Exact, Recounted, Reopen, ReopenBlocked, Occupied;
    if Resets(s, t) {
      var row := Released(s.tasks[t]).(status := Queued, errorCode := "MANUAL_RETRY", availableAt := now, finishedAt := None);
      var jobs := Reopen(s.jobs, row.job, true);
      RowFacts(s, t);
      LeaseStatuses(s.tasks[t]);
      QueuedRowOk(row, jobs);
      ReopenKeeps(s.tasks, s.jobs, s.snapshots, row.job, true);
      hide LeaseOk, AttemptsOk, DeliveryOk, InLease, ClassOf;
      LeaseKeptByRow(s.tasks, s.attempts, t, row);
      RefreshKeepsBatches(s.tasks, s.batches, t, row, now);
      JobsKeptByRow(s.tasks, jobs, s.snapshots, t, row);
      TaskMoves(s.tasks, t, row);
    } else {
      Unmoved(s);
    }
  }

  lemma RequeueOneKeeps(s: State, t: string, now: int)
    requires Inv(s) && t in s.tasks && s.tasks[t].token != ""
    ensures Inv(RequeueOne(s, t, now)) && Evolves(s, RequeueOne(s, t, now))
    ensures RequeueOne(s, t, now).tasks[t].status == Queued
    ensures forall u | u in s.tasks && u != t :: RequeueOne(s, t, now).tasks[u] == s.tasks[u]
    ensures var after := RequeueOne(s, t, now);
      Exact(after.tasks, s.tasks[t].batch, after.batches[s.tasks[t].batch])
  {
    hide LeaseInv, BatchInv, JobInv, Settle, TasksEvolve, JobsEvolve, Exact, Unstart;
    UnstartKeeps(s.tasks, s.jobs, s.snapshots, s.tasks[t].job);
    var stopped := s.(jobs := Unstart(s.jobs, s.tasks[t].job));
    var row := Released(s.tasks[t]).(status := Queued, errorCode := "WORKER_INTERRUPTED", availableAt := now);
    QueuedRowOk(row, stopped.jobs);
    HeldRowMayQueue(s, t, row);
    SettleKeeps(stopped, t, row, Interrupted, Some("WORKER_INTERRUPTED"), now);
    SettleTouches(stopped, t, row, Interrupted, Some("WORKER_INTERRUPTED"), now);
  }

  ghost predicate Enumerates(items: seq<string>, ids: set<string>)
  {
    (forall i, j | 0 <= i < j < |items| :: items[i] != items[j]) && forall t :: t in items <==> t in ids
  }

  /** Recovery puts exactly the listed tasks back in the queue and leaves the other rows alone, in whatever order. */
  lemma {:induction false} RequeueAllKeeps(s: State, items: seq<string>, now: int)
    requires Inv(s) && forall t :: t in items ==> t in s.tasks && s.tasks[t].token != ""
    requires forall i, j | 0 <= i < j < |items| :: items[i] != items[j]
    ensures Inv(RequeueAll(s, items, now)) && Evolves(s, RequeueAll(s, items, now))
    ensures forall u | u in s.tasks ::
      if u in items then RequeueAll(s, items, now).tasks[u].status == Queued
      else RequeueAll(s, items, now).tasks[u] == s.tasks[u]
  {
    hide Inv, TasksEvolve, JobsEvolve, RequeueOne, Exact;
    if items == [] {
      Unmoved(s);
    } else {
      var init, last := items[..|items| - 1], items[|items| - 1];
      assert items == init + [last] && last !in init;
      RequeueAllKeeps(s, init, now);
      var mid, after := RequeueAll(s, init, now), RequeueAll(s, items, now);
      assert after == RequeueOne(mid, last, now);
      hide RequeueAll;
      RequeueOneKeeps(mid, last, now);
      TasksEvolveTransitive(s.tasks, mid.tasks, after.tasks);
      JobsEvolveTransitive(s.jobs, mid.jobs, after.jobs);
    }
  }

  // ---------------------------------------------------------------- progress of a lease

  lemma RowKeeps(s: State, t: string, row: Task)
    requires Inv(s) && t in s.tasks && RowEvolves(s.tasks[t], row) && row.token == s.tasks[t].token
    requires LeaseOk(row) && DeliveryOk(row, s.jobs)
    requires ClassOf(row.status) == ClassOf(s.tasks[t].status) || (s.tasks[t].status == Queued && row.status == Cancelled)
    ensures Inv(s.(tasks := s.tasks[t := row])) && Evolves(s, s.(tasks := s.tasks[t := row]))
  {
    hide LeaseInv, BatchInv, JobInv, TasksEvolve, JobsEvolve, OnlyEnds, LeaseOk, DeliveryOk;
    OneEnds(s.tasks, t, row);
    LeaseKeptByRow(s.tasks, s.attempts, t, row);
    EndingKeepsBatches(s.tasks, s.tasks[t := row], s.batches);
    JobsKeptByRow(s.tasks, s.jobs, s.snapshots, t, row);
    TaskMoves(s.tasks, t, row);
    Unmoved(s);
  }

  lemma SetStatusKeeps(s: State, t: string, token: string, status: Status)
    requires Inv(s) && token != "" && InLease(status)
    ensures Inv(SetStatus(s, t, token, status)) && Evolves(s, SetStatus(s, t, token, status))
  {
    hide Inv, TasksEvolve, JobsEvolve;
    if Holds(s, t, token) && InLease(s.tasks[t].status) {
      RowFacts(s, t);
      LeaseStatuses(s.tasks[t]);
      LeaseStatuses(s.tasks[t].(status := status));
      RowKeeps(s, t, s.tasks[t].(status := status));
    } else {
      Unmoved(s);
    }
  }

  lemma HeartbeatKeeps(s: State, t: string, token: string, now: int, expires: int)
    requires Inv(s) && token != ""
    ensures Inv(Heartbeat(s, t, token, now, expires)) && Evolves(s, Heartbeat(s, t, token, now, expires))
  {
    hide Inv, TasksEvolve, JobsEvolve;
    if Holds(s, t, token) && !Terminal(s.tasks[t].status) {
      RowFacts(s, t);
      RowKeeps(s, t, s.tasks[t].(heartbeat := Some(now), expires := Some(expires)));
    } else {
      Unmoved(s);
    }
  }

  // ---------------------------------------------------------------- ending queued work

  lemma EndedRow(row: Task, plan: string, status: Status, code: string, now: int)
    requires LeaseOk(row) && (status == Cancelled || status == Skipped)
    ensures var after := if QueuedFor(row, plan) then row.(status := status, errorCode := code, finishedAt := Some(now)) else row;
      LeaseOk(after) && RowEvolves(row, after) && after.attemptCount == row.attemptCount && after.token == row.token
      && (ClassOf(after.status) == ClassOf(row.status)
          || (ClassOf(row.status) == InQueue && (ClassOf(after.status) == Unsuccessful || ClassOf(after.status) == Bypassed)))
  {
  }

  lemma EndQueuedTasks(s: State, plan: string, status: Status, code: string, now: int)
    requires LeaseInv(s.tasks, s.attempts) && BatchInv(s.tasks, s.batches) && (status == Cancelled || status == Skipped)
    ensures var after := EndQueued(s, plan, status, code, now);
      LeaseInv(after.tasks, s.attempts) && BatchInv(after.tasks, s.batches) && TasksEvolve(s.tasks, after.tasks)
  {
    hide BatchInv, AttemptsOk, LeaseOk, ClassOf, RowEvolves, QueuedFor;
    var after := EndQueued(s, plan, status, code, now);
    forall t | t in s.tasks
      ensures LeaseOk(after.tasks[t]) && RowEvolves(s.tasks[t], after.tasks[t])
      ensures after.tasks[t].attemptCount == s.tasks[t].attemptCount && after.tasks[t].token == s.tasks[t].token
      ensures ClassOf(after.tasks[t].status) == ClassOf(s.tasks[t].status)
          || (ClassOf(s.tasks[t].status) == InQueue
              && (ClassOf(after.tasks[t].status) == Unsuccessful || ClassOf(after.tasks[t].status) == Bypassed))
      ensures after.tasks[t].batch == s.tasks[t].batch
    {
      EndedRow(s.tasks[t], plan, status, code, now);
    }
    EndingKeepsBatches(s.tasks, after.tasks, s.batches);
  }

  /** Jobs that changed went from queued to failed. */
  ghost predicate JobsEnd(a: map<string, Job>, b: map<string, Job>)
  {
    a.Keys == b.Keys
    && forall j | j in a :: b[j] == a[j] || (a[j].status == Queued && b[j].status == Failed && b[j].deploy == a[j].deploy)
  }

  lemma EndingJobsKeepsUnique(a: map<string, Job>, b: map<string, Job>)
    requires UniqueActive(a) && JobsEnd(a, b)
    ensures UniqueActive(b)
  {
  }

  lemma EndingJobsKeepsSnapshots(a: map<string, Job>, b: map<string, Job>, snapshots: map<string, Snapshot>)
    requires SnapshotsOk(a, snapshots) && JobsEnd(a, b)
    ensures SnapshotsOk(b, snapshots) && JobsEvolve(a, b)
  {
  }

  lemma EndingJobsKeepsDelivery(row: Task, a: map<string, Job>, b: map<string, Job>)
    requires DeliveryOk(row, a) && JobsEnd(a, b)
    ensures DeliveryOk(row, b)
  {
  }

  lemma EndQueuedJobs(s: State, plan: string, status: Status, code: string, now: int)
    requires JobInv(s.tasks, s.jobs, s.snapshots) && (status == Cancelled || status == Skipped)
    ensures var after := EndQueued(s, plan, status, code, now);
      JobInv(after.tasks, after.jobs, s.snapshots) && JobsEvolve(s.jobs, after.jobs)
  {
    var after := EndQueued(s, plan, status, code, now);
    assert JobsEnd(s.jobs, after.jobs);
    hide UniqueActive, SnapshotsOk, JobsEnd, JobsEvolve;
    EndingJobsKeepsUnique(s.jobs, after.jobs);
    EndingJobsKeepsSnapshots(s.jobs, after.jobs, s.snapshots);
    forall t | t in after.tasks ensures DeliveryOk(after.tasks[t], after.jobs) {
      EndingJobsKeepsDelivery(s.tasks[t], s.jobs, after.jobs);
    }
  }

  lemma EndQueuedKeeps(s: State, plan: string, status: Status, code: string, now: int)
    requires Inv(s) && (status == Cancelled || status == Skipped)
    ensures Inv(EndQueued(s, plan, status, code, now)) && Evolves(s, EndQueued(s, plan, status, code, now))
  {
    hide LeaseInv, BatchInv, JobInv, TasksEvolve, JobsEvolve;
    EndQueuedTasks(s, plan, status, code, now);
    EndQueuedJobs(s, plan, status, code, now);
  }

  lemma UpdatePlanKeeps(s: State, p: string, row: Plan, cancelQueued: bool, now: int)
    requires Inv(s)
    ensures Inv(UpdatePlan(s, p, row, cancelQueued, now)) && Evolves(s, UpdatePlan(s, p, row, cancelQueued, now))
  {
    Unmoved(s);
    hide LeaseInv, BatchInv, JobInv, TasksEvolve, JobsEvolve;
    if Edits(s, p, row) {
      var edited := s.(plans := s.plans[p := row.(lastScheduledAt := s.plans[p].lastScheduledAt, paused := false)]);
      if cancelQueued {
        EndQueuedKeeps(edited, p, Cancelled, "SCOPE_REVISION_SUPERSEDED", now);
      }
    }
  }

  lemma PausePlanKeeps(s: State, p: string, now: int)
    requires Inv(s)
    ensures Inv(PausePlan(s, p, now)) && Evolves(s, PausePlan(s, p, now))
  {
    hide LeaseInv, BatchInv, JobInv, TasksEvolve, JobsEvolve;
    var paused := if p in s.plans
                  then s.(plans := s.plans[p := s.plans[p].(enabled := false, nextRunAt := None, paused := true)])
                  else s;
    EndQueuedKeeps(paused, p, Skipped, "PLAN_PAUSED_SCOPE_INVALID", now);
  }

  lemma CancelTaskRowKeeps(s: State, t: string, now: int)
    requires Inv(s)
    ensures Inv(CancelTaskRow(s, t, now)) && Evolves(s, CancelTaskRow(s, t, now))
  {
    hide Inv, TasksEvolve, JobsEvolve;
    if t in s.tasks && s.tasks[t].status == Queued {
      RowFacts(s, t);
      RowKeeps(s, t, s.tasks[t].(status := Cancelled, finishedAt := Some(now), errorCode := "TASK_CANCELLED"));
    } else {
      Unmoved(s);
    }
  }

  lemma OneJobKeeps(s: State, j: string, row: Job)
    requires Inv(s) && j in s.jobs && s.jobs[j].status != Succeeded && row.status != Succeeded
    requires row.deploy == s.jobs[j].deploy && (Active(row.status) ==> Active(s.jobs[j].status))
    ensures Inv(s.(jobs := s.jobs[j := row])) && Evolves(s, s.(jobs := s.jobs[j := row]))
  {
    hide LeaseInv, BatchInv, JobInv, TasksEvolve, JobsEvolve, Occupied;
    JobMoves(s.tasks, s.jobs, s.snapshots, j, row);
    Unmoved(s);
  }

  lemma CancelJobRowKeeps(s: State, j: string, now: int)
    requires Inv(s)
    ensures Inv(CancelJobRow(s, j, now)) && Evolves(s, CancelJobRow(s, j, now))
  {
    hide Inv, TasksEvolve, JobsEvolve;
    Unmoved(s);
    if j in s.jobs && s.jobs[j].status == Queued {
      OneJobKeeps(s, j, CancelJobRow(s, j, now).jobs[j]);
    }
  }

  // ---------------------------------------------------------------- creating work

  lemma CreateBatchKeeps(s: State, id: string, row: Batch)
    requires Inv(s) && row == NewBatch(row.plan, row.trigger, row.status, row.scheduledAt, row.createdAt, row.finishedAt)
    ensures Inv(CreateBatch(s, id, row)) && Evolves(s, CreateBatch(s, id, row))
  {
    Unmoved(s);
    NewBatchId(s, id, row);
    hide LeaseInv, JobInv, BatchInv, TasksEvolve, JobsEvolve, CreatesBatch;
    if CreatesBatch(s, id, row) { BatchAppears(s.tasks, s.batches, id, row); }
  }

  lemma NewBatchId(s: State, id: string, row: Batch)
    ensures CreatesBatch(s, id, row) ==> id !in s.batches
  {
    hide Scheduled;
  }

  lemma BatchAppears(tasks: map<string, Task>, batches: map<string, Batch>, id: string, row: Batch)
    requires BatchInv(tasks, batches) && id !in batches
    requires row == NewBatch(row.plan, row.trigger, row.status, row.scheduledAt, row.createdAt, row.finishedAt)
    ensures BatchInv(tasks, batches[id := row])
  {
    NoMembers(tasks, batches, id);
    EmptyCounters(tasks, id, row);
    hide CountersOk;
  }

  lemma EmptyCounters(tasks: map<string, Task>, id: string, row: Batch)
    requires Members(tasks, id) == {} && forall c :: InClass(tasks, id, c) == {}
    requires row == NewBatch(row.plan, row.trigger, row.status, row.scheduledAt, row.createdAt, row.finishedAt)
    ensures CountersOk(tasks, id, row)
  {
    hide Members, InClass;
  }

  lemma NoMembers(tasks: map<string, Task>, batches: map<string, Batch>, id: string)
    requires (forall t | t in tasks :: tasks[t].batch in batches) && id !in batches
    ensures Members(tasks, id) == {} && forall c :: InClass(tasks, id, c) == {}
  {
  }

  lemma AddTaskKeeps(s: State, id: string, row: Task, now: int)
    requires Inv(s) && (row.status == Queued || row.status == Skipped) && row.attemptCount == 0
    ensures Inv(AddTask(s, id, row, now)) && Evolves(s, AddTask(s, id, row, now))
    ensures AddsTask(s, id, row) ==> Exact(AddTask(s, id, row, now).tasks, row.batch, AddTask(s, id, row, now).batches[row.batch])
  {
    hide LeaseInv, BatchInv, JobInv, TasksEvolve, JobsEvolve, Exact, Recounted;
    Unmoved(s);
    if AddsTask(s, id, row) {
      assert id !in s.tasks && row.batch in s.batches && (row.status == Queued || row.status == Skipped);
      TaskArrives(s.tasks, id, FreshTask(row));
      LeaseKeptByAdd(s.tasks, s.attempts, id, FreshTask(row));
      RefreshKeepsBatches(s.tasks, s.batches, id, FreshTask(row), now);
      JobsKeptByRow(s.tasks, s.jobs, s.snapshots, id, FreshTask(row));
    }
  }

  lemma TaskArrives(tasks: map<string, Task>, t: string, row: Task)
    requires t !in tasks && row.token == "" && row.attemptCount == 0
    ensures TasksEvolve(tasks, tasks[t := row])
  {
  }

  lemma CreateJobKeeps(s: State, id: string, row: Job)
    requires Inv(s)
    ensures Inv(CreateJob(s, id, row)) && Evolves(s, CreateJob(s, id, row))
  {
    hide LeaseInv, BatchInv, TasksEvolve;
    Unmoved(s);
    if CreatesJob(s, id, row) {
      var after := CreateJob(s, id, row);
      assert UniqueActive(after.jobs) by { hide SnapshotsOk, DeliveryOk; }
      assert SnapshotsOk(after.jobs, s.snapshots) by { hide UniqueActive, DeliveryOk; }
      forall t | t in s.tasks ensures DeliveryOk(s.tasks[t], after.jobs) {
        hide UniqueActive, SnapshotsOk;
        assert DeliveryOk(s.tasks[t], s.jobs);
      }
      hide UniqueActive, SnapshotsOk, DeliveryOk;
    }
  }

  // ---------------------------------------------------------------- running a job

  lemma StartJobKeeps(s: State, j: string, now: int)
    requires Inv(s)
    ensures Inv(StartJob(s, j, now)) && Evolves(s, StartJob(s, j, now))
  {
    hide Inv, TasksEvolve, JobsEvolve;
    Unmoved(s);
    if StartsJob(s, j) {
      OneJobKeeps(s, j, StartJob(s, j, now).jobs[j]);
    }
  }

  lemma FailJobKeeps(s: State, j: string, code: string, now: int)
    requires Inv(s)
    ensures Inv(FailJob(s, j, code, now)) && Evolves(s, FailJob(s, j, code, now))
  {
    hide Inv, TasksEvolve, JobsEvolve;
    Unmoved(s);
    if j in s.jobs && Active(s.jobs[j].status) {
      OneJobKeeps(s, j, FailJob(s, j, code, now).jobs[j]);
    }
  }

  lemma CommitSnapshotKeeps(s: State, id: string, row: Snapshot)
    requires Inv(s)
    ensures Inv(CommitSnapshot(s, id, row)) && Evolves(s, CommitSnapshot(s, id, row))
    ensures Commits(s, id, row) ==>
      CommitSnapshot(s, id, row).jobs[row.job].status == Succeeded && CommitSnapshot(s, id, row).jobs[row.job].snapshot == id
  {
    hide LeaseInv, BatchInv, TasksEvolve;
    Unmoved(s);
    if Commits(s, id, row) {
      var after := CommitSnapshot(s, id, row);
      assert UniqueActive(after.jobs) by { hide SnapshotsOk, DeliveryOk; }
      assert SnapshotsOk(after.jobs, after.snapshots) by { hide UniqueActive, DeliveryOk; }
      forall t | t in s.tasks ensures DeliveryOk(s.tasks[t], after.jobs) {
        hide UniqueActive, SnapshotsOk;
        assert DeliveryOk(s.tasks[t], s.jobs);
      }
      hide UniqueActive, SnapshotsOk, DeliveryOk;
    }
  }

  lemma TrashKeeps(s: State, id: string, path: string, now: int)
    requires Inv(s)
    ensures Inv(TrashSnapshot(s, id, path, now)) && Evolves(s, TrashSnapshot(s, id, path, now))
  {
    hide LeaseInv, BatchInv, TasksEvolve, UniqueActive, DeliveryOk;
    Unmoved(s);
  }

  lemma PurgeKeeps(s: State, before: int)
    requires Inv(s)
    ensures Inv(PurgeSnapshots(s, before)) && Evolves(s, PurgeSnapshots(s, before))
  {
    hide LeaseInv, BatchInv, TasksEvolve, UniqueActive, DeliveryOk;
    Unmoved(s);
  }
}
