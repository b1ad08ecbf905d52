/** Expanding one plan into a batch of tasks. */
module PlanRuns {
  import opened Tables
  import opened QueueSpec
  import opened QueueInvariants
  import opened QueueStore
  import opened Sets
  import Listing
  import Paging

  /** The arguments of one expansion and the batch id it drew. */
  datatype Call = Call(batch: string, plan: string, row: Plan, trigger: string, at: int, now: int)

  /** What the application registry and the source directories say about the targets during the call. */
  datatype Report = Report(live: set<string>, backupable: set<string>, missing: set<string>, unreadable: set<string>)

  /** What becomes of one live target. */
  datatype Fate = Enqueue | Skip(code: string)

  const ALREADY_QUEUED := "INSTANCE_ALREADY_QUEUED"
  const PATH_MISSING := "BACKUP_SCOPE_PATH_MISSING"
  const SCOPE_INVALID := "PLAN_PAUSED_SCOPE_INVALID"

  // ---------------------------------------------------------------- random ids

  function Taken(s: State): set<string>
  {
    s.tasks.Keys + s.jobs.Keys + s.batches.Keys + (set t | t in s.tasks :: s.tasks[t].job)
  }

  /** An id no row uses, as sixteen random bytes are taken to be. */
  predicate Unused(s: State, id: string)
  {
    id != "" && id !in Taken(s) && "skipped-" + id !in Taken(s)
  }

  lemma {:induction false} LongerExists(ids: set<string>) returns (id: string)
    ensures id != "" && forall x | x in ids :: |x| < |id|
    decreases |ids|
  {
    if ids == {} {
      id := "x";
    } else {
      var x :| x in ids;
      var rest := LongerExists(ids - {x});
      id := x + rest;
    }
  }

  lemma UnusedExists(s: State)
    ensures exists id :: Unused(s, id)
  {
    var id := LongerExists(Taken(s));
    assert Unused(s, id);
  }

  // ---------------------------------------------------------------- rows

  function BatchRow(call: Call): Batch
  {
    NewBatch(call.plan, call.trigger, Queued, call.at, call.now, None)
  }

  function QueuedTask(call: Call, deploy: string, job: string): Task
  {
    Task(call.batch, call.plan, job, deploy, Queued, 10, 0, call.row.maxRetries, call.row.backoff, "",
         call.now, call.at, call.now, None, None, "", "", None, None, "")
  }

  function SkippedTask(call: Call, deploy: string, id: string, code: string): Task
  {
    Task(call.batch, call.plan, "skipped-" + id, deploy, Skipped, 0, 0, 0, 0, code,
         call.now, call.at, call.now, None, Some(call.now), "", "", None, None, "")
  }

  function JobRow(call: Call, deploy: string, task: string): Job
  {
    Job(deploy, call.plan, call.batch, task, Queued, "", "", call.now, None, None)
  }

  /** The plan's targets that still exist, in order. */
  function Live(targets: seq<Target>, live: set<string>): (r: seq<string>)
  {
    if targets == [] then []
    else
      var last := targets[|targets| - 1].deploy;
      Live(targets[..|targets| - 1], live) + (if last in live then [last] else [])
  }

  lemma {:induction false} LiveTargets(targets: seq<Target>, live: set<string>)
    requires ValidTargets(targets)
    ensures var r := Live(targets, live);
      (forall i, j | 0 <= i < j < |r| :: r[i] != r[j])
      && forall d :: d in r <==> d in live && exists i | 0 <= i < |targets| :: targets[i].deploy == d
  {
    if targets != [] {
      var init, last := targets[..|targets| - 1], targets[|targets| - 1].deploy;
      LiveTargets(init, live);
      forall d ensures d in Live(targets, live) <==> d in live && exists i | 0 <= i < |targets| :: targets[i].deploy == d {
        assert (exists i | 0 <= i < |targets| :: targets[i].deploy == d)
          <==> d == last || exists i | 0 <= i < |init| :: init[i].deploy == d;
      }
    }
  }

  // ---------------------------------------------------------------- the tasks an expansion has written so far

  /** Target d has its task: skipped, or queued with a queued job of its own. */
  ghost predicate Entered(before: State, after: State, call: Call, fate: Fate, d: string, id: string)
  {
    id in after.tasks
    && if fate.Skip? then after.tasks[id] == FreshTask(SkippedTask(call, d, id, fate.code))
       else var j := after.tasks[id].job;
            after.tasks[id] == FreshTask(QueuedTask(call, d, j))
            && j !in before.jobs && j in after.jobs && after.jobs[j] == JobRow(call, d, id)
  }

  /** The jobs written since are those of the enqueued targets. */
  ghost predicate OnlyTheirJobs(before: State, after: State, fates: map<string, Fate>, ids: map<string, string>)
    requires ids.Keys == fates.Keys
  {
    (forall j | j in before.jobs :: j in after.jobs && after.jobs[j] == before.jobs[j])
    && forall j | j in after.jobs && j !in before.jobs ::
         after.jobs[j].deploy in fates && fates[after.jobs[j].deploy].Enqueue?
         && ids[after.jobs[j].deploy] in after.tasks && after.tasks[ids[after.jobs[j].deploy]].job == j
  }

  ghost predicate OnlyTheirTasks(before: State, after: State, ids: map<string, string>)
  {
    (forall t | t in before.tasks :: t in after.tasks && after.tasks[t] == before.tasks[t])
    && (forall t | t in after.tasks && t !in before.tasks :: exists d | d in ids :: ids[d] == t)
    && (forall d | d in ids :: ids[d] !in before.tasks)
    && forall d, e | d in ids && e in ids && d != e :: ids[d] != ids[e]
  }

  /** The batch row counts its tasks as they are. */
  ghost predicate Counted(before: State, after: State, call: Call)
  {
    after.batches.Keys == before.batches.Keys && call.batch in before.batches
    && (forall b | b in before.batches && b != call.batch :: after.batches[b] == before.batches[b])
    && var was, row := before.batches[call.batch], after.batches[call.batch];
       row.plan == was.plan && row.trigger == was.trigger && row.scheduledAt == was.scheduledAt && row.createdAt == was.createdAt
       && row == Recounted(after.tasks, call.batch, row, call.now)
  }

  /** Between before and after, the expansion wrote exactly one task for each target in fates. */
  ghost predicate Filled(before: State, after: State, call: Call, fates: map<string, Fate>, ids: map<string, string>)
  {
    after == before.(tasks := after.tasks, jobs := after.jobs, batches := after.batches)
    && ids.Keys == fates.Keys && OnlyTheirTasks(before, after, ids) && OnlyTheirJobs(before, after, fates, ids)
    && (forall d | d in fates :: Entered(before, after, call, fates[d], d, ids[d]))
    && (if fates == map[] then after == before else Counted(before, after, call))
  }

  predicate EmptyBatch(s: State, call: Call)
  {
    call.batch in s.batches && forall t | t in s.tasks :: s.tasks[t].batch != call.batch
  }

  lemma NothingFilled(s: State, call: Call)
    ensures Filled(s, s, call, map[], map[])
  {}

  lemma BusyIsUnchanged(before: State, s: State, call: Call, fates: map<string, Fate>, ids: map<string, string>, d: string)
    requires Filled(before, s, call, fates, ids) && d !in fates
    ensures Busy(s.jobs, d) <==> Busy(before.jobs, d)
  {
    hide Entered, OnlyTheirTasks, Counted;
    if Busy(before.jobs, d) {
      var k :| k in before.jobs && before.jobs[k].deploy == d && Active(before.jobs[k].status);
      assert k in s.jobs && s.jobs[k] == before.jobs[k];
    }
  }

  /** d has no task in the batch yet. */
  predicate Seat(s: State, call: Call, d: string)
  {
    d != "" && call.batch in s.batches
    && forall t | t in s.tasks :: !(s.tasks[t].batch == call.batch && s.tasks[t].deploy == d)
  }

  lemma EnteredRow(before: State, s: State, call: Call, fate: Fate, d: string, id: string)
    requires Entered(before, s, call, fate, d, id)
    ensures id in s.tasks && s.tasks[id].batch == call.batch && s.tasks[id].deploy == d
  {}

  lemma SeatIsFree(before: State, s: State, call: Call, fates: map<string, Fate>, ids: map<string, string>, d: string)
    requires Filled(before, s, call, fates, ids) && EmptyBatch(before, call) && d !in fates && d != ""
    ensures Seat(s, call, d)
  {
    hide OnlyTheirJobs, Counted, Entered;
    assert call.batch in s.batches by { CountedKeys(before, s, call); }
    forall t | t in s.tasks ensures !(s.tasks[t].batch == call.batch && s.tasks[t].deploy == d) {
      if t !in before.tasks {
        var e :| e in ids && ids[e] == t;
        EnteredRow(before, s, call, fates[e], e, t);
      }
    }
  }

  lemma CountedKeys(before: State, s: State, call: Call)
    requires s == before || Counted(before, s, call)
    ensures s.batches.Keys == before.batches.Keys
  {}

  lemma RecountAgain(tasks: map<string, Task>, b: string, row: Batch, now: int)
    ensures var counted := Recounted(tasks, b, row, now);
      counted == Recounted(tasks, b, counted, now)
      && counted.plan == row.plan && counted.trigger == row.trigger
      && counted.scheduledAt == row.scheduledAt && counted.createdAt == row.createdAt
  {}

  lemma AddedIsCounted(before: State, s: State, call: Call, id: string, row: Task)
    requires s == before || Counted(before, s, call)
    requires AddsTask(s, id, row) && row.batch == call.batch && call.batch in before.batches
    ensures Counted(before, AddTask(s, id, row, call.now), call)
  {
    hide Recounted;
    RecountAgain(s.tasks[id := FreshTask(row)], call.batch, s.batches[call.batch], call.now);
  }

  /** Parts of AddTask's effect that proofs use. */
  lemma AddedTask(s: State, id: string, row: Task, now: int)
    requires AddsTask(s, id, row)
    ensures var r := AddTask(s, id, row, now);
      r == s.(tasks := s.tasks[id := FreshTask(row)], batches := r.batches)
  {}

  lemma SkipIsAdded(s: State, call: Call, d: string, id: string, code: string)
    requires Unused(s, id) && Seat(s, call, d)
    ensures AddsTask(s, id, SkippedTask(call, d, id, code))
  {
    assert forall t | t in s.tasks :: s.tasks[t].job in Taken(s);
  }

  lemma FillSkip(before: State, s: State, call: Call, fates: map<string, Fate>, ids: map<string, string>, d: string, id: string, code: string)
    requires Filled(before, s, call, fates, ids) && EmptyBatch(before, call) && d !in fates
    requires Unused(s, id) && Seat(s, call, d)
    ensures Filled(before, AddTask(s, id, SkippedTask(call, d, id, code), call.now), call, fates[d := Skip(code)], ids[d := id])
  {
    hide Counted, Unused, Seat, AddsTask, AddTask, Taken, OnlyTheirTasks, OnlyTheirJobs, Entered, FreshTask;
    var row := SkippedTask(call, d, id, code);
    var after := AddTask(s, id, row, call.now);
    SkipIsAdded(s, call, d, id, code);
    AddedIsCounted(before, s, call, id, row);
    AddedTask(s, id, row, call.now);
    NewRow(before, s, id, row);
    forall e | e in ids ensures ids[e] in s.tasks { EnteredRow(before, s, call, fates[e], e, ids[e]); }
    OneMoreTask(before, s, after, ids, d, id, FreshTask(row));
    OneMoreEntered(before, s, after, call, fates, ids, d, id);
    JobsStayTheirs(before, s, after, fates, ids, d, id, code);
    SkipEntered(before, after, call, d, id, code);
  }

  lemma SkipEntered(before: State, after: State, call: Call, d: string, id: string, code: string)
    requires id in after.tasks && after.tasks[id] == FreshTask(SkippedTask(call, d, id, code))
    ensures Entered(before, after, call, Skip(code), d, id)
  {}

  lemma EnqueueEntered(before: State, after: State, call: Call, d: string, id: string, j: string)
    requires id in after.tasks && after.tasks[id] == FreshTask(QueuedTask(call, d, j))
    requires j !in before.jobs && j in after.jobs && after.jobs[j] == JobRow(call, d, id)
    ensures Entered(before, after, call, Enqueue, d, id) && after.tasks[id].job == j && after.jobs[j].deploy == d
  {}

  lemma NewRow(before: State, s: State, id: string, row: Task)
    requires AddsTask(s, id, row)
    ensures id !in s.tasks && id != ""
  {}

  lemma OneMoreTask(before: State, s: State, after: State, ids: map<string, string>, d: string, id: string, row: Task)
    requires OnlyTheirTasks(before, s, ids) && d !in ids && id !in s.tasks && after.tasks == s.tasks[id := row]
    requires forall e | e in ids :: ids[e] in s.tasks
    ensures OnlyTheirTasks(before, after, ids[d := id])
  {
    var more := ids[d := id];
    forall t | t in after.tasks && t !in before.tasks ensures exists e | e in more :: more[e] == t {
      OneMoreOwner(before, s, ids, more, d, id, t);
    }
    IdsStayApart(before, s, ids, d, id);
  }

  lemma OneMoreOwner(before: State, s: State, ids: map<string, string>, more: map<string, string>, d: string, id: string, t: string)
    requires OnlyTheirTasks(before, s, ids) && d !in ids && t !in before.tasks && (t == id || t in s.tasks)
    requires more == ids[d := id]
    ensures exists e | e in more :: more[e] == t
  {
    if t == id { assert more[d] == id; }
    else { var e :| e in ids && ids[e] == t; assert more[e] == t; }
  }

  lemma IdsStayApart(before: State, s: State, ids: map<string, string>, d: string, id: string)
    requires OnlyTheirTasks(before, s, ids) && d !in ids && id !in s.tasks
    requires forall e | e in ids :: ids[e] in s.tasks
    ensures var more := ids[d := id];
      (forall e | e in more :: more[e] !in before.tasks)
      && forall e, f | e in more && f in more && e != f :: more[e] != more[f]
  {}

  lemma OneMoreEntered(before: State, s: State, after: State, call: Call, fates: map<string, Fate>, ids: map<string, string>, d: string, id: string)
    requires ids.Keys == fates.Keys && d !in ids && id !in s.tasks
    requires forall e | e in fates :: Entered(before, s, call, fates[e], e, ids[e])
    requires forall t | t in s.tasks :: t in after.tasks && after.tasks[t] == s.tasks[t]
    requires forall j | j in s.jobs :: j in after.jobs && after.jobs[j] == s.jobs[j]
    ensures forall e | e in fates :: Entered(before, after, call, fates[e], e, ids[d := id][e])
  {}

  lemma JobsStayTheirs(before: State, s: State, after: State, fates: map<string, Fate>, ids: map<string, string>, d: string, id: string, code: string)
    requires ids.Keys == fates.Keys && OnlyTheirJobs(before, s, fates, ids) && d !in ids && after.jobs == s.jobs
    requires forall t | t in s.tasks :: t in after.tasks && after.tasks[t] == s.tasks[t]
    ensures OnlyTheirJobs(before, after, fates[d := Skip(code)], ids[d := id])
  {}

  lemma EnqueueIsAdded(s: State, call: Call, d: string, id: string, j: string)
    requires Unused(s, id) && Unused(s, j) && Seat(s, call, d) && !Busy(s.jobs, d)
    ensures CreatesJob(s, j, JobRow(call, d, id))
    ensures var s1 := CreateJob(s, j, JobRow(call, d, id));
      s1 == s.(jobs := s.jobs[j := JobRow(call, d, id)]) && AddsTask(s1, id, QueuedTask(call, d, j))
  {
    assert forall t | t in s.tasks :: s.tasks[t].job in Taken(s);
  }

  lemma FillEnqueue(before: State, s: State, call: Call, fates: map<string, Fate>, ids: map<string, string>, d: string, id: string, j: string)
    requires Filled(before, s, call, fates, ids) && EmptyBatch(before, call) && d !in fates
    requires Unused(s, id) && Unused(s, j) && Seat(s, call, d) && !Busy(s.jobs, d)
    ensures Filled(before, AddTask(CreateJob(s, j, JobRow(call, d, id)), id, QueuedTask(call, d, j), call.now), call,
                   fates[d := Enqueue], ids[d := id])
  {
    hide Counted, Seat, AddsTask, AddTask, CreatesJob, CreateJob, Busy, OnlyTheirTasks, OnlyTheirJobs, Entered, FreshTask, Unused, JobRow;
    var job, row := JobRow(call, d, id), QueuedTask(call, d, j);
    var s1 := CreateJob(s, j, job);
    var after := AddTask(s1, id, row, call.now);
    EnqueueIsAdded(s, call, d, id, j);
    CountedWithJob(before, s, call, j, job, fates == map[]);
    AddedTask(s1, id, row, call.now);
    AddedAfterJob(before, s, s1, call, id, row);
    NewRow(before, s1, id, row);
    NewJob(before, s, fates, ids, j);
    forall e | e in ids ensures ids[e] in s.tasks { EnteredRow(before, s, call, fates[e], e, ids[e]); }
    OneMoreTask(before, s, after, ids, d, id, FreshTask(row));
    OneMoreEntered(before, s, after, call, fates, ids, d, id);
    EnqueueEntered(before, after, call, d, id, j);
    JobsGain(before, s, after, fates, ids, d, id, j);
  }

  lemma NewJob(before: State, s: State, fates: map<string, Fate>, ids: map<string, string>, j: string)
    requires Unused(s, j) && ids.Keys == fates.Keys && OnlyTheirJobs(before, s, fates, ids)
    ensures j !in s.jobs && j !in before.jobs
  {}

  lemma CountedWithJob(before: State, s: State, call: Call, j: string, job: Job, empty: bool)
    requires if empty then s == before else Counted(before, s, call)
    ensures var s1 := s.(jobs := s.jobs[j := job]);
      s1.batches == s.batches && s1.tasks == s.tasks && (!empty ==> Counted(before, s1, call))
  {}

  lemma AddedAfterJob(before: State, s: State, s1: State, call: Call, id: string, row: Task)
    requires s1.tasks == s.tasks && s1.batches == s.batches && (s == before || Counted(before, s1, call))
    requires AddsTask(s1, id, row) && row.batch == call.batch && call.batch in before.batches
    ensures Counted(before, AddTask(s1, id, row, call.now), call)
  {
    hide Recounted;
    RecountAgain(s1.tasks[id := FreshTask(row)], call.batch, s1.batches[call.batch], call.now);
  }

  lemma JobsGain(before: State, s: State, after: State, fates: map<string, Fate>, ids: map<string, string>, d: string, id: string, j: string)
    requires ids.Keys == fates.Keys && OnlyTheirJobs(before, s, fates, ids) && d !in ids && j !in s.jobs
    requires j in after.jobs && after.jobs == s.jobs[j := after.jobs[j]] && after.jobs[j].deploy == d
    requires id in after.tasks && after.tasks[id].job == j
    requires forall t | t in s.tasks :: t in after.tasks && after.tasks[t] == s.tasks[t]
    ensures OnlyTheirJobs(before, after, fates[d := Enqueue], ids[d := id])
  {}

  // ---------------------------------------------------------------- what a finished expansion amounts to

  function Enqueued(fates: map<string, Fate>): set<string>
  {
    set d | d in fates && fates[d].Enqueue?
  }

  function Image(ids: map<string, string>, deploys: set<string>): set<string>
    requires deploys <= ids.Keys
  {
    set d | d in deploys :: ids[d]
  }

  lemma {:induction false} ImageSize(ids: map<string, string>, deploys: set<string>)
    requires deploys <= ids.Keys && forall d, e | d in ids && e in ids && d != e :: ids[d] != ids[e]
    ensures |Image(ids, deploys)| == |deploys|
    decreases |deploys|
  {
    if deploys != {} {
      var d :| d in deploys;
      ImageSize(ids, deploys - {d});
      assert Image(ids, deploys) == Image(ids, deploys - {d}) + {ids[d]};
    }
  }

  lemma TaskOfBatch(before: State, after: State, call: Call, fates: map<string, Fate>, ids: map<string, string>, t: string) returns (d: string)
    requires Filled(before, after, call, fates, ids) && EmptyBatch(before, call)
    requires t in after.tasks && after.tasks[t].batch == call.batch
    ensures d in fates && ids[d] == t && after.tasks[t].deploy == d && Entered(before, after, call, fates[d], d, t)
  {
    hide OnlyTheirJobs, Counted;
    d :| d in ids && ids[d] == t;
  }

  lemma StatusOf(before: State, after: State, call: Call, fate: Fate, d: string, id: string)
    requires Entered(before, after, call, fate, d, id)
    ensures id in after.tasks && after.tasks[id].batch == call.batch && after.tasks[id].deploy == d
    ensures ClassOf(after.tasks[id].status) == if fate.Enqueue? then InQueue else Bypassed
    ensures after.tasks[id].status == if fate.Enqueue? then Queued else Skipped
  {}

  /** Every target has exactly one task in the batch, nobody else has one. */
  ghost predicate Roll(tasks: map<string, Task>, batch: string, fates: map<string, Fate>, ids: map<string, string>)
  {
    ids.Keys == fates.Keys
    && (forall d | d in fates ::
          ids[d] in tasks && tasks[ids[d]].batch == batch && tasks[ids[d]].deploy == d
          && tasks[ids[d]].status == (if fates[d].Enqueue? then Queued else Skipped))
    && forall t | t in tasks && tasks[t].batch == batch :: tasks[t].deploy in fates && t == ids[tasks[t].deploy]
  }

  lemma FilledRoll(before: State, after: State, call: Call, fates: map<string, Fate>, ids: map<string, string>)
    requires Filled(before, after, call, fates, ids) && EmptyBatch(before, call)
    ensures Roll(after.tasks, call.batch, fates, ids)
  {
    hide Entered, OnlyTheirJobs, Counted, OnlyTheirTasks;
    forall d | d in fates
      ensures ids[d] in after.tasks && after.tasks[ids[d]].batch == call.batch && after.tasks[ids[d]].deploy == d
      ensures after.tasks[ids[d]].status == (if fates[d].Enqueue? then Queued else Skipped)
    {
      StatusOf(before, after, call, fates[d], d, ids[d]);
    }
    forall t | t in after.tasks && after.tasks[t].batch == call.batch
      ensures after.tasks[t].deploy in fates && t == ids[after.tasks[t].deploy]
    {
      var d := TaskOfBatch(before, after, call, fates, ids, t);
    }
  }

  lemma RollClass(tasks: map<string, Task>, batch: string, fates: map<string, Fate>, ids: map<string, string>)
    requires Roll(tasks, batch, fates, ids)
    ensures Members(tasks, batch) == Image(ids, fates.Keys)
    ensures InClass(tasks, batch, InQueue) == Image(ids, Enqueued(fates))
    ensures InClass(tasks, batch, Bypassed) == Image(ids, fates.Keys - Enqueued(fates))
    ensures InClass(tasks, batch, InProgress) == {} && InClass(tasks, batch, Successful) == {}
    ensures InClass(tasks, batch, Unsuccessful) == {}
  {
    RollRow(tasks, batch, fates, ids);
    hide Roll;
  }

  /** Roll, one task at a time. */
  lemma RollRow(tasks: map<string, Task>, batch: string, fates: map<string, Fate>, ids: map<string, string>)
    requires Roll(tasks, batch, fates, ids)
    ensures ids.Keys == fates.Keys
    ensures forall d | d in fates ::
      ids[d] in tasks && tasks[ids[d]].batch == batch
      && ClassOf(tasks[ids[d]].status) == (if d in Enqueued(fates) then InQueue else Bypassed)
    ensures forall t | t in tasks && tasks[t].batch == batch ::
      tasks[t].deploy in fates && t == ids[tasks[t].deploy]
  {}

  lemma Census(tasks: map<string, Task>, batch: string, fates: map<string, Fate>, ids: map<string, string>)
    requires Roll(tasks, batch, fates, ids)
    ensures |Members(tasks, batch)| == |fates.Keys|
    ensures |InClass(tasks, batch, InQueue)| == |Enqueued(fates)|
    ensures |InClass(tasks, batch, Bypassed)| == |fates.Keys - Enqueued(fates)|
    ensures InClass(tasks, batch, InProgress) == {} && InClass(tasks, batch, Successful) == {}
    ensures InClass(tasks, batch, Unsuccessful) == {}
  {
    RollClass(tasks, batch, fates, ids);
    assert forall d, e | d in ids && e in ids && d != e :: ids[d] != ids[e];
    hide Roll, Members, InClass, Image;
    ImageSize(ids, fates.Keys);
    ImageSize(ids, Enqueued(fates));
    ImageSize(ids, fates.Keys - Enqueued(fates));
  }

  lemma Shares(fates: map<string, Fate>)
    ensures |fates.Keys| == |Enqueued(fates)| + |fates.Keys - Enqueued(fates)|
    ensures Enqueued(fates) != fates.Keys ==> |fates.Keys - Enqueued(fates)| > 0
  {
    TakeAway(fates.Keys, Enqueued(fates));
    if Enqueued(fates) != fates.Keys {
      var d :| d in fates && d !in Enqueued(fates);
      assert d in fates.Keys - Enqueued(fates);
    }
  }

  /** After an expansion each target has exactly one task, and the batch row adds them up. */
  lemma OneTaskPerTarget(before: State, after: State, call: Call, fates: map<string, Fate>, ids: map<string, string>)
    requires Filled(before, after, call, fates, ids) && EmptyBatch(before, call) && fates != map[]
    ensures Roll(after.tasks, call.batch, fates, ids)
    ensures call.batch in after.batches
    ensures var row := after.batches[call.batch];
      row.total == |fates.Keys| && row.queued == |Enqueued(fates)| && row.skipped == |fates.Keys - Enqueued(fates)|
      && row.running == row.succeeded == row.failed == 0
      && row.status == (if Enqueued(fates) == {} then Skipped else if Enqueued(fates) == fates.Keys then Queued else Running)
      && (row.finishedAt.Some? <==> Enqueued(fates) == {})
  {
    hide Entered, OnlyTheirJobs, Counted, OnlyTheirTasks, Roll;
    FilledRoll(before, after, call, fates, ids);
    Census(after.tasks, call.batch, fates, ids);
    Shares(fates);
    RowAddsUp(before, after, call, fates);
  }

  lemma RowAddsUp(before: State, after: State, call: Call, fates: map<string, Fate>)
    requires Counted(before, after, call) && fates != map[]
    requires |fates.Keys| == |Enqueued(fates)| + |fates.Keys - Enqueued(fates)|
    requires Enqueued(fates) != fates.Keys ==> |fates.Keys - Enqueued(fates)| > 0
    requires |Members(after.tasks, call.batch)| == |fates.Keys|
    requires |InClass(after.tasks, call.batch, InQueue)| == |Enqueued(fates)|
    requires |InClass(after.tasks, call.batch, Bypassed)| == |fates.Keys - Enqueued(fates)|
    requires InClass(after.tasks, call.batch, InProgress) == {} && InClass(after.tasks, call.batch, Successful) == {}
    requires InClass(after.tasks, call.batch, Unsuccessful) == {}
    ensures call.batch in after.batches
    ensures var row := after.batches[call.batch];
      row.total == |fates.Keys| && row.queued == |Enqueued(fates)| && row.skipped == |fates.Keys - Enqueued(fates)|
      && row.running == row.succeeded == row.failed == 0
      && row.status == (if Enqueued(fates) == {} then Skipped else if Enqueued(fates) == fates.Keys then Queued else Running)
      && (row.finishedAt.Some? <==> Enqueued(fates) == {})
  {
    hide InClass, Members, Enqueued;
  }

  // ---------------------------------------------------------------- the specification of RunPlan

  function Begun(s: State, call: Call): State
  {
    CreateBatch(s, call.batch, BatchRow(call))
  }

  predicate Refused(report: Report, d: string)
  {
    d in report.missing || d in report.unreadable
  }

  /** Scope validation stops at live[i]. */
  predicate StopsAt(live: seq<string>, report: Report, i: nat)
  {
    i < |live| && Refused(report, live[i]) && forall k | 0 <= k < i :: !Refused(report, live[k])
  }

  /** No scope failed: each live target is enqueued unless its deployment is busy. */
  ghost predicate Expanded(s0: State, s: State, call: Call, report: Report, fates: map<string, Fate>, ids: map<string, string>)
  {
    var live := Live(call.row.targets, report.live);
    CreatesBatch(s0, call.batch, BatchRow(call))
    && Filled(Begun(s0, call), s, call, fates, ids) && EmptyBatch(Begun(s0, call), call)
    && (forall d :: d in fates <==> d in live)
    && forall d | d in live :: !Refused(report, d) && d in report.backupable
         && fates[d] == if Busy(s0.jobs, d) then Skip(ALREADY_QUEUED) else Enqueue
  }

  /** A scope path of live[i] is gone: the plan is paused and every live target is skipped. */
  ghost predicate PausedAt(s0: State, s: State, call: Call, report: Report, i: nat, fates: map<string, Fate>, ids: map<string, string>)
  {
    var live := Live(call.row.targets, report.live);
    CreatesBatch(s0, call.batch, BatchRow(call))
    && Filled(PausePlan(Begun(s0, call), call.plan, call.now), s, call, fates, ids)
    && EmptyBatch(PausePlan(Begun(s0, call), call.plan, call.now), call)
    && StopsAt(live, report, i) && live[i] in report.missing
    && (forall d :: d in fates <==> d in live)
    && forall d | d in live :: fates[d] == Skip(if d == live[i] then PATH_MISSING else SCOPE_INVALID)
  }

  /** All an expansion may do to the batches, to the plans and to the tasks' places, however it ends. */
  ghost predicate Footprint(s0: State, s: State, batch: string, plan: string, at: int)
  {
    s0.batches.Keys <= s.batches.Keys <= s0.batches.Keys + {batch}
    && (forall b | b in s0.batches && b != batch :: s.batches[b] == s0.batches[b])
    && (batch in s.batches && batch !in s0.batches ==>
          s.batches[batch].plan == plan && s.batches[batch].scheduledAt == at
          && (plan != "" ==> !Scheduled(s0.batches, plan, at)))
    && (forall t | t in s.tasks :: t in s0.tasks || (s.tasks[t].batch == batch && batch in s.batches))
    && (forall t | t in s0.tasks :: t in s.tasks && s.tasks[t].batch == s0.tasks[t].batch && s.tasks[t].deploy == s0.tasks[t].deploy)
    && s.plans.Keys == s0.plans.Keys
    && forall q | q in s0.plans :: s.plans[q] == s0.plans[q]
         || (q == plan && s.plans[q] == s0.plans[q].(enabled := false, nextRunAt := None, paused := true))
  }

  /** The plan does not run: it is disabled without a next run, and nothing of it waits. */
  ghost predicate Off(s0: State, s: State, plan: string)
  {
    (forall t | t in s.tasks && s.tasks[t].plan == plan :: s.tasks[t].status != Queued)
    && (forall j | j in s.jobs && s.jobs[j].plan == plan :: s.jobs[j].status != Queued)
    && (plan in s0.plans ==>
          plan in s.plans && !s.plans[plan].enabled && s.plans[plan].nextRunAt == None && s.plans[plan].paused)
  }

  /** A scope failure creates no job; tasks, jobs and plans are as before until the pause is stored, and off from then on. */
  ghost predicate Halted(s0: State, s: State, plan: string)
  {
    s.jobs.Keys == s0.jobs.Keys
    && ((s.tasks == s0.tasks && s.jobs == s0.jobs && s.plans == s0.plans) || Off(s0, s, plan))
  }

  lemma SkippingHalts(s0: State, s: State, call: Call, fates: map<string, Fate>, ids: map<string, string>)
    requires CreatesBatch(s0, call.batch, BatchRow(call))
    requires Filled(PausePlan(Begun(s0, call), call.plan, call.now), s, call, fates, ids) && forall d | d in fates :: fates[d].Skip?
    ensures s.jobs.Keys == s0.jobs.Keys && Off(s0, s, call.plan)
  {
    assert Begun(s0, call).jobs == s0.jobs && Begun(s0, call).plans == s0.plans;
    hide Filled, Entered, Counted, PausePlan, Begun, CreatesBatch;
    var before := PausePlan(Begun(s0, call), call.plan, call.now);
    PausedRows(Begun(s0, call), call.plan, call.now);
    NoNewJobs(before, s, call, fates, ids);
    SkippedAdded(before, s, call, fates, ids);
  }

  lemma SkippedAdded(before: State, s: State, call: Call, fates: map<string, Fate>, ids: map<string, string>)
    requires Filled(before, s, call, fates, ids) && forall d | d in fates :: fates[d].Skip?
    ensures forall t | t in s.tasks && t !in before.tasks :: s.tasks[t].status != Queued
    ensures forall t | t in s.tasks && t in before.tasks :: s.tasks[t] == before.tasks[t]
  {
    hide Entered, Counted, OnlyTheirJobs;
    forall t | t in s.tasks && t !in before.tasks ensures s.tasks[t].status != Queued {
      var d :| d in ids && ids[d] == t;
      StatusOf(before, s, call, fates[d], d, t);
    }
  }

  lemma NothingHalts(s0: State, call: Call)
    ensures Halted(s0, s0, call.plan)
    ensures Halted(s0, Begun(s0, call), call.plan)
  {
    hide CreatesBatch;
  }

  /** After a scope failure the plan is off, no job was created and no task of the plan waits in the queue. */
  lemma AllOrNothing(s0: State, s: State, call: Call, report: Report, i: nat, fates: map<string, Fate>, ids: map<string, string>)
    requires PausedAt(s0, s, call, report, i, fates, ids)
    ensures s.jobs.Keys == s0.jobs.Keys && Off(s0, s, call.plan)
    ensures call.batch in s.batches && s.batches[call.batch].status == Skipped
    ensures s.batches[call.batch].total == s.batches[call.batch].skipped == |fates.Keys|
    ensures forall d | d in Live(call.row.targets, report.live) ::
      ids[d] in s.tasks && s.tasks[ids[d]].batch == call.batch && s.tasks[ids[d]].deploy == d && s.tasks[ids[d]].status == Skipped
  {
    hide Filled, PausePlan, Begun, Live, EmptyBatch, Off, CreatesBatch, Roll;
    var before := PausePlan(Begun(s0, call), call.plan, call.now);
    assert fates[Live(call.row.targets, report.live)[i]].Skip?;
    assert Enqueued(fates) == {};
    OneTaskPerTarget(before, s, call, fates, ids);
    SkippingHalts(s0, s, call, fates, ids);
    RollRows(s.tasks, call.batch, fates, ids);
  }

  lemma RollRows(tasks: map<string, Task>, batch: string, fates: map<string, Fate>, ids: map<string, string>)
    requires Roll(tasks, batch, fates, ids)
    ensures forall d | d in fates ::
      d in ids && ids[d] in tasks && tasks[ids[d]].batch == batch && tasks[ids[d]].deploy == d
      && tasks[ids[d]].status == (if fates[d].Enqueue? then Queued else Skipped)
  {}

  // ---------------------------------------------------------------- what later expansions leave alone

  /** The batch has one task for each of the given deployments and no other. */
  ghost predicate OneTaskEach(tasks: map<string, Task>, batch: string, live: seq<string>)
  {
    (forall d | d in live :: exists t | t in tasks :: tasks[t].batch == batch && tasks[t].deploy == d)
    && (forall t | t in tasks && tasks[t].batch == batch :: tasks[t].deploy in live)
    && forall t, u | t in tasks && u in tasks && tasks[t].batch == batch && tasks[u].batch == batch && tasks[t].deploy == tasks[u].deploy :: t == u
  }

  /** A batch row that an expansion wrote: as inserted, or counting at least one task. */
  predicate Begins(row: Batch, call: Call)
  {
    row.plan == call.plan && row.trigger == call.trigger && row.scheduledAt == call.at && row.createdAt == call.now
    && (row == BatchRow(call) || row.total > 0)
  }

  lemma RollIsOneEach(tasks: map<string, Task>, batch: string, fates: map<string, Fate>, ids: map<string, string>, live: seq<string>)
    requires Roll(tasks, batch, fates, ids) && forall d :: d in fates <==> d in live
    ensures OneTaskEach(tasks, batch, live)
  {
    forall d | d in live ensures exists t | t in tasks :: tasks[t].batch == batch && tasks[t].deploy == d {
      assert ids[d] in tasks;
    }
  }

  lemma ExpandedIsOneEach(s0: State, s: State, call: Call, report: Report, fates: map<string, Fate>, ids: map<string, string>)
    requires Expanded(s0, s, call, report, fates, ids)
    ensures OneTaskEach(s.tasks, call.batch, Live(call.row.targets, report.live))
  {
    hide Filled, Live, EmptyBatch, Begun, Roll, OneTaskEach, Busy, Refused;
    FilledRoll(Begun(s0, call), s, call, fates, ids);
    RollIsOneEach(s.tasks, call.batch, fates, ids, Live(call.row.targets, report.live));
  }

  lemma PausedIsOneEach(s0: State, s: State, call: Call, report: Report, i: nat, fates: map<string, Fate>, ids: map<string, string>)
    requires PausedAt(s0, s, call, report, i, fates, ids)
    ensures OneTaskEach(s.tasks, call.batch, Live(call.row.targets, report.live))
  {
    hide Filled, Live, EmptyBatch, Begun, PausePlan, Roll, OneTaskEach, StopsAt;
    FilledRoll(PausePlan(Begun(s0, call), call.plan, call.now), s, call, fates, ids);
    RollIsOneEach(s.tasks, call.batch, fates, ids, Live(call.row.targets, report.live));
  }

  lemma FilledBegins(before: State, s: State, call: Call, fates: map<string, Fate>, ids: map<string, string>)
    requires Filled(before, s, call, fates, ids) && EmptyBatch(before, call) && before.batches[call.batch] == BatchRow(call)
    ensures call.batch in s.batches && Begins(s.batches[call.batch], call)
  {
    if fates == map[] {
      NothingWasFilled(before, s, call, ids);
    } else {
      OneTaskPerTarget(before, s, call, fates, ids);
      var d :| d in fates;
      assert |fates.Keys| > 0;
      hide Entered, OnlyTheirTasks, OnlyTheirJobs, Roll, Recounted, Enqueued;
    }
  }

  // ---------------------------------------------------------------- what the rows of a target say

  /** The target waits: its task carries the plan's retry policy at priority 10 and may be claimed at once, and its queued
      job and its task name each other. */
  ghost predicate Submitted(s: State, call: Call, d: string, id: string)
  {
    id in s.tasks
    && var t := s.tasks[id];
       t.batch == call.batch && t.plan == call.plan && t.deploy == d && t.status == Queued && t.priority == 10 && t.attemptCount == 0
       && t.maxRetries == call.row.maxRetries && t.backoff == call.row.backoff && t.errorCode == "" && t.token == ""
       && t.availableAt == t.createdAt == call.now && t.scheduledAt == call.at && t.startedAt == t.finishedAt == None
       && t.job in s.jobs
       && var j := s.jobs[t.job];
          j.deploy == d && j.plan == call.plan && j.batch == call.batch && j.task == id && j.status == Queued
          && j.errorCode == j.snapshot == "" && j.createdAt == call.now && j.startedAt == j.finishedAt == None
  }

  /** The target is passed over: its task has ended with this reason, without an end time, and names a job that does not exist. */
  ghost predicate PassedOver(s: State, call: Call, d: string, id: string, code: string)
  {
    id in s.tasks
    && var t := s.tasks[id];
       t.batch == call.batch && t.plan == call.plan && t.deploy == d && t.status == Skipped && t.errorCode == code
       && t.attemptCount == t.maxRetries == 0 && t.token == "" && t.scheduledAt == call.at && t.createdAt == call.now && t.job == "skipped-" + id
       && t.finishedAt == None
  }

  lemma EnteredMeans(before: State, after: State, call: Call, fate: Fate, d: string, id: string)
    requires Entered(before, after, call, fate, d, id)
    ensures if fate.Skip? then PassedOver(after, call, d, id, fate.code) else Submitted(after, call, d, id)
  {}

  lemma FilledMeans(before: State, after: State, call: Call, fates: map<string, Fate>, ids: map<string, string>, d: string)
    requires Filled(before, after, call, fates, ids) && d in fates
    ensures d in ids && if fates[d].Skip? then PassedOver(after, call, d, ids[d], fates[d].code) else Submitted(after, call, d, ids[d])
  {
    hide Entered, Counted, OnlyTheirTasks, OnlyTheirJobs, PassedOver, Submitted;
    EnteredMeans(before, after, call, fates[d], d, ids[d]);
  }

  /** An expansion submits every live target whose deployment is free and passes the others over. */
  lemma TargetsSubmitted(s0: State, s: State, call: Call, report: Report, fates: map<string, Fate>, ids: map<string, string>, d: string)
    requires Expanded(s0, s, call, report, fates, ids) && d in Live(call.row.targets, report.live)
    ensures d in ids
    ensures if exists k | k in s0.jobs :: s0.jobs[k].deploy == d && s0.jobs[k].status in {Queued, Running}
            then PassedOver(s, call, d, ids[d], "INSTANCE_ALREADY_QUEUED") else Submitted(s, call, d, ids[d])
  {
    BusyMeans(s0.jobs, d);
    hide Filled, Live, EmptyBatch, Begun, Refused, Busy, PassedOver, Submitted;
    FilledMeans(Begun(s0, call), s, call, fates, ids, d);
  }

  lemma BusyMeans(jobs: map<string, Job>, d: string)
    ensures Busy(jobs, d) <==> exists k | k in jobs :: jobs[k].deploy == d && jobs[k].status in {Queued, Running}
  {}

  /** A missing path passes every live target over: the first to miss one for that reason, the others because of the pause. */
  lemma TargetsPassedOver(s0: State, s: State, call: Call, report: Report, i: nat, fates: map<string, Fate>, ids: map<string, string>, d: string)
    requires PausedAt(s0, s, call, report, i, fates, ids) && d in Live(call.row.targets, report.live)
    ensures i < |Live(call.row.targets, report.live)| && Live(call.row.targets, report.live)[i] in report.missing
    ensures forall k | 0 <= k < i :: Live(call.row.targets, report.live)[k] !in report.missing + report.unreadable
    ensures d in ids && PassedOver(s, call, d, ids[d],
      if d == Live(call.row.targets, report.live)[i] then "BACKUP_SCOPE_PATH_MISSING" else "PLAN_PAUSED_SCOPE_INVALID")
  {
    hide Filled, Live, EmptyBatch, Begun, PausePlan, PassedOver, Submitted;
    FilledMeans(PausePlan(Begun(s0, call), call.plan, call.now), s, call, fates, ids, d);
  }

  /** With no live target left nothing recounts the new batch: it stays queued, and only then. */
  lemma FinishedUnlessNobodyLives(s0: State, s: State, call: Call, report: Report, fates: map<string, Fate>, ids: map<string, string>)
    requires Expanded(s0, s, call, report, fates, ids)
    ensures call.batch in s.batches
    ensures Live(call.row.targets, report.live) == [] <==> s.batches[call.batch].total == 0
    ensures s.batches[call.batch].total == 0 ==>
      s.batches[call.batch] == Batch(call.plan, call.trigger, Queued, call.at, call.now, None, None, 0, 0, 0, 0, 0, 0)
    ensures s.batches[call.batch].total > 0 ==>
      (s.batches[call.batch].finishedAt.Some? <==> forall d | d in Live(call.row.targets, report.live) :: Busy(s0.jobs, d))
  {
    var live := Live(call.row.targets, report.live);
    hide Filled, Busy, Live, Begun, EmptyBatch, Refused;
    if live == [] {
      assert fates == map[];
      NothingWasFilled(Begun(s0, call), s, call, ids);
      BegunRow(s0, call);
    } else {
      assert live[0] in fates;
      OneTaskPerTarget(Begun(s0, call), s, call, fates, ids);
      assert |fates.Keys| > 0;
      assert Enqueued(fates) == {} <==> forall d | d in live :: Busy(s0.jobs, d);
    }
  }

  lemma NothingWasFilled(before: State, s: State, call: Call, ids: map<string, string>)
    requires Filled(before, s, call, map[], ids)
    ensures s == before
  {}

  lemma BegunRow(s0: State, call: Call)
    requires CreatesBatch(s0, call.batch, BatchRow(call))
    ensures call.batch in Begun(s0, call).batches && Begun(s0, call).batches[call.batch] == BatchRow(call)
  {}

  lemma NoNewJobs(before: State, s: State, call: Call, fates: map<string, Fate>, ids: map<string, string>)
    requires Filled(before, s, call, fates, ids) && Enqueued(fates) == {}
    ensures s.jobs == before.jobs && s.plans == before.plans
  {
    hide Entered, Counted, OnlyTheirTasks;
    assert forall d | d in fates :: d !in Enqueued(fates);
  }

  lemma PausedRows(s: State, plan: string, now: int)
    ensures var r := PausePlan(s, plan, now);
      r.jobs.Keys == s.jobs.Keys && r.plans.Keys == s.plans.Keys && r.batches == s.batches
      && (forall t | t in r.tasks && r.tasks[t].plan == plan :: r.tasks[t].status != Queued)
      && (forall j | j in r.jobs && r.jobs[j].plan == plan :: r.jobs[j].status != Queued)
      && (plan in s.plans ==> r.plans[plan] == s.plans[plan].(enabled := false, nextRunAt := None, paused := true))
      && (forall q | q in s.plans && q != plan :: r.plans[q] == s.plans[q])
      && r.tasks.Keys == s.tasks.Keys && forall t | t in s.tasks :: r.tasks[t].batch == s.tasks[t].batch && r.tasks[t].deploy == s.tasks[t].deploy
  {}

  // ---------------------------------------------------------------- footprints of the parts

  lemma Untouched(s: State, batch: string, plan: string, at: int)
    ensures Footprint(s, s, batch, plan, at)
  {}

  lemma BegunFootprint(s0: State, call: Call)
    requires CreatesBatch(s0, call.batch, BatchRow(call)) && forall t | t in s0.tasks :: s0.tasks[t].batch in s0.batches
    ensures Footprint(s0, Begun(s0, call), call.batch, call.plan, call.at) && EmptyBatch(Begun(s0, call), call)
    ensures Begun(s0, call).jobs == s0.jobs && Begun(s0, call).tasks == s0.tasks
  {}

  lemma PausedFootprint(s0: State, s: State, call: Call)
    requires Footprint(s0, s, call.batch, call.plan, call.at) && EmptyBatch(s, call)
    ensures var r := PausePlan(s, call.plan, call.now);
      Footprint(s0, r, call.batch, call.plan, call.at) && EmptyBatch(r, call) && r.batches == s.batches
  {
    hide PausePlan;
    PausedRows(s, call.plan, call.now);
  }

  lemma TasksStay(before: State, s: State, call: Call, fates: map<string, Fate>, ids: map<string, string>)
    requires Filled(before, s, call, fates, ids)
    ensures forall t | t in s.tasks :: t in before.tasks || (s.tasks[t].batch == call.batch && fates != map[])
    ensures forall t | t in before.tasks ::
      t in s.tasks && s.tasks[t].batch == before.tasks[t].batch && s.tasks[t].deploy == before.tasks[t].deploy
  {
    hide Entered, Counted, OnlyTheirJobs;
    forall t | t in s.tasks && t !in before.tasks ensures s.tasks[t].batch == call.batch && fates != map[] {
      var d :| d in ids && ids[d] == t;
      EnteredRow(before, s, call, fates[d], d, t);
    }
  }

  lemma FilledFootprint(s0: State, before: State, s: State, call: Call, fates: map<string, Fate>, ids: map<string, string>)
    requires Footprint(s0, before, call.batch, call.plan, call.at) && Filled(before, s, call, fates, ids)
    ensures Footprint(s0, s, call.batch, call.plan, call.at) && s.batches.Keys == before.batches.Keys
  {
    hide Entered, OnlyTheirTasks, OnlyTheirJobs, Counted;
    assert s.plans == before.plans;
    TasksStay(before, s, call, fates, ids);
    if fates != map[] { SlotsStay(before, s, call); }
  }

  lemma SlotsStay(before: State, s: State, call: Call)
    requires Counted(before, s, call)
    ensures s.batches.Keys == before.batches.Keys
    ensures forall b | b in before.batches && b != call.batch :: s.batches[b] == before.batches[b]
    ensures call.batch in before.batches && s.batches[call.batch].plan == before.batches[call.batch].plan
      && s.batches[call.batch].scheduledAt == before.batches[call.batch].scheduledAt
  {
    hide Recounted;
  }

  lemma JobsLeaveNoTrace(s0: State, s: State, r: State, call: Call)
    requires Footprint(s0, s, call.batch, call.plan, call.at) && r == s.(jobs := r.jobs)
    ensures Footprint(s0, r, call.batch, call.plan, call.at)
  {}

  // ---------------------------------------------------------------- the program

  /** A statement that fails and a process that dies look alike to the tables: both are the `if *` branches, which a calm
      call does not take. */
  method RecordSkipped(store: Store, call: Call, deploy: string, code: string, calm: bool) returns (r: Outcome, ghost id: string)
    requires Seat(store.View(), call, deploy)
    modifies store
    ensures r == Done ==>
      Unused(old(store.View()), id) && store.View() == AddTask(old(store.View()), id, SkippedTask(call, deploy, id, code), call.now)
    ensures r != Done ==> store.View() == old(store.View())
    ensures r == Done || r == Rejected
    ensures calm ==> r == Done
  {
    UnusedExists(store.View());
    var task: string :| Unused(store.View(), task);
    id := task;
    if !calm { if * { return Rejected, id; } }
    SkipIsAdded(store.View(), call, deploy, task, code);
    r := store.InsertTask(task, SkippedTask(call, deploy, task, code), call.now);
  }

  /** died says that the process died in between or the record of the failure was lost; otherwise a job that was created
      and got no task has failed. */
  method EnqueueInstance(store: Store, call: Call, deploy: string, backupable: set<string>, calm: bool)
    returns (r: Outcome, ghost id: string, ghost job: string, ghost died: bool)
    requires Seat(store.View(), call, deploy)
    modifies store
    ensures r == Done ==>
      deploy in backupable && !Busy(old(store.View()).jobs, deploy)
      && Unused(old(store.View()), id) && Unused(old(store.View()), job)
      && store.View() == AddTask(CreateJob(old(store.View()), job, JobRow(call, deploy, id)), id, QueuedTask(call, deploy, job), call.now)
    ensures r == Conflict ==> deploy in backupable && Busy(old(store.View()).jobs, deploy) && store.View() == old(store.View())
    ensures r == Rejected ==>
      var made := CreateJob(old(store.View()), job, JobRow(call, deploy, id));
      store.View() == old(store.View()) || (died && store.View() == made) || store.View() == FailJob(made, job, "QUEUE_PERSIST_FAILED", call.now)
    ensures calm ==> !died && r == if deploy !in backupable then Rejected else if Busy(old(store.View()).jobs, deploy) then Conflict else Done
    ensures store.View() == old(store.View()).(jobs := store.View().jobs) || r == Done
    ensures r == Done || r == Conflict || r == Rejected
  {
    UnusedExists(store.View());
    var task: string :| Unused(store.View(), task);
    var j: string :| Unused(store.View(), j);
    id, job, died := task, j, false;
    if deploy !in backupable { return Rejected, id, job, died; }
    if !calm { if * { return Rejected, id, job, died; } }
    if !Busy(store.View().jobs, deploy) { EnqueueIsAdded(store.View(), call, deploy, task, j); }
    var begun := store.CreateBackupJob(j, JobRow(call, deploy, task));
    if begun == Conflict { return Conflict, id, job, died; }
    if begun != Done { return Rejected, id, job, died; }
    if !calm { if * { return Rejected, id, job, true; } }
    var stored := calm;
    if !calm { stored := *; }
    var added := Rejected;
    if stored { added := store.InsertTask(task, QueuedTask(call, deploy, j), call.now); }
    if added != Done {
      if * { return Rejected, id, job, true; }
      var failed := store.FailBackupJob(j, "QUEUE_PERSIST_FAILED", call.now);
      return Rejected, id, job, died;
    }
    return Done, id, job, died;
  }

  method PlanInstances(targets: seq<Target>, live: set<string>) returns (items: seq<string>)
    ensures items == Live(targets, live)
  {
    items := [];
    for i := 0 to |targets|
      invariant items == Live(targets[..i], live)
    {
      assert targets[..i + 1][..i] == targets[..i];
      if targets[i].deploy !in live { continue; }
      items := items + [targets[i].deploy];
    }
    assert targets[..|targets|] == targets;
  }

  /** Looks for the batch of an occurrence among the hundred newest ones only. */
  method ExistingBatch(store: Store, plan: string, at: int) returns (r: Outcome, b: string, ghost rows: seq<Listing.Key>)
    ensures Listing.Lists(rows, Paging.BatchKeys(store.batches))
    ensures r == Done ==> b in store.batches && store.batches[b].plan == plan && store.batches[b].scheduledAt == at
    ensures r == Done || r == Conflict
    ensures r == Conflict <==> forall i | 0 <= i < |rows| && i < 100 && rows[i].id in store.batches ::
      !(store.batches[rows[i].id].plan == plan && store.batches[rows[i].id].scheduledAt == at)
  {
    var all := Listing.Fetch(Paging.BatchKeys(store.batches));
    rows := all;
    var page := if |all| > 100 then all[..100] else all;
    for i := 0 to |page|
      invariant forall k | 0 <= k < i && all[k].id in store.batches ::
        !(store.batches[all[k].id].plan == plan && store.batches[all[k].id].scheduledAt == at)
    {
      assert all[i] in Paging.BatchKeys(store.batches);
      var id := page[i].id;
      if store.batches[id].plan == plan && store.batches[id].scheduledAt == at { return Done, id, rows; }
    }
    return Conflict, "", rows;
  }

  /** The loop that records every live target as skipped once the plan is paused. */
  method SkipAll(store: Store, call: Call, live: seq<string>, first: string, calm: bool)
    returns (r: Outcome, ghost fates: map<string, Fate>, ghost ids: map<string, string>)
    requires EmptyBatch(store.View(), call)
    requires (forall i, j | 0 <= i < j < |live| :: live[i] != live[j]) && forall i | 0 <= i < |live| :: live[i] != ""
    modifies store
    ensures Filled(old(store.View()), store.View(), call, fates, ids) && forall d | d in fates :: fates[d].Skip?
    ensures r == Done ==> forall d :: d in fates <==> d in live
    ensures r == Done ==> forall d | d in live :: fates[d] == Skip(if d == first then PATH_MISSING else SCOPE_INVALID)
    ensures r == Done || r == Rejected
    ensures calm ==> r == Done
  {
    hide Filled, EmptyBatch, Unused, Seat, AddTask;
    ghost var before := store.View();
    fates, ids := map[], map[];
    NothingFilled(before, call);
    for i := 0 to |live|
      invariant Filled(before, store.View(), call, fates, ids)
      invariant forall d :: d in fates <==> d in live[..i]
      invariant forall d | d in fates :: fates[d] == Skip(if d == first then PATH_MISSING else SCOPE_INVALID)
    {
      var d := live[i];
      assert d !in fates;
      SeatIsFree(before, store.View(), call, fates, ids, d);
      ghost var s := store.View();
      var code := if d == first then PATH_MISSING else SCOPE_INVALID;
      ghost var id;
      r, id := RecordSkipped(store, call, d, code, calm);
      if r != Done { return; }
      FillSkip(before, s, call, fates, ids, d, id, code);
      fates, ids := fates[d := Skip(code)], ids[d := id];
      assert live[..i + 1] == live[..i] + [d];
    }
    assert live[..|live|] == live;
    r := Done;
  }

  /** The loop that enqueues the live targets of a valid plan. */
  method EnqueueAll(store: Store, call: Call, live: seq<string>, backupable: set<string>, calm: bool)
    returns (r: Outcome, ghost fates: map<string, Fate>, ghost ids: map<string, string>)
    requires EmptyBatch(store.View(), call)
    requires (forall i, j | 0 <= i < j < |live| :: live[i] != live[j]) && forall i | 0 <= i < |live| :: live[i] != ""
    modifies store
    ensures exists s :: Filled(old(store.View()), s, call, fates, ids) && store.View() == s.(jobs := store.View().jobs)
    ensures r == Done ==> Filled(old(store.View()), store.View(), call, fates, ids)
    ensures r == Done ==> forall d :: d in fates <==> d in live
    ensures r == Done ==> forall d | d in live :: d in backupable && fates[d] == if Busy(old(store.View()).jobs, d) then Skip(ALREADY_QUEUED) else Enqueue
    ensures r == Done || r == Rejected
    ensures calm && (forall d | d in live :: d in backupable) ==> r == Done
  {
    hide Filled, EmptyBatch, Unused, Seat, AddTask, CreateJob, Busy;
    ghost var before := store.View();
    fates, ids := map[], map[];
    NothingFilled(before, call);
    for i := 0 to |live|
      invariant Filled(before, store.View(), call, fates, ids)
      invariant forall d :: d in fates <==> d in live[..i]
      invariant forall d | d in fates :: d in backupable && fates[d] == if Busy(before.jobs, d) then Skip(ALREADY_QUEUED) else Enqueue
    {
      var d := live[i];
      assert d !in fates;
      SeatIsFree(before, store.View(), call, fates, ids, d);
      BusyIsUnchanged(before, store.View(), call, fates, ids, d);
      ghost var s := store.View();
      ghost var id, job, died;
      var tried;
      tried, id, job, died := EnqueueInstance(store, call, d, backupable, calm);
      assert live[..i + 1] == live[..i] + [d];
      if tried == Conflict {
        tried, id := RecordSkipped(store, call, d, ALREADY_QUEUED, calm);
        if tried != Done { r := Rejected; return; }
        FillSkip(before, s, call, fates, ids, d, id, ALREADY_QUEUED);
        fates, ids := fates[d := Skip(ALREADY_QUEUED)], ids[d := id];
        continue;
      }
      if tried != Done { r := Rejected; return; }
      FillEnqueue(before, s, call, fates, ids, d, id, job);
      fates, ids := fates[d := Enqueue], ids[d := id];
    }
    assert live[..|live|] == live;
    r := Done;
  }

  datatype Ending = Found | AllEntered | PausedOn(index: nat) | Stopped

  /** Nothing outside stops the expansion: the first live target that is refused misses a path, or none is refused and all
      can be backed up. */
  predicate Runs(live: seq<string>, report: Report)
  {
    (exists i | 0 <= i < |live| :: StopsAt(live, report, i) && live[i] !in report.unreadable)
    || forall d | d in live :: d !in report.missing && d !in report.unreadable && d in report.backupable
  }

  lemma PausesRuns(live: seq<string>, report: Report, i: nat)
    requires StopsAt(live, report, i)
    ensures Runs(live, report) <==> live[i] !in report.unreadable
  {
    if k :| 0 <= k < |live| && StopsAt(live, report, k) && live[k] !in report.unreadable {
      assert k == i;
    }
    assert live[i] in live;
  }

  lemma NoneStopsRuns(live: seq<string>, report: Report)
    requires forall k | 0 <= k < |live| :: !Refused(report, live[k])
    ensures Runs(live, report) <==> forall d | d in live :: d in report.backupable
  {}

  /** Everything after the batch row is written. */
  method Expand(store: Store, call: Call, report: Report, calm: bool, ghost s0: State)
    returns (r: Outcome, ghost ending: Ending, ghost fates: map<string, Fate>, ghost ids: map<string, string>)
    requires CreatesBatch(s0, call.batch, BatchRow(call)) && store.View() == Begun(s0, call)
    requires ValidTargets(call.row.targets) && forall t | t in s0.tasks :: s0.tasks[t].batch in s0.batches
    modifies store
    ensures Footprint(s0, store.View(), call.batch, call.plan, call.at)
    ensures Scheduled(store.View().batches, call.plan, call.at)
    ensures if r == Done then ending.AllEntered? || ending.PausedOn? else r == Rejected && ending.Stopped?
    ensures ending.AllEntered? ==> Expanded(s0, store.View(), call, report, fates, ids)
    ensures ending.PausedOn? ==> PausedAt(s0, store.View(), call, report, ending.index, fates, ids)
    ensures (exists d | d in Live(call.row.targets, report.live) :: Refused(report, d)) ==> Halted(s0, store.View(), call.plan)
    ensures calm ==> (r == Done <==> Runs(Live(call.row.targets, report.live), report))
    ensures call.batch in store.batches && Begins(store.batches[call.batch], call)
  {
    hide Filled, EmptyBatch, Unused, Seat, AddTask, CreateJob, Busy, PausePlan, Footprint, Refused, CreatesBatch, Begun, Scheduled, Expanded, PausedAt, Halted, Off, Begins, BatchRow, Runs;
    fates, ids, ending := map[], map[], Stopped;
    ghost var begun := store.View();
    BegunFootprint(s0, call);
    BegunScheduled(s0, call);
    NothingHalts(s0, call);
    BatchBegins(call);
    if !calm { if * { r := Rejected; return; } }
    var live := PlanInstances(call.row.targets, report.live);
    LiveTargets(call.row.targets, report.live);
    LiveNamed(call.row.targets, report.live);
    for i := 0 to |live|
      invariant store.View() == begun
      invariant forall k | 0 <= k < i :: !Refused(report, live[k])
    {
      RefusedMeans(report, live[i]);
      if Refused(report, live[i]) { PausesRuns(live, report, i); }
      if live[i] in report.unreadable { r := Rejected; return; }
      if live[i] in report.missing {
        if !calm { if * { r := Rejected; return; } }
        store.PausePlanForScope(call.plan, call.now);
        ghost var paused := store.View();
        PausedFootprint(s0, begun, call);
        r, fates, ids := SkipAll(store, call, live, live[i], calm);
        FilledFootprint(s0, paused, store.View(), call, fates, ids);
        SkippingHalts(s0, store.View(), call, fates, ids);
        HaltedByOff(s0, store.View(), call.plan);
        FilledBegins(paused, store.View(), call, fates, ids);
        ScheduledStays(s0, store.View(), call);
        if r == Done {
          ending := PausedOn(i);
          PausedEnding(s0, store.View(), call, report, i, fates, ids);
        }
        return;
      }
    }
    NoneStopsRuns(live, report);
    r, fates, ids := EnqueueAll(store, call, live, report.backupable, calm);
    ghost var s :| Filled(begun, s, call, fates, ids) && store.View() == s.(jobs := store.View().jobs);
    FilledFootprint(s0, begun, s, call, fates, ids);
    FilledBegins(begun, s, call, fates, ids);
    JobsLeaveNoTrace(s0, s, store.View(), call);
    ScheduledStays(s0, store.View(), call);
    if r == Done {
      ending := AllEntered;
      ExpandedEnding(s0, store.View(), call, report, fates, ids);
    }
  }

  lemma BatchBegins(call: Call)
    ensures Begins(BatchRow(call), call)
  {}

  lemma HaltedByOff(s0: State, s: State, plan: string)
    requires s.jobs.Keys == s0.jobs.Keys && Off(s0, s, plan)
    ensures Halted(s0, s, plan)
  {
    hide Off;
  }

  lemma PausedEnding(s0: State, s: State, call: Call, report: Report, i: nat, fates: map<string, Fate>, ids: map<string, string>)
    requires CreatesBatch(s0, call.batch, BatchRow(call))
    requires Filled(PausePlan(Begun(s0, call), call.plan, call.now), s, call, fates, ids)
    requires EmptyBatch(PausePlan(Begun(s0, call), call.plan, call.now), call)
    requires var live := Live(call.row.targets, report.live);
      i < |live| && Refused(report, live[i]) && (forall k | 0 <= k < i :: !Refused(report, live[k])) && live[i] in report.missing
      && (forall d :: d in fates <==> d in live)
      && forall d | d in live :: fates[d] == Skip(if d == live[i] then PATH_MISSING else SCOPE_INVALID)
    ensures PausedAt(s0, s, call, report, i, fates, ids)
  {
    hide Filled, EmptyBatch, PausePlan, CreatesBatch, Begun, Refused;
  }

  lemma ExpandedEnding(s0: State, s: State, call: Call, report: Report, fates: map<string, Fate>, ids: map<string, string>)
    requires CreatesBatch(s0, call.batch, BatchRow(call))
    requires Filled(Begun(s0, call), s, call, fates, ids) && EmptyBatch(Begun(s0, call), call)
    requires var live := Live(call.row.targets, report.live);
      (forall i | 0 <= i < |live| :: !Refused(report, live[i])) && (forall d :: d in fates <==> d in live)
      && forall d | d in live :: d in report.backupable && fates[d] == if Busy(s0.jobs, d) then Skip(ALREADY_QUEUED) else Enqueue
    ensures Expanded(s0, s, call, report, fates, ids)
  {
    hide Filled, EmptyBatch, CreatesBatch, Begun, Refused, Busy;
  }

  lemma LiveNamed(targets: seq<Target>, live: set<string>)
    requires ValidTargets(targets)
    ensures var r := Live(targets, live); forall i | 0 <= i < |r| :: r[i] != ""
  {
    LiveTargets(targets, live);
    var r := Live(targets, live);
    assert forall i | 0 <= i < |r| :: r[i] in r;
  }

  lemma RefusedMeans(report: Report, d: string)
    ensures Refused(report, d) <==> d in report.missing || d in report.unreadable
  {}

  /** Ids, clocks and the state of the targets come from outside; the steps between are the program's. */
  method RunPlan(store: Store, plan: string, row: Plan, trigger: string, at: int, now: int, report: Report, calm: bool)
    returns (r: Outcome, b: string, ghost ending: Ending, ghost fates: map<string, Fate>, ghost ids: map<string, string>, ghost drawn: string)
    requires plan != "" && ValidTargets(row.targets) && forall t | t in store.tasks :: store.tasks[t].batch in store.batches
    modifies store
    ensures drawn !in old(store.View()).batches && Footprint(old(store.View()), store.View(), drawn, plan, at)
    ensures r == Done || r == Conflict ==> Scheduled(store.View().batches, plan, at)
    ensures ending.Found? <==> r == Conflict || (r == Done && Scheduled(old(store.View()).batches, plan, at))
    ensures ending.Found? ==> store.View() == old(store.View())
    ensures r == Done && ending.Found? ==>
      b in store.batches && store.batches[b].plan == plan && store.batches[b].scheduledAt == at
    ensures r == Done && !ending.Found? ==> b == drawn && (ending.AllEntered? || ending.PausedOn?)
    ensures ending.AllEntered? ==> Expanded(old(store.View()), store.View(), Call(drawn, plan, row, trigger, at, now), report, fates, ids)
    ensures ending.PausedOn? ==>
      PausedAt(old(store.View()), store.View(), Call(drawn, plan, row, trigger, at, now), report, ending.index, fates, ids)
    ensures (exists d | d in Live(row.targets, report.live) :: Refused(report, d)) ==> Halted(old(store.View()), store.View(), plan)
    ensures drawn in store.batches ==> Begins(store.batches[drawn], Call(drawn, plan, row, trigger, at, now))
    ensures calm && trigger != "" && !Scheduled(old(store.View()).batches, plan, at) ==>
      (r == Done <==> Runs(Live(row.targets, report.live), report))
    ensures calm && trigger != "" && Scheduled(old(store.View()).batches, plan, at) ==> ending.Found?
  {
    hide Unused, Footprint, Expanded, PausedAt, Scheduled, Halted, Begins, Refused, Live, Runs;
    ghost var s0 := store.View();
    fates, ids, b, ending := map[], map[], "", Stopped;
    UnusedExists(store.View());
    var id: string :| Unused(store.View(), id);
    var call := Call(id, plan, row, trigger, at, now);
    drawn := id;
    UnusedBatch(s0, id);
    Untouched(s0, id, plan, at);
    NothingHalts(s0, call);
    if !calm { if * { r := Rejected; return; } }
    r := store.InsertBatch(id, BatchRow(call));
    if r == Conflict {
      ending := Found;
      ghost var rows;
      r, b, rows := ExistingBatch(store, plan, at);
      return;
    }
    if r != Done { r := Rejected; return; }
    r, ending, fates, ids := Expand(store, call, report, calm, s0);
    b := id;
  }

  lemma UnusedBatch(s: State, id: string)
    requires Unused(s, id)
    ensures id != "" && id !in s.batches
  {}

  lemma BegunScheduled(s0: State, call: Call)
    requires CreatesBatch(s0, call.batch, BatchRow(call))
    ensures call.batch !in s0.batches && call.batch in Begun(s0, call).batches && Begun(s0, call).batches[call.batch] == BatchRow(call)
    ensures Scheduled(Begun(s0, call).batches, call.plan, call.at)
  {
    assert Begun(s0, call).batches[call.batch].plan == call.plan;
  }

  lemma ScheduledStays(s0: State, s: State, call: Call)
    requires Footprint(s0, s, call.batch, call.plan, call.at) && call.batch !in s0.batches && call.batch in s.batches
    ensures Scheduled(s.batches, call.plan, call.at)
  {
    hide Scheduled;
    assert s.batches[call.batch].plan == call.plan && s.batches[call.batch].scheduledAt == call.at;
    SlotTaken(s.batches, call.batch);
  }

  lemma SlotTaken(batches: map<string, Batch>, b: string)
    requires b in batches
    ensures Scheduled(batches, batches[b].plan, batches[b].scheduledAt)
  {}
}
