/** The scheduler: turning the occurrences of a plan into batches, one batch each, whatever goes wrong between. */
module Scheduling {
  import opened Tables
  import opened QueueSpec
  import opened QueueStore
  import opened PlanRuns
  import Listing

  const NANO := 1_000_000_000
  const MINUTE := 60 * NANO
  const MAX_STEPS := 128

  /** When plans are due: occurs(p, t) says t is an occurrence of p, next(p, t) is the first one after t. */
  datatype Timetable = Timetable(occurs: (string, int) -> bool, next: (string, int) -> Option<int>)

  ghost predicate Follows(c: Timetable)
  {
    forall p, t {:trigger c.next(p, t)} ::
      match c.next(p, t)
      case Some(v) => t < v && c.occurs(p, v) && forall u | t < u < v :: !c.occurs(p, u)
      case None => forall u | t < u :: !c.occurs(p, u)
  }

  /** The cursor after k more occurrences. */
  function Nth(c: Timetable, p: string, cursor: Option<int>, k: nat): Option<int>
  {
    if k == 0 then cursor
    else match Nth(c, p, cursor, k - 1)
      case None => None
      case Some(t) => c.next(p, t)
  }

  /** An occurrence the scheduler records as skipped; now has nanosecond precision, stored times are seconds. */
  predicate TooLate(row: Plan, at: int, now: int)
  {
    var delay := now - at * NANO;
    (!row.catchUp && delay > MINUTE) || delay > row.maxCatchUp * NANO
  }

  lemma LatenessShrinks(row: Plan, a: int, b: int, now: int)
    requires a <= b && TooLate(row, b, now)
    ensures TooLate(row, a, now)
  {
    assert a * NANO <= b * NANO;
  }

  /** No two batches share a plan and a time. */
  ghost predicate UniqueSlots(batches: map<string, Batch>)
  {
    forall a, b | a in batches && b in batches && batches[a].plan != "" && batches[a].plan == batches[b].plan
                  && batches[a].scheduledAt == batches[b].scheduledAt :: a == b
  }

  /** Every occurrence from start up to the stored cursor has its batch. */
  ghost predicate Covered(s: State, c: Timetable, p: string, start: int)
  {
    p in s.plans && var cursor := s.plans[p].nextRunAt;
      cursor.Some? ==> forall t | start <= t < cursor.value && c.occurs(p, t) :: Scheduled(s.batches, p, t)
  }

  ghost predicate Sound(s: State)
  {
    UniqueSlots(s.batches) && "" !in s.plans && (forall p | p in s.plans :: ValidTargets(s.plans[p].targets))
    && forall t | t in s.tasks :: s.tasks[t].batch in s.batches
  }

  predicate Due(row: Plan, now: int)
  {
    row.enabled && row.nextRunAt.Some? && row.nextRunAt.value <= now / NANO
  }

  /** How a call that reports success leaves a due plan: paused, or moved to an occurrence that is not due,
      or moved by the most occurrences one call handles. */
  ghost predicate Settled(c: Timetable, p: string, before: Plan, after: Plan, now: int)
  {
    (!after.enabled && after.paused && after.nextRunAt == None)
    || exists k: nat | k <= 128 :: after.nextRunAt == Nth(c, p, before.nextRunAt, k)
         && (k == 128 || after.nextRunAt.None? || after.nextRunAt.value * 1_000_000_000 > now)
  }

  /** The row a late occurrence gets. */
  function SkippedBatch(p: string, at: int, now: int): Batch
  {
    NewBatch(p, "scheduled", Skipped, at, now / NANO, Some(now / NANO))
  }

  function CallFor(b: string, p: string, at: int, row: Plan, now: int): Call
  {
    Call(b, p, row, "scheduled", at, now / NANO)
  }

  /** A batch of an occurrence that was only recorded. */
  predicate Recorded(batch: Batch, now: int)
  {
    batch == SkippedBatch(batch.plan, batch.scheduledAt, now)
  }

  /** What a call made of one occurrence: a late one is recorded without a task, and any other is run: its batch was
      written by an expansion, which gave every live target its task unless the call stopped in this very batch. */
  ghost predicate Handled(s: State, b: string, row: Plan, reports: (string, int) -> Report, now: int, stopped: Option<string>)
  {
    b in s.batches
    && var p, at := s.batches[b].plan, s.batches[b].scheduledAt;
       if TooLate(row, at, now) then Recorded(s.batches[b], now) && forall t | t in s.tasks :: s.tasks[t].batch != b
       else Begins(s.batches[b], CallFor(b, p, at, row, now))
            && (stopped != Some(b) ==> OneTaskEach(s.tasks, b, Live(row.targets, reports(p, at).live)))
  }

  /** The occurrence was recorded as skipped, and nothing else. */
  ghost predicate RecordedOnly(s: State, b: string, now: int)
  {
    b in s.batches && Recorded(s.batches[b], now) && forall t | t in s.tasks :: s.tasks[t].batch != b
  }

  /** The occurrence was run. */
  ghost predicate Ran(s: State, b: string, row: Plan, reports: (string, int) -> Report, now: int, stopped: Option<string>)
  {
    b in s.batches && !Recorded(s.batches[b], now)
    && var p, at := s.batches[b].plan, s.batches[b].scheduledAt;
       Begins(s.batches[b], CallFor(b, p, at, row, now))
       && (stopped != Some(b) ==> OneTaskEach(s.tasks, b, Live(row.targets, reports(p, at).live)))
  }

  /** The catch-up rule: an occurrence later than the plan's window is recorded, and so is one a minute late of a plan
      that does not catch up; every other is run. */
  ghost predicate ByTheRule(s: State, b: string, row: Plan, reports: (string, int) -> Report, now: int, stopped: Option<string>)
  {
    b in s.batches
    && var delay := now - s.batches[b].scheduledAt * 1_000_000_000;
       (delay > row.maxCatchUp * 1_000_000_000 ==> RecordedOnly(s, b, now))
       && (!row.catchUp && delay > 60_000_000_000 ==> RecordedOnly(s, b, now))
       && (row.catchUp && delay <= row.maxCatchUp * 1_000_000_000 ==> Ran(s, b, row, reports, now, stopped))
       && (delay <= 60_000_000_000 && delay <= row.maxCatchUp * 1_000_000_000 ==> Ran(s, b, row, reports, now, stopped))
  }

  lemma HandledByTheRule(s: State, b: string, row: Plan, reports: (string, int) -> Report, now: int, stopped: Option<string>)
    requires Handled(s, b, row, reports, now, stopped)
    ensures ByTheRule(s, b, row, reports, now, stopped)
  {
    RecordedExactly(s, b, row, reports, now, stopped);
    hide OneTaskEach, Live, Begins, Recorded;
  }

  /** Batch rows stay, tasks stay in their batches, and no task joins an old batch. */
  ghost predicate Extends(before: State, after: State)
  {
    (forall b | b in before.batches :: b in after.batches && after.batches[b] == before.batches[b])
    && (forall t | t in before.tasks ::
          t in after.tasks && after.tasks[t].batch == before.tasks[t].batch && after.tasks[t].deploy == before.tasks[t].deploy)
    && forall t | t in after.tasks :: t in before.tasks || after.tasks[t].batch !in before.batches
  }

  /** Every occurrence of the plan from a covered start up to this one has its batch, also when a pause has cleared the cursor. */
  ghost predicate NoGap(before: State, after: State, c: Timetable, p: string, at: int)
  {
    forall start, t | Covered(before, c, p, start) && start <= t <= at && c.occurs(p, t) :: Scheduled(after.batches, p, t)
  }

  /** A batch that a call added: for an occurrence of its plan that the call reached and that had none. */
  ghost predicate NewBatchOk(before: State, after: State, b: string, c: Timetable, row: Plan, reports: (string, int) -> Report,
                             now: int, stopped: Option<string>)
    requires b in after.batches
  {
    var p, at := after.batches[b].plan, after.batches[b].scheduledAt;
    !Scheduled(before.batches, p, at) && (exists k: nat :: Nth(c, p, row.nextRunAt, k) == Some(at))
    && Handled(after, b, row, reports, now, stopped) && NoGap(before, after, c, p, at)
  }

  ghost predicate NewBatches(before: State, after: State, c: Timetable, p: string, row: Plan, reports: (string, int) -> Report,
                             now: int, stopped: Option<string>)
  {
    Extends(before, after)
    && forall b | b in after.batches && b !in before.batches ::
         after.batches[b].plan == p && NewBatchOk(before, after, b, c, row, reports, now, stopped)
  }

  /** The two ways of handling an occurrence leave different rows. */
  lemma RecordedExactly(s: State, b: string, row: Plan, reports: (string, int) -> Report, now: int, stopped: Option<string>)
    requires Handled(s, b, row, reports, now, stopped)
    ensures b in s.batches && (Recorded(s.batches[b], now) <==> TooLate(row, s.batches[b].scheduledAt, now))
  {
    hide TooLate, OneTaskEach, Live;
  }

  /** Of two batches a call made for one plan, one recorded and one run, the recorded one is for the earlier time. */
  lemma RecordedComesFirst(s: State, a: string, b: string, row: Plan, reports: (string, int) -> Report, now: int, stopped: Option<string>)
    requires Handled(s, a, row, reports, now, stopped) && Handled(s, b, row, reports, now, stopped)
    requires Recorded(s.batches[a], now) && !Recorded(s.batches[b], now)
    ensures s.batches[a].scheduledAt < s.batches[b].scheduledAt
  {
    hide Handled, TooLate, Recorded;
    RecordedExactly(s, a, row, reports, now, stopped);
    RecordedExactly(s, b, row, reports, now, stopped);
    if s.batches[a].scheduledAt >= s.batches[b].scheduledAt {
      LatenessShrinks(row, s.batches[b].scheduledAt, s.batches[a].scheduledAt, now);
    }
  }

  /** What handling an occurrence looks at in a plan row. */
  predicate SameRules(a: Plan, b: Plan)
  {
    a.catchUp == b.catchUp && a.maxCatchUp == b.maxCatchUp && a.targets == b.targets
  }

  ghost predicate OthersStay(before: State, after: State, p: string)
  {
    after.plans.Keys == before.plans.Keys && (forall q | q in before.plans && q != p :: after.plans[q] == before.plans[q])
    && p in before.plans && SameRules(before.plans[p], after.plans[p])
  }

  method RecordSkippedBatch(store: Store, p: string, at: int, now: int, calm: bool) returns (r: Outcome, ghost b: string)
    requires p != ""
    modifies store
    ensures b !in old(store.View()).batches && b != ""
    ensures r == Done || r == Conflict ==> Scheduled(store.View().batches, p, at)
    ensures store.View() == if r == Done && !Scheduled(old(store.View()).batches, p, at)
      then old(store.View()).(batches := old(store.View()).batches[b := NewBatch(p, "scheduled", Skipped, at, now, Some(now))])
      else old(store.View())
    ensures r == Done ==> !Scheduled(old(store.View()).batches, p, at)
    ensures calm ==> r == Done || r == Conflict
  {
    UnusedExists(store.View());
    var id: string :| Unused(store.View(), id);
    b := id;
    if !calm { if * { r := Rejected; return; } }
    r := store.InsertBatch(id, NewBatch(p, "scheduled", Skipped, at, now, Some(now)));
    if r == Done { SlotTaken(store.View().batches, id); }
  }

  // ---------------------------------------------------------------- one occurrence

  lemma SoundStays(s: State, r: State, b: string, p: string, at: int)
    requires Sound(s) && Footprint(s, r, b, p, at) && b !in s.batches && p != ""
    ensures Sound(r)
  {
    forall x, y | x in r.batches && y in r.batches && r.batches[x].plan != "" && r.batches[x].plan == r.batches[y].plan
                  && r.batches[x].scheduledAt == r.batches[y].scheduledAt
      ensures x == y
    {
      if x == b && y != b { SlotTaken(s.batches, y); }
      if y == b && x != b { SlotTaken(s.batches, x); }
    }
    forall t | t in r.tasks ensures r.tasks[t].batch in r.batches {}
  }

  lemma SlotsGrow(s: State, r: State, b: string, p: string, at: int, q: string, t: int)
    requires Footprint(s, r, b, p, at) && b !in s.batches && Scheduled(s.batches, q, t)
    ensures Scheduled(r.batches, q, t)
  {
    var x :| x in s.batches && s.batches[x].plan == q && s.batches[x].scheduledAt == t;
    assert r.batches[x] == s.batches[x];
  }

  lemma CoveredStays(s: State, r: State, c: Timetable, b: string, p: string, at: int)
    requires Footprint(s, r, b, p, at) && b !in s.batches
    ensures forall start | Covered(s, c, p, start) :: Covered(r, c, p, start)
  {
    hide Scheduled;
    forall start | Covered(s, c, p, start) ensures Covered(r, c, p, start) {
      assert r.plans[p].nextRunAt.Some? ==> r.plans[p].nextRunAt == s.plans[p].nextRunAt;
      if r.plans[p].nextRunAt.Some? {
        forall t | start <= t < r.plans[p].nextRunAt.value && c.occurs(p, t) ensures Scheduled(r.batches, p, t) {
          SlotsGrow(s, r, b, p, at, p, t);
        }
      }
    }
  }

  lemma AdvanceCovers(s: State, c: Timetable, p: string, at: int)
    requires Follows(c) && p in s.plans && s.plans[p].nextRunAt == Some(at) && Scheduled(s.batches, p, at)
    ensures forall start | Covered(s, c, p, start) :: Covered(AdvancePlan(s, p, at, c.next(p, at)), c, p, start)
  {
    hide Scheduled;
    var r := AdvancePlan(s, p, at, c.next(p, at));
    forall start | Covered(s, c, p, start) ensures Covered(r, c, p, start) {
      if c.next(p, at).Some? {
        forall t | start <= t < c.next(p, at).value && c.occurs(p, t) ensures Scheduled(r.batches, p, t) {
          assert t <= at;
        }
      }
    }
  }

  lemma SameRows(before: State, s: State, r: State, c: Timetable, p: string, row: Plan, reports: (string, int) -> Report, now: int, stopped: Option<string>)
    requires NewBatches(before, s, c, p, row, reports, now, stopped) && r.batches == s.batches && r.tasks == s.tasks
    ensures NewBatches(before, r, c, p, row, reports, now, stopped)
  {
    hide TooLate, Nth, Scheduled, Recorded, Begins, OneTaskEach, Live, Covered;
  }

  lemma AdvanceKeeps(s0: State, s: State, c: Timetable, p: string, at: int, row: Plan, reports: (string, int) -> Report, now: int)
    requires Sound(s) && OthersStay(s0, s, p) && NewBatches(s0, s, c, p, row, reports, now, None)
    ensures var r := AdvancePlan(s, p, at, c.next(p, at));
      Sound(r) && OthersStay(s0, r, p) && NewBatches(s0, r, c, p, row, reports, now, None)
  {
    hide UniqueSlots, ValidTargets, NewBatches;
    SameRows(s0, s, AdvancePlan(s, p, at, c.next(p, at)), c, p, row, reports, now, None);
  }

  lemma FootprintExtends(s: State, r: State, b: string, p: string, at: int)
    requires Footprint(s, r, b, p, at) && b !in s.batches
    ensures Extends(s, r)
  {
    hide Scheduled;
  }

  lemma ExtendsTransitive(a: State, b: State, c: State)
    requires Extends(a, b) && Extends(b, c)
    ensures Extends(a, c)
  {}

  /** What a call made of an occurrence stays, whatever happens next; stopping somewhere else takes nothing back. */
  lemma HandledStays(s: State, r: State, b: string, row: Plan, reports: (string, int) -> Report, now: int,
                     was: Option<string>, stopped: Option<string>)
    requires Handled(s, b, row, reports, now, was) && Extends(s, r) && (was == None || was == stopped)
    ensures Handled(r, b, row, reports, now, stopped)
  {
    hide TooLate, Recorded, Begins, Live;
    var p, at := s.batches[b].plan, s.batches[b].scheduledAt;
    if !TooLate(row, at, now) && stopped != Some(b) { OneEachStays(s, r, b, Live(row.targets, reports(p, at).live)); }
  }

  lemma NoGapStays(before: State, s: State, r: State, c: Timetable, p: string, at: int)
    requires NoGap(before, s, c, p, at) && Extends(s, r)
    ensures NoGap(before, r, c, p, at)
  {
    hide Covered, Scheduled;
    forall start, t | Covered(before, c, p, start) && start <= t <= at && c.occurs(p, t) ensures Scheduled(r.batches, p, t) {
      ScheduledSince(s, r, p, t);
    }
  }

  /** A state before that was covered no less. */
  lemma NoGapFrom(s0: State, s: State, r: State, c: Timetable, p: string, at: int)
    requires NoGap(s, r, c, p, at) && forall start | Covered(s0, c, p, start) :: Covered(s, c, p, start)
    ensures NoGap(s0, r, c, p, at)
  {
    hide Covered, Scheduled;
  }

  /** The occurrence at the cursor closes the row of batches. */
  lemma CursorLeavesNoGap(s0: State, s: State, r: State, c: Timetable, b: string, p: string, at: int)
    requires forall start | Covered(s0, c, p, start) :: Covered(s, c, p, start)
    requires p in s.plans && s.plans[p].nextRunAt == Some(at) && Extends(s, r)
    requires b in r.batches && r.batches[b].plan == p && r.batches[b].scheduledAt == at
    ensures NoGap(s0, r, c, p, at)
  {
    hide Extends;
    forall start, t | Covered(s0, c, p, start) && start <= t <= at && c.occurs(p, t) ensures Scheduled(r.batches, p, t) {
      assert Covered(s, c, p, start);
      if t < at { ScheduledSince(s, r, p, t); }
    }
  }

  lemma OneEachStays(s: State, r: State, b: string, live: seq<string>)
    requires OneTaskEach(s.tasks, b, live) && Extends(s, r) && b in s.batches
    ensures OneTaskEach(r.tasks, b, live)
  {
    forall d | d in live ensures exists t | t in r.tasks :: r.tasks[t].batch == b && r.tasks[t].deploy == d {
      var t :| t in s.tasks && s.tasks[t].batch == b && s.tasks[t].deploy == d;
      assert t in r.tasks;
    }
  }

  lemma OthersStayOn(s0: State, s: State, r: State, b: string, p: string, at: int)
    requires OthersStay(s0, s, p) && Footprint(s, r, b, p, at)
    ensures OthersStay(s0, r, p)
  {}

  lemma NewBatchesGrow(s0: State, s: State, r: State, c: Timetable, b: string, p: string, at: int, row: Plan,
                       reports: (string, int) -> Report, now: int, k: nat, stopped: Option<string>)
    requires NewBatches(s0, s, c, p, row, reports, now, None) && Footprint(s, r, b, p, at) && b !in s.batches && p != ""
    requires Nth(c, p, row.nextRunAt, k) == Some(at)
    requires b in r.batches ==> Handled(r, b, row, reports, now, stopped) && NoGap(s0, r, c, p, at)
    ensures NewBatches(s0, r, c, p, row, reports, now, stopped)
  {
    FootprintExtends(s, r, b, p, at);
    ExtendsTransitive(s0, s, r);
    hide Nth, TooLate, Scheduled, Handled, NoGap;
    if Scheduled(s0.batches, p, at) { ScheduledSince(s0, s, p, at); }
    forall x | x in r.batches && x !in s0.batches
      ensures r.batches[x].plan == p && NewBatchOk(s0, r, x, c, row, reports, now, stopped)
    {
      if x != b {
        assert x in s.batches && r.batches[x] == s.batches[x];
        HandledStays(s, r, x, row, reports, now, None, stopped);
        NoGapStays(s0, s, r, c, p, r.batches[x].scheduledAt);
      }
    }
  }

  lemma ScheduledSince(s0: State, s: State, p: string, at: int)
    requires Extends(s0, s) && Scheduled(s0.batches, p, at)
    ensures Scheduled(s.batches, p, at)
  {
    var x :| x in s0.batches && s0.batches[x].plan == p && s0.batches[x].scheduledAt == at;
    assert s.batches[x] == s0.batches[x];
  }

  lemma SkippedFootprint(s: State, b: string, p: string, at: int, row: Plan, reports: (string, int) -> Report, now: int)
    requires b !in s.batches && !Scheduled(s.batches, p, at) && forall t | t in s.tasks :: s.tasks[t].batch in s.batches
    ensures var r := s.(batches := s.batches[b := SkippedBatch(p, at, now)]);
      Footprint(s, r, b, p, at) && (TooLate(row, at, now) ==> Handled(r, b, row, reports, now, None))
  {
    hide Scheduled, TooLate;
  }

  /** A run that was not refused handled its occurrence, in full if it reported success. */
  lemma RunHandles(s0: State, s: State, call: Call, ending: Ending, fates: map<string, Fate>, ids: map<string, string>,
                   row: Plan, reports: (string, int) -> Report, now: int, stopped: Option<string>)
    requires call == CallFor(call.batch, call.plan, call.at, row, now) && !TooLate(row, call.at, now)
    requires call.batch in s.batches && Begins(s.batches[call.batch], call)
    requires stopped != Some(call.batch) ==> ending.AllEntered? || ending.PausedOn?
    requires ending.AllEntered? ==> Expanded(s0, s, call, reports(call.plan, call.at), fates, ids)
    requires ending.PausedOn? ==> PausedAt(s0, s, call, reports(call.plan, call.at), ending.index, fates, ids)
    ensures Handled(s, call.batch, row, reports, now, stopped)
  {
    hide Expanded, PausedAt, OneTaskEach, TooLate, Live;
    if ending.AllEntered? { ExpandedIsOneEach(s0, s, call, reports(call.plan, call.at), fates, ids); }
    if ending.PausedOn? { PausedIsOneEach(s0, s, call, reports(call.plan, call.at), ending.index, fates, ids); }
  }

  /** Records a late occurrence or runs a timely one; paused says the run paused the plan. */
  method Consume(store: Store, p: string, row: Plan, at: int, reports: (string, int) -> Report, now: int, calm: bool)
    returns (r: Outcome, paused: bool, ghost b: string)
    requires p in store.plans && store.plans[p] == row && row.enabled && p != ""
    requires ValidTargets(row.targets) && forall t | t in store.tasks :: store.tasks[t].batch in store.batches
    modifies store
    ensures b !in old(store.View()).batches && Footprint(old(store.View()), store.View(), b, p, at)
    ensures r == Done ==> Scheduled(store.View().batches, p, at)
    ensures p in store.plans
    ensures r == Done ==> if paused then !store.plans[p].enabled && store.plans[p].paused && store.plans[p].nextRunAt == None
                          else store.plans[p] == row
    ensures b in store.batches ==> Handled(store.View(), b, row, reports, now, if r == Done then None else Some(b))
    ensures calm && Runs(Live(row.targets, reports(p, at).live), reports(p, at)) ==> r == Done
  {
    hide Runs, Live, Scheduled, Handled, Footprint, Begins, Expanded, PausedAt;
    paused := false;
    ghost var s := store.View();
    if TooLate(row, at, now) {
      r, b := RecordSkippedBatch(store, p, at, now / NANO, calm);
      Untouched(s, b, p, at);
      if r == Done { SkippedFootprint(s, b, p, at, row, reports, now); }
      if r == Conflict { r := Done; }
    } else {
      ghost var ending, fates, ids;
      var batch;
      r, batch, ending, fates, ids, b := RunPlan(store, p, row, "scheduled", at, now / NANO, reports(p, at), calm);
      PlanAfter(s, store.View(), b, p, at);
      ghost var ran := r;
      if r == Done || r == Conflict {
        var read := calm;
        if !calm { read := *; }
        if read {
          var latest := store.plans[p];
          r, paused := Done, !latest.enabled && latest.paused;
        } else {
          r := Rejected;
        }
      }
      if b in store.batches {
        RunHandles(s, store.View(), CallFor(b, p, at, row, now), ending, fates, ids, row, reports, now, if r == Done then None else Some(b));
      }
    }
  }

  lemma PlanAfter(s: State, r: State, b: string, p: string, at: int)
    requires Footprint(s, r, b, p, at) && p in s.plans
    ensures p in r.plans && (r.plans[p] == s.plans[p] || r.plans[p] == s.plans[p].(enabled := false, nextRunAt := None, paused := true))
  {}

  /** What holds of a call wherever it stops; stopped names the batch it was in the middle of. */
  ghost predicate Kept(s0: State, s: State, c: Timetable, p: string, reports: (string, int) -> Report, now: int, stopped: Option<string>)
  {
    Sound(s) && OthersStay(s0, s, p) && NewBatches(s0, s, c, p, s0.plans[p], reports, now, stopped)
    && forall start | Covered(s0, c, p, start) :: Covered(s, c, p, start)
  }

  ghost predicate Walked(s0: State, s: State, c: Timetable, p: string, row: Plan, steps: nat, reports: (string, int) -> Report, now: int)
  {
    Kept(s0, s, c, p, reports, now, None)
    && p in s.plans && s.plans[p] == row && row == s0.plans[p].(lastScheduledAt := row.lastScheduledAt, nextRunAt := row.nextRunAt)
    && row.nextRunAt == Nth(c, p, s0.plans[p].nextRunAt, steps)
  }

  lemma ConsumedKeeps(s0: State, s: State, r: State, c: Timetable, p: string, row: Plan, steps: nat, reports: (string, int) -> Report,
                      now: int, b: string, at: int, stopped: Option<string>)
    requires Walked(s0, s, c, p, row, steps, reports, now) && row.nextRunAt == Some(at)
    requires Footprint(s, r, b, p, at) && b !in s.batches
    requires b in r.batches ==> Handled(r, b, row, reports, now, stopped)
    ensures Kept(s0, r, c, p, reports, now, stopped)
  {
    hide Covered, NewBatches, UniqueSlots, Footprint, Nth, Handled, NoGap;
    SoundStays(s, r, b, p, at);
    CoveredStays(s, r, c, b, p, at);
    OthersStayOn(s0, s, r, b, p, at);
    if b in r.batches {
      SameHandling(r, b, s0.plans[p], row, reports, now, stopped);
      FootprintExtends(s, r, b, p, at);
      NewRowOf(s, r, b, p, at);
      CursorLeavesNoGap(s0, s, r, c, b, p, at);
    }
    NewBatchesGrow(s0, s, r, c, b, p, at, s0.plans[p], reports, now, steps, stopped);
  }

  lemma NewRowOf(s: State, r: State, b: string, p: string, at: int)
    requires Footprint(s, r, b, p, at) && b in r.batches && b !in s.batches
    ensures r.batches[b].plan == p && r.batches[b].scheduledAt == at
  {}

  /** Handling looks at the catch-up rule and the targets of a plan row only. */
  lemma SameHandling(s: State, b: string, a: Plan, row: Plan, reports: (string, int) -> Report, now: int, stopped: Option<string>)
    requires SameRules(a, row)
    requires Handled(s, b, row, reports, now, stopped)
    ensures Handled(s, b, a, reports, now, stopped)
  {
    SameLateness(a, row, s.batches[b].scheduledAt, now);
    hide TooLate, OneTaskEach, Live;
  }

  lemma SameLateness(a: Plan, b: Plan, at: int, now: int)
    requires a.catchUp == b.catchUp && a.maxCatchUp == b.maxCatchUp
    ensures TooLate(a, at, now) <==> TooLate(b, at, now)
  {}

  lemma AdvanceWalks(s0: State, s: State, c: Timetable, p: string, row: Plan, steps: nat, reports: (string, int) -> Report, now: int, at: int)
    requires Follows(c) && Kept(s0, s, c, p, reports, now, None) && Scheduled(s.batches, p, at)
    requires p in s.plans && s.plans[p] == row && row == s0.plans[p].(lastScheduledAt := row.lastScheduledAt, nextRunAt := row.nextRunAt)
    requires row.nextRunAt == Some(at) && row.nextRunAt == Nth(c, p, s0.plans[p].nextRunAt, steps)
    ensures Walked(s0, AdvancePlan(s, p, at, c.next(p, at)), c, p,
                   row.(lastScheduledAt := Some(at), nextRunAt := c.next(p, at)), steps + 1, reports, now)
  {
    hide Covered, NewBatches, UniqueSlots, Sound;
    AdvanceCovers(s, c, p, at);
    AdvanceKeeps(s0, s, c, p, at, s0.plans[p], reports, now);
  }

  lemma WalkBegins(s: State, c: Timetable, p: string, reports: (string, int) -> Report, now: int)
    requires Sound(s) && p in s.plans
    ensures Walked(s, s, c, p, s.plans[p], 0, reports, now)
  {
    hide Covered, UniqueSlots;
  }

  lemma WalkedFacts(s0: State, s: State, c: Timetable, p: string, row: Plan, steps: nat, reports: (string, int) -> Report, now: int)
    requires Walked(s0, s, c, p, row, steps, reports, now)
    ensures Kept(s0, s, c, p, reports, now, None) && p in s.plans && s.plans[p] == row && p in s0.plans && p != ""
    ensures row == s0.plans[p].(lastScheduledAt := row.lastScheduledAt, nextRunAt := row.nextRunAt)
    ensures row.nextRunAt == Nth(c, p, s0.plans[p].nextRunAt, steps)
    ensures ValidTargets(row.targets) && forall t | t in s.tasks :: s.tasks[t].batch in s.batches
  {
    hide Covered, UniqueSlots, NewBatches;
  }

  /** Whatever occurrence of plan p is run, its targets let the run succeed. */
  ghost predicate AlwaysRuns(p: string, targets: seq<Target>, reports: (string, int) -> Report)
  {
    forall at: int :: Runs(Live(targets, reports(p, at).live), reports(p, at))
  }

  /** Walks the occurrences of one due plan. The stored cursor moves after each of them. */
  method CatchUp(store: Store, p: string, due: Plan, c: Timetable, reports: (string, int) -> Report, now: int, calm: bool)
    returns (r: Outcome, ghost stopped: Option<string>)
    requires Follows(c) && Sound(store.View()) && p in store.plans && store.plans[p] == due && Due(due, now)
    modifies store
    ensures Kept(old(store.View()), store.View(), c, p, reports, now, stopped)
    ensures p in store.plans && (r == Done ==> stopped == None && Settled(c, p, due, store.plans[p], now))
    ensures calm && AlwaysRuns(p, due.targets, reports) ==> r == Done
  {
    hide Runs, Live, Covered, UniqueSlots, Follows, NewBatches, Footprint, TooLate, Scheduled, AdvancePlan, Walked, Kept, Sound, Nth, Handled;
    ghost var s0 := store.View();
    var row := due;
    var steps := 0;
    stopped := None;
    WalkBegins(s0, c, p, reports, now);
    while row.nextRunAt.Some? && row.nextRunAt.value * NANO <= now && steps < MAX_STEPS
      invariant Walked(s0, store.View(), c, p, row, steps, reports, now) && steps <= MAX_STEPS && row.enabled && stopped == None
      decreases MAX_STEPS - steps
    {
      WalkedFacts(s0, store.View(), c, p, row, steps, reports, now);
      var at := row.nextRunAt.value;
      var next := c.next(p, at);
      if !calm { if * { r := Rejected; return; } }
      ghost var s, b := store.View(), "";
      var paused;
      r, paused, b := Consume(store, p, row, at, reports, now, calm);
      stopped := if r == Done then None else Some(b);
      ConsumedKeeps(s0, s, store.View(), c, p, row, steps, reports, now, b, at, stopped);
      if r != Done || paused { return; }
      if !calm { if * { r := Rejected; return; } }
      assert store.View().plans == store.plans;
      AdvanceWalks(s0, store.View(), c, p, row, steps, reports, now, at);
      store.Advance(p, at, next);
      row := row.(lastScheduledAt := Some(at), nextRunAt := next);
      steps := steps + 1;
    }
    WalkedFacts(s0, store.View(), c, p, row, steps, reports, now);
    r := Done;
  }

  // ---------------------------------------------------------------- one call over all due plans

  datatype DuePlan = DuePlan(id: string, row: Plan)

  /** Where the query lists a due plan: by next run, then by id. */
  function Place(d: DuePlan): Listing.Key
    requires d.row.nextRunAt.Some?
  {
    Listing.Key(d.row.nextRunAt.value, d.id)
  }

  /** ORDER BY next_run_at, id is the listing read from its end. */
  method DuePlans(store: Store, now: int) returns (due: seq<DuePlan>)
    ensures forall d :: d in due <==> d.id in store.plans && d.row == store.plans[d.id] && Due(d.row, now)
    ensures forall i | 0 <= i < |due| :: due[i].row.nextRunAt.Some?
    ensures forall i, j | 0 <= i < j < |due| :: due[i].id != due[j].id && Listing.Precedes(Place(due[j]), Place(due[i]))
  {
    var keys := set p | p in store.plans && Due(store.plans[p], now) :: Listing.Key(store.plans[p].nextRunAt.value, p);
    var rows := Listing.Fetch(keys);
    due := [];
    for i := 0 to |rows|
      invariant |due| == i
      invariant forall k | 0 <= k < i :: rows[|rows| - 1 - k] in keys && due[k] == DuePlan(rows[|rows| - 1 - k].id, store.plans[rows[|rows| - 1 - k].id])
    {
      var key := rows[|rows| - 1 - i];
      assert key in keys;
      due := due + [DuePlan(key.id, store.plans[key.id])];
    }
    forall k | 0 <= k < |due|
      ensures due[k].id in store.plans && due[k].row == store.plans[due[k].id] && Due(due[k].row, now) && Place(due[k]) == rows[|rows| - 1 - k]
    {
      assert rows[|rows| - 1 - k] in keys;
    }
    forall i, j | 0 <= i < j < |due| ensures due[i].id != due[j].id && Listing.Precedes(Place(due[j]), Place(due[i])) {
      Listing.PrecedesAsymmetric(rows[|rows| - 1 - j], rows[|rows| - 1 - i]);
    }
    forall d ensures d in due <==> d.id in store.plans && d.row == store.plans[d.id] && Due(d.row, now) {
      if d.id in store.plans && d.row == store.plans[d.id] && Due(d.row, now) {
        assert Place(d) in keys;
        assert Place(d) in rows;
        var k :| 0 <= k < |rows| && rows[k] == Place(d);
        assert due[|rows| - 1 - k] == d;
      }
    }
  }

  /** What a call has done once it visited the plans in seen. */
  ghost predicate Swept(s0: State, s: State, c: Timetable, seen: set<string>, reports: (string, int) -> Report, now: int, stopped: Option<string>)
  {
    Sound(s) && s.plans.Keys == s0.plans.Keys
    && (forall q | q in s0.plans && q !in seen :: s.plans[q] == s0.plans[q])
    && (forall q | q in s0.plans :: SameRules(s0.plans[q], s.plans[q]))
    && (forall p, start | Covered(s0, c, p, start) :: Covered(s, c, p, start))
    && Extends(s0, s)
    && forall b | b in s.batches && b !in s0.batches :: AddedFor(s0, s, b, c, seen, reports, now, stopped)
  }

  /** A new batch belongs to one of the visited plans. */
  ghost predicate AddedFor(s0: State, s: State, b: string, c: Timetable, seen: set<string>, reports: (string, int) -> Report,
                           now: int, stopped: Option<string>)
    requires b in s.batches
  {
    var p := s.batches[b].plan;
    p in seen && p in s0.plans && NewBatchOk(s0, s, b, c, s0.plans[p], reports, now, stopped)
  }

  /** The recorded batches of a plan that a call added are for earlier times than those it ran. */
  ghost predicate RecordedFirst(s0: State, s: State, now: int)
  {
    forall a, b | a in s.batches && b in s.batches && a !in s0.batches && b !in s0.batches && s.batches[a].plan == s.batches[b].plan
                  && Recorded(s.batches[a], now) && !Recorded(s.batches[b], now) ::
      s.batches[a].scheduledAt < s.batches[b].scheduledAt
  }

  lemma SkippedComeFirst(s0: State, s: State, c: Timetable, seen: set<string>, reports: (string, int) -> Report, now: int, stopped: Option<string>)
    requires Swept(s0, s, c, seen, reports, now, stopped)
    ensures RecordedFirst(s0, s, now)
  {
    hide Sound, Covered, Extends, Nth, Scheduled, Handled, Recorded;
    forall a, b | a in s.batches && b in s.batches && a !in s0.batches && b !in s0.batches && s.batches[a].plan == s.batches[b].plan
                  && Recorded(s.batches[a], now) && !Recorded(s.batches[b], now)
      ensures s.batches[a].scheduledAt < s.batches[b].scheduledAt
    {
      assert AddedFor(s0, s, a, c, seen, reports, now, stopped) && AddedFor(s0, s, b, c, seen, reports, now, stopped);
      RecordedComesFirst(s, a, b, s0.plans[s.batches[a].plan], reports, now, stopped);
    }
  }

  /** The batches a call added, each handled by the catch-up rule of its plan. */
  ghost predicate AllByTheRule(s0: State, s: State, reports: (string, int) -> Report, now: int, stopped: Option<string>)
  {
    forall b | b in s.batches && b !in s0.batches ::
      s.batches[b].plan in s0.plans && ByTheRule(s, b, s0.plans[s.batches[b].plan], reports, now, stopped)
  }

  lemma SweptByTheRule(s0: State, s: State, c: Timetable, seen: set<string>, reports: (string, int) -> Report, now: int, stopped: Option<string>)
    requires Swept(s0, s, c, seen, reports, now, stopped)
    ensures AllByTheRule(s0, s, reports, now, stopped)
  {
    hide Sound, Covered, Extends, Nth, Scheduled, Handled, ByTheRule, NoGap;
    forall b | b in s.batches && b !in s0.batches
      ensures s.batches[b].plan in s0.plans && ByTheRule(s, b, s0.plans[s.batches[b].plan], reports, now, stopped)
    {
      assert AddedFor(s0, s, b, c, seen, reports, now, stopped);
      HandledByTheRule(s, b, s0.plans[s.batches[b].plan], reports, now, stopped);
    }
  }

  lemma SweepBegins(s: State, c: Timetable, reports: (string, int) -> Report, now: int)
    requires Sound(s)
    ensures Swept(s, s, c, {}, reports, now, None)
  {
    hide Sound, Covered;
  }

  lemma CoveredElsewhere(s: State, r: State, c: Timetable, p: string, q: string, start: int)
    requires OthersStay(s, r, p) && q != p && Covered(s, c, q, start)
    requires forall b | b in s.batches :: b in r.batches && r.batches[b] == s.batches[b]
    ensures Covered(r, c, q, start)
  {
    if r.plans[q].nextRunAt.Some? {
      forall t | start <= t < r.plans[q].nextRunAt.value && c.occurs(q, t) ensures Scheduled(r.batches, q, t) {
        var b :| b in s.batches && s.batches[b].plan == q && s.batches[b].scheduledAt == t;
        assert r.batches[b] == s.batches[b];
      }
    }
  }

  lemma StillAddedFor(s0: State, s: State, r: State, b: string, c: Timetable, seen: set<string>, p: string,
                      reports: (string, int) -> Report, now: int, stopped: Option<string>)
    requires b in s.batches && AddedFor(s0, s, b, c, seen, reports, now, None) && Extends(s, r)
    ensures b in r.batches && AddedFor(s0, r, b, c, seen + {p}, reports, now, stopped)
  {
    hide Nth, Scheduled, Handled, NoGap, Extends;
    RowStays(s, r, b);
    HandledStays(s, r, b, s0.plans[s.batches[b].plan], reports, now, None, stopped);
    NoGapStays(s0, s, r, c, s.batches[b].plan, s.batches[b].scheduledAt);
  }

  lemma RowStays(s: State, r: State, b: string)
    requires Extends(s, r) && b in s.batches
    ensures b in r.batches && r.batches[b] == s.batches[b]
  {}

  lemma SweepGrows(s0: State, s: State, r: State, c: Timetable, seen: set<string>, p: string, reports: (string, int) -> Report,
                   now: int, stopped: Option<string>)
    requires Swept(s0, s, c, seen, reports, now, None) && Kept(s, r, c, p, reports, now, stopped) && p !in seen
    ensures Swept(s0, r, c, seen + {p}, reports, now, stopped)
  {
    hide Covered, UniqueSlots, Nth, TooLate, Scheduled, Sound, AddedFor, Extends, NewBatchOk;
    SlotRowsStay(s, r);
    ExtendsTransitive(s0, s, r);
    forall q, start | Covered(s0, c, q, start) ensures Covered(r, c, q, start) {
      if q != p { CoveredElsewhere(s, r, c, p, q, start); }
    }
    forall b | b in r.batches && b !in s0.batches ensures AddedFor(s0, r, b, c, seen + {p}, reports, now, stopped) {
      if b in s.batches {
        StillAddedFor(s0, s, r, b, c, seen, p, reports, now, stopped);
      } else {
        NewOfThisPlan(s0, s, r, c, p, reports, now, b, seen + {p}, stopped);
      }
    }
  }

  lemma SlotRowsStay(s: State, r: State)
    requires Extends(s, r)
    ensures forall b | b in s.batches :: b in r.batches && r.batches[b] == s.batches[b]
  {}

  lemma NewOfThisPlan(s0: State, s: State, r: State, c: Timetable, p: string, reports: (string, int) -> Report, now: int, b: string,
                      more: set<string>, stopped: Option<string>)
    requires p in s.plans && p in s0.plans && s.plans[p] == s0.plans[p] && p in more && Extends(s0, s)
    requires NewBatches(s, r, c, p, s.plans[p], reports, now, stopped) && b in r.batches && b !in s.batches
    requires forall start | Covered(s0, c, p, start) :: Covered(s, c, p, start)
    ensures AddedFor(s0, r, b, c, more, reports, now, stopped)
  {
    hide Nth, TooLate, Scheduled, Handled, Extends, NoGap, Covered;
    var at := r.batches[b].scheduledAt;
    NoGapFrom(s0, s, r, c, p, at);
    if Scheduled(s0.batches, p, at) { ScheduledSince(s0, s, p, at); }
  }

  method RunDue(store: Store, c: Timetable, reports: (string, int) -> Report, now: int, calm: bool)
    returns (r: Outcome, ghost seen: set<string>, ghost stopped: Option<string>)
    requires Follows(c) && Sound(store.View())
    modifies store
    ensures Swept(old(store.View()), store.View(), c, seen, reports, now, stopped)
    ensures RecordedFirst(old(store.View()), store.View(), now)
    ensures AllByTheRule(old(store.View()), store.View(), reports, now, stopped)
    ensures forall p | p in seen ::
      (p in old(store.plans)
       && var row := old(store.plans)[p]; row.enabled && row.nextRunAt.Some? && row.nextRunAt.value * 1_000_000_000 <= now)
    ensures r == Done ==> stopped == None && forall p | p in old(store.plans) ::
      var row := old(store.plans)[p];
      row.enabled && row.nextRunAt.Some? && row.nextRunAt.value * 1_000_000_000 <= now ==>
        p in store.plans && Settled(c, p, row, store.plans[p], now)
    ensures calm && (forall p | p in old(store.plans) :: AlwaysRuns(p, old(store.plans)[p].targets, reports)) ==> r == Done
  {
    hide AlwaysRuns, Follows, Sound, Swept, Kept, Settled, RecordedFirst, AllByTheRule;
    ghost var s0 := store.View();
    seen, stopped := {}, None;
    SweepBegins(s0, c, reports, now);
    var due := DuePlans(store, now);
    for i := 0 to |due|
      invariant Swept(s0, store.View(), c, seen, reports, now, None) && stopped == None
      invariant forall p :: p in seen <==> exists j | 0 <= j < i :: due[j].id == p
      invariant forall p | p in seen :: p in s0.plans && Due(s0.plans[p], now)
      invariant forall p | p in seen :: p in store.plans && Settled(c, p, s0.plans[p], store.plans[p], now)
    {
      var plan := due[i];
      assert plan in due;
      ghost var s := store.View();
      SweptFacts(s0, s, c, seen, reports, now);
      r, stopped := CatchUp(store, plan.id, plan.row, c, reports, now, calm);
      KeptFacts(s, store.View(), c, plan.id, reports, now, stopped);
      SweepGrows(s0, s, store.View(), c, seen, plan.id, reports, now, stopped);
      seen := seen + {plan.id};
      if r != Done {
        SkippedComeFirst(s0, store.View(), c, seen, reports, now, stopped);
        SweptByTheRule(s0, store.View(), c, seen, reports, now, stopped);
        return;
      }
    }
    SkippedComeFirst(s0, store.View(), c, seen, reports, now, None);
    SweptByTheRule(s0, store.View(), c, seen, reports, now, None);
    r := Done;
    forall p | p in s0.plans && Due(s0.plans[p], now) ensures p in seen {
      assert DuePlan(p, s0.plans[p]) in due;
    }
  }

  lemma SweptFacts(s0: State, s: State, c: Timetable, seen: set<string>, reports: (string, int) -> Report, now: int)
    requires Swept(s0, s, c, seen, reports, now, None)
    ensures Sound(s) && s.plans.Keys == s0.plans.Keys && forall q | q in s0.plans && q !in seen :: s.plans[q] == s0.plans[q]
  {}

  lemma KeptFacts(s0: State, s: State, c: Timetable, p: string, reports: (string, int) -> Report, now: int, stopped: Option<string>)
    requires Kept(s0, s, c, p, reports, now, stopped)
    ensures s.plans.Keys == s0.plans.Keys && forall q | q in s0.plans && q != p :: s.plans[q] == s0.plans[q]
  {}

  /** An occurrence before the stored cursor has a batch, and only one. */
  lemma ExactlyOneBatch(s: State, c: Timetable, p: string, start: int, t: int) returns (b: string)
    requires Sound(s) && Covered(s, c, p, start) && s.plans[p].nextRunAt.Some?
    requires start <= t < s.plans[p].nextRunAt.value && c.occurs(p, t)
    ensures b in s.batches && s.batches[b].plan == p && s.batches[b].scheduledAt == t
    ensures forall x | x in s.batches && s.batches[x].plan == p && s.batches[x].scheduledAt == t :: x == b
  {
    b :| b in s.batches && s.batches[b].plan == p && s.batches[b].scheduledAt == t;
  }

  // ---------------------------------------------------------------- many calls

  /** What one call found and left, and the batch it stopped in. */
  datatype Tick = Tick(before: State, after: State, seen: set<string>, stopped: Option<string>)

  ghost predicate TickOk(k: Tick, c: Timetable, reports: (string, int) -> Report, now: int)
  {
    Swept(k.before, k.after, c, k.seen, reports, now, k.stopped) && RecordedFirst(k.before, k.after, now)
    && AllByTheRule(k.before, k.after, reports, now, k.stopped)
  }

  /** A batch that call k added, seen from a later state: handled as that call left it, under the rules the plan had at
      the first call, without a gap before it and without a task since. */
  ghost predicate AddedBy(s0: State, s: State, k: Tick, b: string, c: Timetable, reports: (string, int) -> Report, now: int)
  {
    b in s.batches && b !in k.before.batches && b in k.after.batches && s.batches[b].plan in s0.plans
    && Handled(s, b, s0.plans[s.batches[b].plan], reports, now, k.stopped)
    && ByTheRule(s, b, s0.plans[s.batches[b].plan], reports, now, k.stopped)
    && NoGap(s0, s, c, s.batches[b].plan, s.batches[b].scheduledAt)
    && Members(s.tasks, b) == Members(k.after.tasks, b)
  }

  /** What the calls so far have made of the tables: nothing is taken back, the rules of the plans stay, and every new
      batch belongs to one call. */
  ghost predicate Ticked(s0: State, s: State, ticks: seq<Tick>, c: Timetable, reports: (string, int) -> Report, clock: seq<int>)
    requires |ticks| <= |clock|
  {
    Sound(s) && Extends(s0, s) && s.plans.Keys == s0.plans.Keys
    && (forall p | p in s0.plans :: SameRules(s0.plans[p], s.plans[p]))
    && (forall p, start | Covered(s0, c, p, start) :: Covered(s, c, p, start))
    && (forall i | 0 <= i < |ticks| :: TickOk(ticks[i], c, reports, clock[i]))
    && forall b | b in s.batches && b !in s0.batches ::
         exists i | 0 <= i < |ticks| :: AddedBy(s0, s, ticks[i], b, c, reports, clock[i])
  }

  /** Each call found what the one before it left. */
  predicate Chained(first: State, ticks: seq<Tick>, last: State)
  {
    if ticks == [] then first == last
    else ticks[|ticks| - 1].after == last && Chained(first, ticks[..|ticks| - 1], ticks[|ticks| - 1].before)
  }

  lemma SameMembers(s: State, r: State, b: string)
    requires Extends(s, r) && b in s.batches
    ensures Members(r.tasks, b) == Members(s.tasks, b)
  {}

  /** A later call leaves alone what an earlier one added. */
  lemma AddedByStays(s0: State, s: State, r: State, k: Tick, b: string, c: Timetable, reports: (string, int) -> Report, now: int)
    requires AddedBy(s0, s, k, b, c, reports, now) && Extends(s, r)
    ensures AddedBy(s0, r, k, b, c, reports, now)
  {
    hide Handled, NoGap, Extends, Members, ByTheRule;
    RowStays(s, r, b);
    HandledStays(s, r, b, s0.plans[s.batches[b].plan], reports, now, k.stopped, k.stopped);
    HandledByTheRule(r, b, s0.plans[s.batches[b].plan], reports, now, k.stopped);
    NoGapStays(s0, s, r, c, s.batches[b].plan, s.batches[b].scheduledAt);
    SameMembers(s, r, b);
  }

  lemma NewlyAdded(s0: State, k: Tick, b: string, c: Timetable, reports: (string, int) -> Report, now: int)
    requires Swept(k.before, k.after, c, k.seen, reports, now, k.stopped) && b in k.after.batches && b !in k.before.batches
    requires k.before.plans.Keys == s0.plans.Keys && forall p | p in s0.plans :: SameRules(s0.plans[p], k.before.plans[p])
    requires forall p, start | Covered(s0, c, p, start) :: Covered(k.before, c, p, start)
    ensures AddedBy(s0, k.after, k, b, c, reports, now)
  {
    hide Sound, Covered, Extends, Nth, Scheduled, Handled, NoGap, ByTheRule;
    var p := k.after.batches[b].plan;
    assert AddedFor(k.before, k.after, b, c, k.seen, reports, now, k.stopped);
    SameHandling(k.after, b, s0.plans[p], k.before.plans[p], reports, now, k.stopped);
    HandledByTheRule(k.after, b, s0.plans[p], reports, now, k.stopped);
    NoGapFrom(s0, k.before, k.after, c, p, k.after.batches[b].scheduledAt);
  }

  lemma SweptLeaves(s0: State, s: State, c: Timetable, seen: set<string>, reports: (string, int) -> Report, now: int, stopped: Option<string>)
    requires Swept(s0, s, c, seen, reports, now, stopped)
    ensures Sound(s) && Extends(s0, s) && s.plans.Keys == s0.plans.Keys
    ensures forall p | p in s0.plans :: SameRules(s0.plans[p], s.plans[p])
    ensures forall p, start | Covered(s0, c, p, start) :: Covered(s, c, p, start)
  {
    hide Sound, Covered, Extends, AddedFor;
  }

  lemma TicksGrow(s0: State, ticks: seq<Tick>, k: Tick, c: Timetable, reports: (string, int) -> Report, clock: seq<int>)
    requires |ticks| < |clock| && Ticked(s0, k.before, ticks, c, reports, clock) && TickOk(k, c, reports, clock[|ticks|])
    ensures Ticked(s0, k.after, ticks + [k], c, reports, clock)
  {
    hide Sound, Covered, Extends, Swept, RecordedFirst, AddedBy, AllByTheRule;
    SweptLeaves(k.before, k.after, c, k.seen, reports, clock[|ticks|], k.stopped);
    ExtendsTransitive(s0, k.before, k.after);
    var more := ticks + [k];
    forall b | b in k.after.batches && b !in s0.batches
      ensures exists i | 0 <= i < |more| :: AddedBy(s0, k.after, more[i], b, c, reports, clock[i])
    {
      if b in k.before.batches {
        var i :| 0 <= i < |ticks| && AddedBy(s0, k.before, ticks[i], b, c, reports, clock[i]);
        AddedByStays(s0, k.before, k.after, ticks[i], b, c, reports, clock[i]);
        assert more[i] == ticks[i];
      } else {
        NewlyAdded(s0, k, b, c, reports, clock[|ticks|]);
        assert more[|ticks|] == k;
      }
    }
  }

  /** Ticks of the scheduler, each of which may fail or die anywhere. */
  method Ticks(store: Store, c: Timetable, reports: (string, int) -> Report, clock: seq<int>) returns (ghost ticks: seq<Tick>)
    requires Follows(c) && Sound(store.View())
    modifies store
    ensures |ticks| == |clock| && Ticked(old(store.View()), store.View(), ticks, c, reports, clock)
    ensures Chained(old(store.View()), ticks, store.View())
  {
    hide Follows, Sound, Covered, Swept, Ticked, RecordedFirst, AllByTheRule;
    ticks := [];
    TicksBegin(store.View(), c, reports, clock);
    for i := 0 to |clock|
      invariant |ticks| == i && Ticked(old(store.View()), store.View(), ticks, c, reports, clock)
      invariant Chained(old(store.View()), ticks, store.View())
    {
      ghost var before, seen, stopped := store.View(), {}, None;
      TickedSound(old(store.View()), before, ticks, c, reports, clock);
      var ignored;
      ignored, seen, stopped := RunDue(store, c, reports, clock[i], false);
      TicksGrow(old(store.View()), ticks, Tick(before, store.View(), seen, stopped), c, reports, clock);
      ghost var more := ticks + [Tick(before, store.View(), seen, stopped)];
      assert more[..|ticks|] == ticks;
      ticks := more;
    }
  }

  lemma TicksBegin(s: State, c: Timetable, reports: (string, int) -> Report, clock: seq<int>)
    requires Sound(s)
    ensures Ticked(s, s, [], c, reports, clock)
  {
    hide Sound, Covered;
  }

  lemma TickedSound(s0: State, s: State, ticks: seq<Tick>, c: Timetable, reports: (string, int) -> Report, clock: seq<int>)
    requires |ticks| <= |clock| && Ticked(s0, s, ticks, c, reports, clock)
    ensures Sound(s)
  {
    hide Sound, Covered, Extends, TickOk, AddedBy;
  }
}
