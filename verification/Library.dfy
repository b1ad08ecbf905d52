/** The backup library: snapshot rows in the control database, snapshot directories on disk. */
module Library {
  import opened Tables
  import opened QueueSpec
  import opened Retention
  import opened QueueStore
  import Listing
  import Paths
  import Text

  /** Where the outside world stops a deletion: renaming the directory, or writing the row after it
      (an error or a crash between the two). */
  datatype Fault = NoFault | MoveFails | MarkFails

  const TRASH := "_trash/"

  function TrashPath(id: string): string { TRASH + id }

  /** A snapshot's fate is open: its row is active, its directory is there and its trash slot is free. */
  predicate Deletable(s: State, directories: map<string, string>, id: string)
  {
    id in s.snapshots && s.snapshots[id].retention == Tables.Kept
    && Paths.SafeSegment(id) && Paths.SafeRelative(s.snapshots[id].path)
    && TrashPath(id) !in directories && s.snapshots[id].path in directories
  }

  function Moved(directories: map<string, string>, from: string, to: string): map<string, string>
    requires from in directories
  {
    (directories - {from})[to := directories[from]]
  }

  /** The active row points at no directory, as an interrupted deletion leaves it. */
  predicate Stranded(s: State, directories: map<string, string>, id: string)
  {
    id in s.snapshots && s.snapshots[id].retention == Tables.Kept
    && s.snapshots[id].path !in directories && !Text.HasPrefix(s.snapshots[id].path, TRASH)
  }

  function PlanItems(s: State, plan: string): set<Item>
  {
    set id | id in s.snapshots && s.snapshots[id].plan == plan && s.snapshots[id].retention == Tables.Kept
      :: Item(id, s.snapshots[id].capturedAt, s.snapshots[id].verification)
  }

  function Doomed(s: State, plan: string, c: Calendar, p: Policy): set<Item>
  {
    PlanItems(s, plan) - Retention.Kept(PlanItems(s, plan), c, p)
  }

  function Ids(rows: set<Item>): set<string>
  {
    set x | x in rows :: x.id
  }

  /** Exactly the snapshots in gone went to the trash, and nothing else in the database changed. */
  ghost predicate OnlyTrashed(before: State, after: State, gone: set<string>, now: int)
  {
    gone <= before.snapshots.Keys == after.snapshots.Keys && after == before.(snapshots := after.snapshots)
    && forall id | id in before.snapshots ::
         after.snapshots[id] == if id in gone
                                then before.snapshots[id].(retention := Trashed, path := TrashPath(id), trashedAt := Some(now))
                                else before.snapshots[id]
  }

  lemma ItemsAfterTrashing(before: State, after: State, gone: set<string>, now: int, plan: string)
    requires OnlyTrashed(before, after, gone, now)
    ensures PlanItems(after, plan) == set x | x in PlanItems(before, plan) && x.id !in gone
  {}

  lemma TrashingOneMore(before: State, after: State, gone: set<string>, now: int, id: string)
    requires OnlyTrashed(before, after, gone, now) && id in before.snapshots && id !in gone && before.snapshots[id].retention == Tables.Kept
    ensures OnlyTrashed(before, TrashSnapshot(after, id, TrashPath(id), now), gone + {id}, now)
  {}

  /** Wherever a run stopped, the next one reaches the same verdicts about what is left. */
  lemma StoppedRunChangesNoVerdict(before: State, after: State, gone: set<string>, now: int, plan: string, c: Calendar, p: Policy)
    requires OnlyTrashed(before, after, gone, now) && gone <= Ids(Doomed(before, plan, c, p))
    ensures Retention.Kept(PlanItems(after, plan), c, p) == Retention.Kept(PlanItems(before, plan), c, p)
    ensures Ids(Doomed(after, plan, c, p)) == Ids(Doomed(before, plan, c, p)) - gone
  {
    hide Retention.Kept, OnlyTrashed;
    var rows, left := PlanItems(before, plan), PlanItems(after, plan);
    ItemsAfterTrashing(before, after, gone, now, plan);
    KeptAreRows(rows, c, p);
    forall x | x in rows && x.id in gone ensures x !in Retention.Kept(rows, c, p) {
      var y :| y in Doomed(before, plan, c, p) && y.id == x.id;
      assert y == x;
    }
    Confluence(rows, left, c, p);
    var kept := Retention.Kept(rows, c, p);
    forall id ensures id in Ids(left - kept) <==> id in Ids(rows - kept) - gone {
      if id in Ids(left - kept) { var x :| x in left - kept && x.id == id; assert x in rows - kept; }
      if id in Ids(rows - kept) - gone { var x :| x in rows - kept && x.id == id; assert x in left - kept; }
    }
  }

  lemma KeptAreRows(rows: set<Item>, c: Calendar, p: Policy)
    ensures Retention.Kept(rows, c, p) <= rows
  {}

  function Given(items: seq<Item>, keep: set<string>): set<string>
  {
    set x | x in items && x.id !in keep :: x.id
  }

  lemma GivenNext(items: seq<Item>, rows: set<Item>, keep: set<string>, i: nat)
    requires Lists(items, rows) && Distinct(rows) && i < |items|
    ensures Given(items[..i + 1], keep) == Given(items[..i], keep) + (if items[i].id in keep then {} else {items[i].id})
    ensures items[i].id !in Given(items[..i], keep)
  {
    assert forall x :: x in items[..i + 1] <==> x in items[..i] || x == items[i];
    forall j | 0 <= j < i ensures items[j].id != items[i].id {
      Listing.PrecedesAsymmetric(items[j].Place(), items[i].Place());
      assert items[j] in rows && items[i] in rows;
    }
  }

  lemma GivenAre(items: seq<Item>, keep: set<string>, doomed: set<Item>)
    requires forall x | x in items && x.id !in keep :: x in doomed
    ensures Given(items, keep) <= Ids(doomed)
    ensures (forall x | x in doomed :: x in items && x.id !in keep) ==> Given(items, keep) == Ids(doomed)
  {}

  lemma StillThere(before: State, after: State, gone: set<string>, now: int, id: string)
    requires OnlyTrashed(before, after, gone, now) && id in before.snapshots && id !in gone
    ensures id in after.snapshots && after.snapshots[id] == before.snapshots[id]
  {}

  lemma NotStranded(before: State, after: State, first: map<string, string>, directories: map<string, string>, id: string)
    requires id in before.snapshots && id in after.snapshots && after.snapshots[id] == before.snapshots[id]
    requires Stranded(before, first, id) ==> before.snapshots[id].path !in directories
    ensures Deletable(after, directories, id) ==> !Stranded(before, first, id)
  {}

  lemma StrandedStay(before: State, first: map<string, string>, directories: map<string, string>, from: string, id: string)
    requires from in directories
    requires forall k | Stranded(before, first, k) :: before.snapshots[k].path !in directories
    ensures forall k | Stranded(before, first, k) :: before.snapshots[k].path !in Moved(directories, from, TrashPath(id))
  {
    assert Text.HasPrefix(TrashPath(id), TRASH);
  }

  lemma GivenPrefix(items: seq<Item>, keep: set<string>, i: nat)
    requires i <= |items|
    ensures Given(items[..i], keep) <= Given(items, keep)
  {}

  lemma NothingGiven(items: seq<Item>, keep: set<string>)
    ensures Given(items[..0], keep) == {}
  {}

  lemma ListedAreThere(items: seq<Item>, s: State, plan: string)
    requires Lists(items, PlanItems(s, plan))
    ensures Distinct(PlanItems(s, plan))
    ensures forall i | 0 <= i < |items| :: items[i].id in s.snapshots && s.snapshots[items[i].id].retention == Tables.Kept
  {
    assert forall i | 0 <= i < |items| :: items[i] in PlanItems(s, plan);
  }

  lemma FailedStaysUndeletable(s: State, first: map<string, string>, then_: map<string, string>, id: string, fault: Fault)
    requires !(Deletable(s, first, id) && fault == NoFault)
    requires !Deletable(s, first, id) ==> then_ == first
    ensures fault != NoFault || !Deletable(s, then_, id)
  {}

  lemma DeletableIsThere(s: State, directories: map<string, string>, id: string)
    requires Deletable(s, directories, id)
    ensures id in s.snapshots && s.snapshots[id].path in directories && s.snapshots[id].retention == Tables.Kept
    ensures TrashPath(id) !in directories
  {}

  /** No snapshot of rows lives in directory d. */
  predicate Bystander(s: State, rows: set<Item>, d: string)
  {
    forall x | x in rows && x.id in s.snapshots :: s.snapshots[x.id].path != d
  }

  /** Every bystander directory is there with the content it had. */
  ghost predicate Untouched(s: State, rows: set<Item>, first: map<string, string>, directories: map<string, string>)
  {
    forall d | d in first && Bystander(s, rows, d) :: d in directories && directories[d] == first[d]
  }

  lemma UntouchedByMove(s: State, rows: set<Item>, first: map<string, string>, directories: map<string, string>, x: Item)
    requires Untouched(s, rows, first, directories) && x in rows && x.id in s.snapshots
    requires s.snapshots[x.id].path in directories && TrashPath(x.id) !in directories
    ensures Untouched(s, rows, first, Moved(directories, s.snapshots[x.id].path, TrashPath(x.id)))
  {}

  /** Doomed items among the listed ones. */
  function Others(items: seq<Item>, keep: set<string>): set<Item>
  {
    set x | x in items && x.id !in keep
  }

  /** What the interrupted deletion leaves behind no later one can finish. */
  lemma InterruptedDeletionStrands(s: State, directories: map<string, string>, id: string)
    requires Deletable(s, directories, id) && !Text.HasPrefix(s.snapshots[id].path, TRASH)
    ensures var moved := Moved(directories, s.snapshots[id].path, TrashPath(id));
      Stranded(s, moved, id) && !Deletable(s, moved, id)
  {
    assert Text.HasPrefix(TrashPath(id), TRASH);
  }

  class Library {
    const store: Store
    var directories: map<string, string>

    constructor (store: Store, directories: map<string, string>)
      ensures this.store == store && this.directories == directories
    {
      this.store, this.directories := store, directories;
    }

    method MoveToTrash(from: string, id: string, fault: Fault) returns (moved: bool)
      modifies this
      ensures moved <==> Paths.SafeSegment(id) && Paths.SafeRelative(from) && TrashPath(id) !in old(directories)
                         && from in old(directories) && fault != MoveFails
      ensures directories == if moved then Moved(old(directories), from, TrashPath(id)) else old(directories)
    {
      if !Paths.SafeSegment(id) || !Paths.SafeRelative(from) { return false; }
      if TrashPath(id) in directories { return false; }
      if from !in directories || fault == MoveFails { return false; }
      var content := directories[from];
      directories := directories - {from};
      directories := directories[TrashPath(id) := content];
      return true;
    }

    /** Two resources and no transaction over both: the directory moves first, the row follows. */
    method Delete(id: string, fault: Fault, now: int) returns (r: Outcome)
      modifies this, store
      ensures r == Done <==> Deletable(old(store.View()), old(directories), id) && fault == NoFault
      ensures r == Done ==> "_trash/" + id in directories
      ensures r == Done ==> id in store.snapshots && store.snapshots[id].retention == Trashed && store.snapshots[id].path == "_trash/" + id
      ensures store.View() == if r == Done then TrashSnapshot(old(store.View()), id, TrashPath(id), now) else old(store.View())
      ensures directories == if Deletable(old(store.View()), old(directories), id) && fault != MoveFails
                             then Moved(old(directories), old(store.View()).snapshots[id].path, TrashPath(id))
                             else old(directories)
    {
      if id !in store.snapshots { return NotFound; }
      var row := store.snapshots[id];
      if row.retention == Trashed { return NotFound; }
      var moved := MoveToTrash(row.path, id, fault);
      if !moved { return Rejected; }
      if fault == MarkFails { return Rejected; }
      r := store.MarkSnapshotTrashed(id, TrashPath(id), now);
    }

    method SnapshotsForPlan(plan: string) returns (items: seq<Item>)
      ensures Lists(items, PlanItems(store.View(), plan))
    {
      var keys := set id | id in store.snapshots && store.snapshots[id].plan == plan && store.snapshots[id].retention == Tables.Kept
        :: Listing.Key(store.snapshots[id].capturedAt, id);
      var rows := Listing.Fetch(keys);
      items := [];
      for i := 0 to |rows|
        invariant |items| == i
        invariant forall j | 0 <= j < i ::
          items[j] in PlanItems(store.View(), plan) && items[j].Place() == rows[j]
      {
        assert rows[i] in keys;
        items := items + [Item(rows[i].id, rows[i].at, store.snapshots[rows[i].id].verification)];
      }
      forall x ensures x in items <==> x in PlanItems(store.View(), plan) {
        if x in PlanItems(store.View(), plan) {
          assert x.Place() in keys;
          assert x.Place() in rows;
          var j :| 0 <= j < |rows| && rows[j] == x.Place();
          assert items[j] == x;
        }
      }
    }

    /** The second loop of a retention run; it stops at the first deletion that fails. */
    method DeleteOthers(items: seq<Item>, ghost plan: string, keep: set<string>, faults: string -> Fault, now: int)
      returns (r: Outcome, ghost gone: set<string>)
      requires Lists(items, PlanItems(store.View(), plan))
      modifies this, store
      ensures OnlyTrashed(old(store.View()), store.View(), gone, now) && gone <= Given(items, keep)
      ensures r == Done ==> gone == Given(items, keep)
      ensures r == Done ==> forall x | x in items && x.id !in keep ::
        faults(x.id) == NoFault && !Stranded(old(store.View()), old(directories), x.id)
      ensures r != Done ==> exists x | x in items && x.id !in keep ::
        x.id !in gone && (faults(x.id) != NoFault || !Deletable(store.View(), directories, x.id))
      ensures Untouched(old(store.View()), Others(items, keep), old(directories), directories)
    {
      hide Given, Distinct, Lists;
      ghost var before, rows := store.View(), PlanItems(store.View(), plan);
      ListedAreThere(items, before, plan);
      NothingGiven(items, keep);
      gone := {};
      for i := 0 to |items|
        invariant OnlyTrashed(before, store.View(), gone, now)
        invariant gone == Given(items[..i], keep)
        invariant forall id | Stranded(before, old(directories), id) :: before.snapshots[id].path !in directories
        invariant forall x | x in items[..i] && x.id !in keep ::
          faults(x.id) == NoFault && !Stranded(before, old(directories), x.id)
        invariant Untouched(before, Others(items, keep), old(directories), directories)
      {
        hide OnlyTrashed, Stranded, Deletable, PlanItems, TrashSnapshot, Untouched, Moved;
        var x := items[i];
        GivenNext(items, rows, keep, i);
        GivenPrefix(items, keep, i);
        assert items[..i + 1] == items[..i] + [x];
        if x.id in keep { continue; }
        StillThere(before, store.View(), gone, now, x.id);
        NotStranded(before, store.View(), old(directories), directories, x.id);
        ghost var view, there := store.View(), directories;
        r := Delete(x.id, faults(x.id), now);
        if Deletable(view, there, x.id) {
          DeletableIsThere(view, there, x.id);
          UntouchedByMove(before, Others(items, keep), old(directories), there, x);
        }
        if r != Done {
          FailedStaysUndeletable(view, there, directories, x.id, faults(x.id));
          return;
        }
        DeletableIsThere(view, there, x.id);
        StrandedStay(before, old(directories), there, view.snapshots[x.id].path, x.id);
        TrashingOneMore(before, view, gone, now, x.id);
        gone := gone + {x.id};
      }
      assert items[..|items|] == items;
      r := Done;
    }

    method ApplyRetention(plan: string, c: Calendar, p: Policy, faults: string -> Fault, now: int)
      returns (r: Outcome, ghost gone: set<string>)
      requires Sound(c) && "" !in store.snapshots
      modifies this, store
      ensures OnlyTrashed(old(store.View()), store.View(), gone, now)
      ensures gone <= Ids(Doomed(old(store.View()), plan, c, p))
      ensures r == Done ==> gone == Ids(Doomed(old(store.View()), plan, c, p))
      ensures r == Done ==> forall x | x in Doomed(old(store.View()), plan, c, p) ::
        faults(x.id) == NoFault && !Stranded(old(store.View()), old(directories), x.id)
      ensures r != Done ==> exists x | x in Doomed(old(store.View()), plan, c, p) ::
        x.id !in gone && (faults(x.id) != NoFault || !Deletable(store.View(), directories, x.id))
      ensures Untouched(old(store.View()), Doomed(old(store.View()), plan, c, p), old(directories), directories)
    {
      ghost var before := store.View();
      gone := {};
      var items := SnapshotsForPlan(plan);
      ghost var rows := PlanItems(before, plan);
      assert Elements(items) == rows;
      for i := 0 to |items|
        invariant forall j | 0 <= j < i :: !items[j].verification.Broken?
      {
        if items[i].verification.Broken? {
          assert items[i] in rows;
          return Done, gone;
        }
      }
      assert !AnyBroken(rows);
      var keep := KeptIds(items, c, p);
      assert forall x | x in rows :: x.id in keep <==> x in Retention.Kept(rows, c, p);
      ghost var doomed := rows - Retention.Kept(rows, c, p);
      hide Retention.Kept, Elements, AnyBroken, Sound, OnlyTrashed, Deletable, Stranded, Lists;
      r, gone := DeleteOthers(items, plan, keep, faults, now);
      assert forall x | x in items && x.id !in keep :: x in doomed;
      assert forall x | x in doomed :: x in items && x.id !in keep;
      GivenAre(items, keep, doomed);
      assert Others(items, keep) == doomed;
    }
  }
}
