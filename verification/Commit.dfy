/** Turning a finished archive into a snapshot: two resources, no transaction over both, and a crash possible anywhere. */
module Commit {
  import opened Tables
  import opened QueueSpec
  import opened QueueStore
  import Paths
  import Text

  /** A final directory; an archive may be there without its manifest. */
  datatype Final = Final(archive: Option<string>, manifest: Option<string>)

  /** An abstract digest function of the archive bytes. */
  type Digest = string -> string

  /** The archive a row describes is where the row says, with its manifest beside it. */
  ghost predicate Backed(row: Snapshot, finals: map<string, Final>, digest: Digest)
  {
    row.path in finals
    && match finals[row.path].archive
       case None => false
       case Some(bytes) => |bytes| == row.size && digest(bytes) == row.digest && finals[row.path].manifest.Some?
  }

  /** Every active snapshot row is backed. */
  ghost predicate RowsBacked(snapshots: map<string, Snapshot>, finals: map<string, Final>, digest: Digest)
  {
    forall id | id in snapshots && snapshots[id].retention == Kept :: Backed(snapshots[id], finals, digest)
  }

  /** How a call ends: Crashed stands for the process dying, which runs no clean-up. */
  datatype Ending = Committed | GaveUp | Crashed

  /** Where CommitArchive puts the archive. */
  function Chosen(finals: map<string, Final>, deploy: string, timestamp: string, suffix: string): string
  {
    var directory := deploy + "/" + timestamp;
    if directory in finals then deploy + "/" + timestamp + "-" + suffix else directory
  }

  /** No active row lives in the directory the archive is about to be put into. */
  predicate Unclaimed(snapshots: map<string, Snapshot>, directory: string)
  {
    forall id | id in snapshots && snapshots[id].retention == Kept :: snapshots[id].path != directory
  }

  lemma OtherDirectories(snapshots: map<string, Snapshot>, finals: map<string, Final>, after: map<string, Final>, digest: Digest, directory: string)
    requires forall d | d in finals && d != directory :: d in after && after[d] == finals[d]
    ensures RowsBacked(snapshots, finals, digest) && Unclaimed(snapshots, directory) ==> RowsBacked(snapshots, after, digest)
  {}

  /** The directory a commit takes is unclaimed unless a row holds both names it may choose. */
  lemma ChosenIsUnclaimed(snapshots: map<string, Snapshot>, finals: map<string, Final>, digest: Digest, deploy: string, timestamp: string, suffix: string)
    requires RowsBacked(snapshots, finals, digest)
    ensures Unclaimed(snapshots, Chosen(finals, deploy, timestamp, suffix))
      <==> !(deploy + "/" + timestamp in finals && !Unclaimed(snapshots, deploy + "/" + timestamp + "-" + suffix))
  {
    forall id | id in snapshots && snapshots[id].retention == Kept ensures snapshots[id].path in finals {
      assert Backed(snapshots[id], finals, digest);
    }
  }

  /** Every active row that lives in the directory describes exactly these bytes. */
  predicate Matches(snapshots: map<string, Snapshot>, directory: string, bytes: string, digest: Digest)
  {
    forall id | id in snapshots && snapshots[id].retention == Kept && snapshots[id].path == directory ::
      |bytes| == snapshots[id].size && digest(bytes) == snapshots[id].digest
  }

  /** Putting an archive into a directory keeps all rows backed exactly when the rows that live there describe it. */
  lemma OverwritingUnbacks(snapshots: map<string, Snapshot>, finals: map<string, Final>, digest: Digest, directory: string, bytes: string, there: Final)
    requires RowsBacked(snapshots, finals, digest) && there.archive == Some(bytes)
    requires there.manifest.Some? || (directory in finals && there.manifest == finals[directory].manifest) || directory !in finals
    ensures RowsBacked(snapshots, finals[directory := there], digest) <==> Matches(snapshots, directory, bytes, digest)
  {
    var after := finals[directory := there];
    if Matches(snapshots, directory, bytes, digest) {
      forall id | id in snapshots && snapshots[id].retention == Kept ensures Backed(snapshots[id], after, digest) {
        assert Backed(snapshots[id], finals, digest);
      }
    } else {
      var id :| id in snapshots && snapshots[id].retention == Kept && snapshots[id].path == directory
        && !(|bytes| == snapshots[id].size && digest(bytes) == snapshots[id].digest);
      assert !Backed(snapshots[id], after, digest);
    }
  }

  /** Removing a directory keeps all rows backed exactly when none lives there. */
  lemma RemovalUnbacks(snapshots: map<string, Snapshot>, finals: map<string, Final>, digest: Digest, directory: string, there: Final)
    requires RowsBacked(snapshots, finals, digest)
    ensures RowsBacked(snapshots, Without(finals[directory := there], directory), digest) <==> Unclaimed(snapshots, directory)
  {
    var after := Without(finals[directory := there], directory);
    OtherDirectories(snapshots, finals, after, digest, directory);
    if id :| id in snapshots && snapshots[id].retention == Kept && snapshots[id].path == directory {
      assert !Backed(snapshots[id], after, digest);
    }
  }

  /** Whether the rows keep their archives, by what became of the directory: if it is gone none may live there, and if
      it holds the new bytes those that do must describe them. */
  predicate Spares(snapshots: map<string, Snapshot>, finals: map<string, Final>, directory: string, bytes: string, digest: Digest)
  {
    if directory !in finals then Unclaimed(snapshots, directory)
    else finals[directory].archive == Some(bytes) ==> Matches(snapshots, directory, bytes, digest)
  }

  /** A call that touched no archive spared every row. */
  lemma UntouchedSpares(snapshots: map<string, Snapshot>, finals: map<string, Final>, after: map<string, Final>, digest: Digest, directory: string, bytes: string)
    requires RowsBacked(snapshots, finals, digest)
    requires forall d | d in finals :: d in after && after[d] == finals[d]
    requires directory in after && directory !in finals ==> after[directory].archive.None?
    ensures RowsBacked(snapshots, after, digest) && Spares(snapshots, after, directory, bytes, digest)
  {
    forall id | id in snapshots && snapshots[id].retention == Kept
      ensures Backed(snapshots[id], finals, digest) && Backed(snapshots[id], after, digest)
    {}
  }

  /** shortID */
  function ShortId(job: string): string
  {
    var id := Text.TrimPrefix(job, "backup-");
    if |id| > 8 then id[..8] else id
  }

  /** One job's inputs: the bytes its archive will have, when it was captured and finished. */
  datatype Work = Work(job: string, deploy: string, plan: string, timestamp: string, bytes: string, manifest: string, capturedAt: int, finishedAt: int)

  function RowOf(work: Work, directory: string, digest: Digest): Snapshot
  {
    Snapshot(work.job, work.plan, directory, |work.bytes|, digest(work.bytes), work.capturedAt, work.finishedAt, Verified, Kept, None)
  }

  /** The final directories after a commit. */
  function FinalsAfter(finals: map<string, Final>, work: Work): map<string, Final>
  {
    finals[Chosen(finals, work.deploy, work.timestamp, ShortId(work.job)) := Final(Some(work.bytes), Some(work.manifest))]
  }

  /** The storage layer accepts every name the work brings, and no archive of the job is left from before. */
  predicate Storable(work: Work, partials: map<string, Option<string>>)
  {
    Paths.SafeSegment(work.job) && Paths.SafeSegment(work.deploy) && Paths.SafeSegment(work.timestamp)
    && Paths.SafeSegment(ShortId(work.job)) && (work.job in partials ==> partials[work.job].None?)
  }

  function Without<V>(m: map<string, V>, key: string): map<string, V>
  {
    m - {key}
  }

  /** What an error return leaves in the final directories: the chosen one is gone, or no archive has moved. */
  predicate Abandoned(was: map<string, Final>, finals: map<string, Final>, directory: string)
  {
    finals == was || finals == Without(was, directory)
    || (directory !in was && finals == was[directory := Final(None, None)])
  }

  lemma HoldsSpares(snapshots: map<string, Snapshot>, finals: map<string, Final>, digest: Digest, directory: string, bytes: string)
    requires directory in finals && finals[directory].archive == Some(bytes)
    ensures Spares(snapshots, finals, directory, bytes, digest) <==> Matches(snapshots, directory, bytes, digest)
  {
    hide Matches;
  }

  lemma UnclaimedIsSpared(snapshots: map<string, Snapshot>, digest: Digest, directory: string, bytes: string)
    requires Unclaimed(snapshots, directory)
    ensures forall finals :: Spares(snapshots, finals, directory, bytes, digest)
  {}

  lemma GoneSpares(snapshots: map<string, Snapshot>, finals: map<string, Final>, digest: Digest, directory: string, bytes: string)
    requires directory !in finals
    ensures Spares(snapshots, finals, directory, bytes, digest) <==> Unclaimed(snapshots, directory)
  {}

  class Engine {
    const store: Store
    const digest: Digest
    /** _partial/<job>: the unfinished archive, if it was created. */
    var partials: map<string, Option<string>>
    var finals: map<string, Final>

    constructor (store: Store, digest: Digest, partials: map<string, Option<string>>, finals: map<string, Final>)
      ensures this.store == store && this.digest == digest && this.partials == partials && this.finals == finals
    {
      this.store, this.digest, this.partials, this.finals := store, digest, partials, finals;
    }

    ghost predicate Valid()
      reads this, store
    {
      RowsBacked(store.snapshots, finals, digest)
    }

    /** The `if *` branches stand for a call that fails and for the process dying; a calm run takes none of them. */
    method CreatePartial(job: string, calm: bool) returns (ok: bool)
      modifies this`partials
      ensures partials == if ok && job !in old(partials) then old(partials)[job := None] else old(partials)
      ensures ok ==> Paths.SafeSegment(job) && job in partials
      ensures calm ==> (ok <==> Paths.SafeSegment(job))
    {
      if !Paths.SafeSegment(job) { return false; }
      if !calm { if * { return false; } }
      if job !in partials { partials := partials[job := None]; }
      return true;
    }

    /** Creates the archive exclusively and fills it; a source file that changes meanwhile spoils it. */
    method WriteArchive(job: string, bytes: string, calm: bool) returns (ok: bool, changed: bool)
      requires job in partials
      modifies this`partials
      ensures job in partials && partials == old(partials)[job := partials[job]]
      ensures ok ==> old(partials)[job].None? && partials[job] == Some(bytes)
      ensures changed ==> !ok && old(partials)[job].None?
      ensures old(partials)[job].Some? ==> partials == old(partials)
      ensures calm ==> (ok <==> old(partials)[job].None?) && !changed
    {
      if partials[job].Some? { return false, false; }
      partials := partials[job := Some("")];
      if !calm { if * { return false, true; } }
      if !calm { if * { return false, false; } }
      partials := partials[job := Some(bytes)];
      return true, false;
    }

    /** A second attempt is made once, and only when the source changed while it was read. */
    method WriteWithRetry(job: string, bytes: string, calm: bool) returns (ok: bool)
      requires job in partials
      modifies this`partials
      ensures job in partials && partials == old(partials)[job := partials[job]]
      ensures ok ==> old(partials)[job].None? && partials[job] == Some(bytes)
      ensures calm ==> (ok <==> old(partials)[job].None?)
    {
      var attempt := 0;
      while attempt < 2
        invariant job in partials && partials == old(partials)[job := partials[job]]
        invariant attempt == 0 ==> partials == old(partials)
        invariant attempt > 0 ==> old(partials)[job].None? && !calm
      {
        if attempt > 0 { partials := partials[job := None]; }
        var written, changed := WriteArchive(job, bytes, calm);
        if !changed || attempt == 1 { return written; }
        attempt := attempt + 1;
      }
      return false;
    }

    /** Renames the archive out of the partial directory. A failed rename can leave the new directory empty. */
    method CommitArchive(job: string, deploy: string, timestamp: string, suffix: string, calm: bool) returns (directory: Option<string>)
      requires job in partials && partials[job].Some?
      modifies this`partials, this`finals
      ensures directory.Some? ==> directory.value == Chosen(old(finals), deploy, timestamp, suffix)
      ensures directory.Some? ==>
        partials == old(partials)[job := None]
        && finals == old(finals)[directory.value :=
             Final(old(partials)[job], if directory.value in old(finals) then old(finals)[directory.value].manifest else None)]
      ensures old(Valid()) ==>
        (Valid() <==> Spares(store.snapshots, finals, Chosen(old(finals), deploy, timestamp, suffix), old(partials)[job].value, digest))
      ensures directory.None? ==> partials == old(partials)
      ensures directory.None? ==>
        finals == old(finals) || finals == old(finals)[Chosen(old(finals), deploy, timestamp, suffix) := Final(None, None)]
      ensures directory.None? ==> forall d | d in old(finals) :: d in finals && finals[d] == old(finals)[d]
      ensures directory.Some? ==> Paths.SafeSegment(timestamp) && Paths.SafeSegment(deploy) && Paths.SafeSegment(suffix)
      ensures calm ==> (directory.Some? <==> Paths.SafeSegment(timestamp) && Paths.SafeSegment(deploy) && Paths.SafeSegment(suffix))
    {
      if !Paths.SafeSegment(timestamp) || !Paths.SafeSegment(deploy) || !Paths.SafeSegment(suffix) { return None; }
      var target := deploy + "/" + timestamp;
      if target in finals { target := deploy + "/" + timestamp + "-" + suffix; }
      if !calm { if * { return None; } }
      ghost var was := finals;
      if target !in finals { finals := finals[target := Final(None, None)]; }
      if !calm { if * { return None; } }
      finals := finals[target := finals[target].(archive := partials[job])];
      if old(Valid()) { OverwritingUnbacks(store.snapshots, was, digest, target, partials[job].value, finals[target]); }
      assert finals == was[target := finals[target]];
      partials := partials[job := None];
      return Some(target);
    }

    /** Written beside the archive under another name and renamed, so it is there whole or not at all. */
    method WriteManifest(directory: string, text: string, calm: bool) returns (ok: bool)
      requires directory in finals
      modifies this`finals
      ensures finals == old(finals) || finals == old(finals)[directory := old(finals)[directory].(manifest := Some(text))]
      ensures ok ==> finals[directory].manifest == Some(text)
      ensures calm ==> ok
    {
      if !calm { if * { return false; } }
      finals := finals[directory := finals[directory].(manifest := Some(text))];
      if !calm { if * { return false; } }
      return true;
    }

    method QuickVerify(directory: string, size: int, expected: string, calm: bool) returns (ok: bool)
      ensures ok ==> directory in finals && finals[directory].manifest.Some? && finals[directory].archive.Some?
      ensures ok ==> |finals[directory].archive.value| == size && digest(finals[directory].archive.value) == expected
      ensures calm && directory in finals && finals[directory].manifest.Some? && finals[directory].archive.Some? ==>
        (ok <==> |finals[directory].archive.value| == size && digest(finals[directory].archive.value) == expected)
    {
      if directory !in finals || finals[directory].manifest.None? || finals[directory].archive.None? { return false; }
      var bytes := finals[directory].archive.value;
      if |bytes| != size || digest(bytes) != expected { return false; }
      if !calm { if * { return false; } }
      return true;
    }

    /** What a call may have made of the control database. */
    ghost predicate Stored(before: State, work: Work, directory: string)
      reads this, store
    {
      store.View() == CommitSnapshot(before, SnapshotId(work.job), RowOf(work, directory, digest))
    }

    /** Every step may fail, which runs the clean-up, or be the last one of the process, which does not. */
    method Execute(work: Work, calm: bool) returns (end: Ending)
      modifies this, store
      ensures old(Valid()) && old(Unclaimed(store.snapshots, Chosen(finals, work.deploy, work.timestamp, ShortId(work.job)))) ==> Valid()
      ensures end == Committed ==>
        var row := RowOf(work, Chosen(old(finals), work.deploy, work.timestamp, ShortId(work.job)), digest);
        Commits(old(store.View()), SnapshotId(work.job), row) && Backed(row, finals, digest) && work.job !in partials
      ensures end == Committed ==> Stored(old(store.View()), work, Chosen(old(finals), work.deploy, work.timestamp, ShortId(work.job)))
      ensures store.View() == old(store.View())
        || (end != GaveUp && Stored(old(store.View()), work, Chosen(old(finals), work.deploy, work.timestamp, ShortId(work.job))))
      ensures end == GaveUp ==> work.job !in partials || partials == old(partials)
      ensures end == Committed ==> finals == FinalsAfter(old(finals), work)
      ensures old(Valid()) ==>
        (Valid() <==> Spares(old(store.snapshots), finals, Chosen(old(finals), work.deploy, work.timestamp, ShortId(work.job)), work.bytes, digest))
      ensures end == GaveUp ==> Abandoned(old(finals), finals, Chosen(old(finals), work.deploy, work.timestamp, ShortId(work.job)))
      ensures end == Committed ==> Storable(work, old(partials))
      ensures calm ==> if Storable(work, old(partials)) && Commits(old(store.View()), SnapshotId(work.job),
                           RowOf(work, Chosen(old(finals), work.deploy, work.timestamp, ShortId(work.job)), digest))
                       then end == Committed else end == GaveUp
    {
      hide RowsBacked, Unclaimed, CommitSnapshot, Commits, Backed, Matches, Spares, Chosen, ShortId, SnapshotId, RowOf;
      ghost var target, was, rows := Chosen(finals, work.deploy, work.timestamp, ShortId(work.job)), finals, store.snapshots;
      if old(Valid()) { UntouchedSpares(rows, was, finals, digest, target, work.bytes); }
      if Unclaimed(rows, target) { UnclaimedIsSpared(rows, digest, target, work.bytes); }
      if !calm { if * { return GaveUp; } }
      var created := CreatePartial(work.job, calm);
      if !created { return GaveUp; }
      if !calm { if * { return Crashed; } }
      var written := WriteWithRetry(work.job, work.bytes, calm);
      if !calm { if * { return Crashed; } }
      if !written {
        partials := Without(partials, work.job);
        return GaveUp;
      }
      end := Deliver(work, calm);
      if end == Crashed { return; }
      if !calm { if * { return Crashed; } }
      partials := Without(partials, work.job);
    }

    /** The archive is written: its size and digest, its final directory, and the rest there. */
    method Deliver(work: Work, calm: bool) returns (end: Ending)
      requires work.job in partials && partials[work.job] == Some(work.bytes)
      modifies this, store
      ensures end == Committed ==>
        var row := RowOf(work, Chosen(old(finals), work.deploy, work.timestamp, ShortId(work.job)), digest);
        Commits(old(store.View()), SnapshotId(work.job), row) && Backed(row, finals, digest)
      ensures end == Committed ==> Stored(old(store.View()), work, Chosen(old(finals), work.deploy, work.timestamp, ShortId(work.job)))
      ensures store.View() == old(store.View())
        || (end != GaveUp && Stored(old(store.View()), work, Chosen(old(finals), work.deploy, work.timestamp, ShortId(work.job))))
      ensures end == Committed ==> finals == FinalsAfter(old(finals), work)
      ensures old(Valid()) ==>
        (Valid() <==> Spares(old(store.snapshots), finals, Chosen(old(finals), work.deploy, work.timestamp, ShortId(work.job)), work.bytes, digest))
      ensures end == GaveUp ==> Abandoned(old(finals), finals, Chosen(old(finals), work.deploy, work.timestamp, ShortId(work.job)))
      ensures end == Committed ==> Paths.SafeSegment(work.deploy) && Paths.SafeSegment(work.timestamp) && Paths.SafeSegment(ShortId(work.job))
      ensures calm ==> if Paths.SafeSegment(work.deploy) && Paths.SafeSegment(work.timestamp) && Paths.SafeSegment(ShortId(work.job))
                          && Commits(old(store.View()), SnapshotId(work.job),
                               RowOf(work, Chosen(old(finals), work.deploy, work.timestamp, ShortId(work.job)), digest))
                       then end == Committed else end == GaveUp
    {
      hide RowsBacked, Unclaimed, CommitSnapshot, Commits, Backed, Matches, Spares, Chosen, ShortId, SnapshotId, RowOf;
      ghost var was := finals;
      var size, sum := |work.bytes|, digest(work.bytes);
      var directory := CommitArchive(work.job, work.deploy, work.timestamp, ShortId(work.job), calm);
      if !calm { if * { return Crashed; } }
      if directory.None? { return GaveUp; }
      end := Publish(work, directory.value, size, sum, calm, was);
    }

    /** The archive is in place: manifest, verification, row. On failure the directory is removed. */
    method Publish(work: Work, directory: string, size: nat, sum: string, calm: bool, ghost was: map<string, Final>) returns (end: Ending)
      requires directory in finals && finals[directory].archive == Some(work.bytes)
      requires size == |work.bytes| && sum == digest(work.bytes)
      requires finals == was[directory := finals[directory]]
      requires directory in was ==> finals[directory].manifest == was[directory].manifest
      modifies this`finals, store
      ensures RowsBacked(old(store.snapshots), was, digest) ==>
        (Valid() <==> Spares(old(store.snapshots), finals, directory, work.bytes, digest))
      ensures end == GaveUp ==> finals == Without(was, directory) && store.View() == old(store.View())
      ensures end != GaveUp ==> directory in finals && finals == was[directory := finals[directory]] && finals[directory].archive == Some(work.bytes)
      ensures end == Committed ==>
        var row := RowOf(work, directory, digest);
        Commits(old(store.View()), SnapshotId(work.job), row) && Backed(row, finals, digest)
      ensures end == Committed ==> Stored(old(store.View()), work, directory) && finals[directory].manifest == Some(work.manifest)
      ensures store.View() == old(store.View()) || (end != GaveUp && Stored(old(store.View()), work, directory))
      ensures calm ==>
        end == if Commits(old(store.View()), SnapshotId(work.job), RowOf(work, directory, digest)) then Committed else GaveUp
    {
      hide RowsBacked, Unclaimed, CommitSnapshot, Commits, Backed, Spares, Matches;
      end := Record(work, directory, size, sum, calm, was);
      if end == GaveUp {
        ghost var there := finals[directory];
        if RowsBacked(store.snapshots, was, digest) { RemovalUnbacks(store.snapshots, was, digest, directory, there); }
        finals := Without(finals, directory);
        GoneSpares(store.snapshots, finals, digest, directory, work.bytes);
      }
    }

    /** The three writes, up to the first that fails. */
    method Record(work: Work, directory: string, size: nat, sum: string, calm: bool, ghost was: map<string, Final>) returns (end: Ending)
      requires directory in finals && finals[directory].archive == Some(work.bytes)
      requires size == |work.bytes| && sum == digest(work.bytes)
      requires finals == was[directory := finals[directory]]
      requires directory in was ==> finals[directory].manifest == was[directory].manifest
      modifies this`finals, store
      ensures directory in finals && finals == was[directory := finals[directory]] && finals[directory].archive == Some(work.bytes)
      ensures RowsBacked(old(store.snapshots), was, digest) ==>
        (Valid() <==> Spares(old(store.snapshots), finals, directory, work.bytes, digest))
      ensures end == Committed ==>
        var row := RowOf(work, directory, digest);
        Commits(old(store.View()), SnapshotId(work.job), row) && Backed(row, finals, digest)
      ensures end == Committed ==> Stored(old(store.View()), work, directory) && finals[directory].manifest == Some(work.manifest)
      ensures store.View() == old(store.View()) || (end != GaveUp && Stored(old(store.View()), work, directory))
      ensures calm ==>
        end == if Commits(old(store.View()), SnapshotId(work.job), RowOf(work, directory, digest)) then Committed else GaveUp
    {
      hide RowsBacked, Unclaimed, CommitSnapshot, Commits, Matches, Spares;
      var manifested := WriteManifest(directory, work.manifest, calm);
      if RowsBacked(store.snapshots, was, digest) { OverwritingUnbacks(store.snapshots, was, digest, directory, work.bytes, finals[directory]); }
      HoldsSpares(store.snapshots, finals, digest, directory, work.bytes);
      if !calm { if * { return Crashed; } }
      if !manifested { return GaveUp; }
      var verified := QuickVerify(directory, size, sum, calm);
      if !verified { return GaveUp; }
      if !calm { if * { return Crashed; } }
      var row := Snapshot(work.job, work.plan, directory, size, sum, work.capturedAt, work.finishedAt, Verified, Kept, None);
      ghost var before := store.View();
      var stored := store.InsertSnapshot(SnapshotId(work.job), row);
      if stored != Done { RejectedRow(before, SnapshotId(work.job), row); return GaveUp; }
      AddedRow(before, finals, digest, SnapshotId(work.job), row);
      if !calm { if * { return Crashed; } }
      return Committed;
    }

    /** Takes the job, runs it, and records a failure; that record may itself be lost. */
    method ExecuteJob(work: Work, code: string, started: int, ended: int, calm: bool) returns (end: Ending)
      modifies this, store
      ensures old(Valid()) && old(Unclaimed(store.snapshots, Chosen(finals, work.deploy, work.timestamp, ShortId(work.job)))) ==> Valid()
      ensures end == Committed ==>
        StartsJob(old(store.View()), work.job)
        && Stored(StartJob(old(store.View()), work.job, started), work, Chosen(old(finals), work.deploy, work.timestamp, ShortId(work.job)))
        && SnapshotId(work.job) in store.snapshots && store.jobs[work.job].status == Succeeded
      ensures end == GaveUp ==>
        store.View() == FailJob(StartJob(old(store.View()), work.job, started), work.job, code, ended)
        || store.View() == StartJob(old(store.View()), work.job, started)
        || store.View() == old(store.View())
      ensures end == Crashed ==>
        store.View() == StartJob(old(store.View()), work.job, started)
        || Stored(StartJob(old(store.View()), work.job, started), work, Chosen(old(finals), work.deploy, work.timestamp, ShortId(work.job)))
      ensures old(Valid()) ==>
        (Valid() <==> Spares(old(store.snapshots), finals, Chosen(old(finals), work.deploy, work.timestamp, ShortId(work.job)), work.bytes, digest))
      ensures end == GaveUp ==> Abandoned(old(finals), finals, Chosen(old(finals), work.deploy, work.timestamp, ShortId(work.job)))
      ensures !StartsJob(old(store.View()), work.job) ==> end == GaveUp && store.View() == old(store.View())
      ensures !StartsJob(old(store.View()), work.job) ==> finals == old(finals) && partials == old(partials)
      ensures end == Committed ==> Storable(work, old(partials))
      ensures calm && StartsJob(old(store.View()), work.job) ==>
        var s := StartJob(old(store.View()), work.job, started);
        var row := RowOf(work, Chosen(old(finals), work.deploy, work.timestamp, ShortId(work.job)), digest);
        if Storable(work, old(partials)) && Commits(s, SnapshotId(work.job), row) then end == Committed
        else end == GaveUp && store.View() == FailJob(s, work.job, code, ended)
    {
      var taken := store.StartBackupJob(work.job, started);
      if taken != Done { return GaveUp; }
      if !calm { if * { return Crashed; } }
      hide RowsBacked, Unclaimed, Backed;
      end := Execute(work, calm);
      if end == GaveUp {
        if !calm { if * { return Crashed; } }
        var recorded := calm;
        if !calm { recorded := *; }
        if recorded { var ignored := store.FailBackupJob(work.job, code, ended); }
      }
    }
  }

  /** After a commit all rows are backed exactly when the rows that lived in its directory describe the same bytes. */
  lemma CommitIsExact(before: State, finals: map<string, Final>, work: Work, digest: Digest)
    requires var directory := Chosen(finals, work.deploy, work.timestamp, ShortId(work.job));
      Commits(before, SnapshotId(work.job), RowOf(work, directory, digest))
    ensures var directory := Chosen(finals, work.deploy, work.timestamp, ShortId(work.job));
      var after := CommitSnapshot(before, SnapshotId(work.job), RowOf(work, directory, digest));
      RowsBacked(before.snapshots, finals, digest) ==>
        (RowsBacked(after.snapshots, FinalsAfter(finals, work), digest) <==> Matches(before.snapshots, directory, work.bytes, digest))
  {
    hide Chosen, SnapshotId, ShortId;
    var directory := Chosen(finals, work.deploy, work.timestamp, ShortId(work.job));
    var row := RowOf(work, directory, digest);
    var there := Final(Some(work.bytes), Some(work.manifest));
    if RowsBacked(before.snapshots, finals, digest) {
      OverwritingUnbacks(before.snapshots, finals, digest, directory, work.bytes, there);
      assert Backed(row, FinalsAfter(finals, work), digest);
      hide Matches, Backed;
      AddedRow(before, FinalsAfter(finals, work), digest, SnapshotId(work.job), row);
    }
  }

  lemma AddedRow(before: State, finals: map<string, Final>, digest: Digest, id: string, row: Snapshot)
    requires Commits(before, id, row) && Backed(row, finals, digest)
    ensures RowsBacked(CommitSnapshot(before, id, row).snapshots, finals, digest) <==> RowsBacked(before.snapshots, finals, digest)
  {
    hide Backed;
    var after := CommitSnapshot(before, id, row).snapshots;
    assert forall k | k in before.snapshots :: k in after && after[k] == before.snapshots[k];
  }

  lemma RejectedRow(before: State, id: string, row: Snapshot)
    requires !Commits(before, id, row)
    ensures CommitSnapshot(before, id, row) == before
  {}

  // ---------------------------------------------------------------- a claimed directory is reached

  function JobFor(work: Work): Job
  {
    Job(work.deploy, work.plan, "", "", Queued, "", "", work.capturedAt, None, None)
  }

  /** The state in which the job of the work runs, created and started from s. */
  function Started(s: State, work: Work): State
  {
    StartJob(CreateJob(s, work.job, JobFor(work)), work.job, work.capturedAt)
  }

  function RowFor(finals: map<string, Final>, work: Work, digest: Digest): Snapshot
  {
    RowOf(work, Chosen(finals, work.deploy, work.timestamp, ShortId(work.job)), digest)
  }

  /** A job for the work is created, started and committed, each step accepted. */
  predicate Serves(s: State, finals: map<string, Final>, work: Work, digest: Digest)
  {
    CreatesJob(s, work.job, JobFor(work)) && StartsJob(CreateJob(s, work.job, JobFor(work)), work.job)
    && Commits(Started(s, work), SnapshotId(work.job), RowFor(finals, work, digest))
  }

  function Served(s: State, finals: map<string, Final>, work: Work, digest: Digest): State
  {
    CommitSnapshot(Started(s, work), SnapshotId(work.job), RowFor(finals, work, digest))
  }

  lemma StartedJob(s: State, work: Work)
    requires work.job != "" && work.deploy != "" && work.job !in s.jobs && forall j | j in s.jobs :: s.jobs[j].status == Succeeded
    ensures CreatesJob(s, work.job, JobFor(work)) && StartsJob(CreateJob(s, work.job, JobFor(work)), work.job)
    ensures var r := Started(s, work);
      r.snapshots == s.snapshots && r.jobs.Keys == s.jobs.Keys + {work.job} && r.jobs[work.job].status == Running
      && forall j | j in s.jobs :: r.jobs[j] == s.jobs[j]
  {}

  lemma RowIsNamed(finals: map<string, Final>, work: Work, digest: Digest)
    ensures SnapshotId(work.job) != "" && RowFor(finals, work, digest).path != ""
  {}

  lemma ServedRows(s: State, finals: map<string, Final>, work: Work, digest: Digest)
    requires work.job != "" && work.deploy != "" && digest(work.bytes) != ""
    requires work.job !in s.jobs && SnapshotId(work.job) !in s.snapshots
    requires (forall j | j in s.jobs :: s.jobs[j].status == Succeeded) && forall x | x in s.snapshots :: s.snapshots[x].job in s.jobs
    ensures Serves(s, finals, work, digest)
    ensures var r := Served(s, finals, work, digest);
      r.jobs.Keys == s.jobs.Keys + {work.job} && (forall j | j in r.jobs :: r.jobs[j].status == Succeeded)
      && r.snapshots == s.snapshots[SnapshotId(work.job) := RowFor(finals, work, digest)]
      && forall x | x in r.snapshots :: r.snapshots[x].job in r.jobs
  {
    hide SnapshotId, ShortId, Chosen, Started, CreatesJob, CreateJob, StartsJob;
    StartedJob(s, work);
    RowIsNamed(finals, work, digest);
  }

  /** Three jobs of one deployment captured at the same time, the last two with the same short id: all three commits are
      accepted, and the third takes the directory of the second's row. */
  lemma CollidingShortIds(a: Work, b: Work, c: Work, digest: Digest)
    requires a.job != "" && b.job != "" && c.job != "" && a.deploy == b.deploy == c.deploy != "" && a.timestamp == b.timestamp == c.timestamp
    requires a.job != b.job && a.job != c.job && b.job != c.job && ShortId(b.job) == ShortId(c.job)
    requires SnapshotId(a.job) != SnapshotId(b.job) && SnapshotId(a.job) != SnapshotId(c.job) && SnapshotId(b.job) != SnapshotId(c.job)
    requires digest(a.bytes) != "" && digest(b.bytes) != "" && digest(c.bytes) != "" && digest(b.bytes) != digest(c.bytes)
    ensures var one, oneFinals := Served(EMPTY, map[], a, digest), FinalsAfter(map[], a);
      var two, twoFinals := Served(one, oneFinals, b, digest), FinalsAfter(oneFinals, b);
      var three, threeFinals := Served(two, twoFinals, c, digest), FinalsAfter(twoFinals, c);
      Serves(EMPTY, map[], a, digest) && Serves(one, oneFinals, b, digest) && Serves(two, twoFinals, c, digest)
      && RowsBacked(two.snapshots, twoFinals, digest)
      && !Unclaimed(two.snapshots, Chosen(twoFinals, c.deploy, c.timestamp, ShortId(c.job)))
      && !RowsBacked(three.snapshots, threeFinals, digest)
  {
    hide Serves, Served, SnapshotId, ShortId;
    var one, oneFinals := Served(EMPTY, map[], a, digest), FinalsAfter(map[], a);
    ServedRows(EMPTY, map[], a, digest);
    var two, twoFinals := Served(one, oneFinals, b, digest), FinalsAfter(oneFinals, b);
    ServedRows(one, oneFinals, b, digest);
    var three, threeFinals := Served(two, twoFinals, c, digest), FinalsAfter(twoFinals, c);
    ServedRows(two, twoFinals, c, digest);
    var first, second := a.deploy + "/" + a.timestamp, a.deploy + "/" + a.timestamp + "-" + ShortId(b.job);
    assert |first| < |second|;
    assert twoFinals == map[first := Final(Some(a.bytes), Some(a.manifest)), second := Final(Some(b.bytes), Some(b.manifest))];
    assert Chosen(twoFinals, c.deploy, c.timestamp, ShortId(c.job)) == second;
    assert two.snapshots[SnapshotId(b.job)].path == second && two.snapshots[SnapshotId(b.job)].retention == Kept;
    assert three.snapshots[SnapshotId(b.job)] == two.snapshots[SnapshotId(b.job)];
    assert !Backed(three.snapshots[SnapshotId(b.job)], threeFinals, digest);
  }

  const FIRST := Work("backup-00000000", "notes", "plan", "night", "1", "{}", 0, 0)
  const SECOND := Work("backup-12345678b", "notes", "plan", "night", "2", "{}", 0, 0)
  const THIRD := Work("backup-12345678c", "notes", "plan", "night", "3", "{}", 0, 0)

  /** Refused after its archive has moved, the commit removes the directory it had chosen, whatever the bytes. */
  lemma RefusalUnbacks(snapshots: map<string, Snapshot>, finals: map<string, Final>, work: Work, digest: Digest)
    requires RowsBacked(snapshots, finals, digest)
    ensures var directory := Chosen(finals, work.deploy, work.timestamp, ShortId(work.job));
      RowsBacked(snapshots, Without(FinalsAfter(finals, work), directory), digest) <==> Unclaimed(snapshots, directory)
  {
    hide Chosen, ShortId, RowsBacked, Unclaimed, Without;
    RemovalUnbacks(snapshots, finals, digest, Chosen(finals, work.deploy, work.timestamp, ShortId(work.job)), Final(Some(work.bytes), Some(work.manifest)));
  }

  /** Three concrete jobs that do it, whether the third is accepted or refused at the end; the storage layer accepts
      every name in their paths. */
  lemma CollidingWorks(digest: Digest)
    requires digest("1") != "" && digest("2") != "" && digest("3") != "" && digest("2") != digest("3")
    ensures var one, oneFinals := Served(EMPTY, map[], FIRST, digest), FinalsAfter(map[], FIRST);
      var two, twoFinals := Served(one, oneFinals, SECOND, digest), FinalsAfter(oneFinals, SECOND);
      var three, threeFinals := Served(two, twoFinals, THIRD, digest), FinalsAfter(twoFinals, THIRD);
      Serves(EMPTY, map[], FIRST, digest) && Serves(one, oneFinals, SECOND, digest) && Serves(two, twoFinals, THIRD, digest)
      && RowsBacked(two.snapshots, twoFinals, digest) && !RowsBacked(three.snapshots, threeFinals, digest)
      && !RowsBacked(two.snapshots, Without(threeFinals, Chosen(twoFinals, THIRD.deploy, THIRD.timestamp, ShortId(THIRD.job))), digest)
    ensures Paths.SafeSegment(THIRD.deploy) && Paths.SafeSegment(THIRD.timestamp) && Paths.SafeSegment(ShortId(THIRD.job))
  {
    ShortIdsCollide();
    hide ShortId, SnapshotId, Served, Serves, RowsBacked, FinalsAfter, Unclaimed, Chosen;
    CollidingShortIds(FIRST, SECOND, THIRD, digest);
    var one, oneFinals := Served(EMPTY, map[], FIRST, digest), FinalsAfter(map[], FIRST);
    RefusalUnbacks(Served(one, oneFinals, SECOND, digest).snapshots, FinalsAfter(oneFinals, SECOND), THIRD, digest);
  }

  lemma ShortIdsCollide()
    ensures ShortId("backup-12345678b") == "12345678" == ShortId("backup-12345678c")
    ensures SnapshotId("backup-00000000") != SnapshotId("backup-12345678b")
    ensures SnapshotId("backup-12345678b") != SnapshotId("backup-12345678c")
    ensures SnapshotId("backup-00000000") != SnapshotId("backup-12345678c")
  {
    var p, x, y, z := "backup-", "12345678b", "12345678c", "00000000";
    assert p + x == "backup-12345678b" && p + y == "backup-12345678c" && p + z == "backup-00000000";
    assert (p + x)[|p|..] == x && (p + y)[|p|..] == y && (p + z)[|p|..] == z;
    assert ("snapshot-" + x)[17] == 'b' && ("snapshot-" + y)[17] == 'c';
    assert |"snapshot-" + z| == 17;
  }
}
