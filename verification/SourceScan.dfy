/** What a backup may archive: the partition of a source scan, and the scope filter over it. */
module SourceScan {
  import opened Tables
  import Scopes
  import Text

  datatype Finding = NoFinding | Sqlite | Unsupported

  /** What the directory walk says about one path; only a regular file can carry the SQLite header. Unreadable stands
      for a path whose entry or attributes cannot be read, and for a walk that is cancelled there. */
  datatype Kind = Folder(database: bool) | Regular(size: nat, finding: Finding) | Link | Special | Unreadable

  datatype Scanned = Scanned(relative: string, kind: Kind)

  datatype Entry = Entry(relative: string, size: nat)

  datatype Capability = Backupable | SharedWarning | NoData | UnsupportedDatabase

  datatype SourcePlan = SourcePlan(
    directories: seq<Entry>, files: seq<Entry>, sqlite: seq<Entry>,
    fileCount: nat, sqliteCount: nat, skippedCount: nat, totalBytes: nat, capability: Capability)
  {
    function ArchiveFileCount(): nat { |files| + |sqlite| }
  }

  // ---------------------------------------------------------------- companions of a database file

  const SUFFIXES: set<string> := {"-wal", "-shm", "-journal"}

  /** relative is the write-ahead log, shared memory or journal of one of the databases. */
  predicate Companion(relative: string, databases: set<string>)
  {
    exists suffix | suffix in SUFFIXES :: Text.HasSuffix(relative, suffix) && relative[..|relative| - |suffix|] in databases
  }

  lemma OneSuffix(relative: string, a: string, b: string)
    requires a in SUFFIXES && b in SUFFIXES && Text.HasSuffix(relative, a) && Text.HasSuffix(relative, b)
    ensures a == b
  {
    var k := |relative| - 3;
    assert relative[k] == a[|a| - 3] && relative[k] == b[|b| - 3];
  }

  /** The loop visits the suffixes in any order and stops at the first that fits; the order does not show. */
  lemma CompanionMeans(relative: string, databases: set<string>)
    ensures Companion(relative, databases) <==>
      exists base | base in databases :: relative == base + "-wal" || relative == base + "-shm" || relative == base + "-journal"
  {
    forall suffix, base ensures relative == base + suffix <==> Text.HasSuffix(relative, suffix) && relative[..|relative| - |suffix|] == base {}
    if Companion(relative, databases) {
      var suffix :| suffix in SUFFIXES && Text.HasSuffix(relative, suffix) && relative[..|relative| - |suffix|] in databases;
      var base := relative[..|relative| - |suffix|];
      assert relative == base + suffix;
    }
    if base :| base in databases && (relative == base + "-wal" || relative == base + "-shm" || relative == base + "-journal") {
      var suffix := if relative == base + "-wal" then "-wal" else if relative == base + "-shm" then "-shm" else "-journal";
      assert relative == base + suffix && suffix in SUFFIXES;
    }
  }

  method HasSqliteCompanion(relative: string, databases: set<string>) returns (r: bool)
    ensures r == Companion(relative, databases)
    ensures r <==> exists base | base in databases :: relative == base + "-wal" || relative == base + "-shm" || relative == base + "-journal"
  {
    CompanionMeans(relative, databases);
    var left := SUFFIXES;
    while left != {}
      invariant left <= SUFFIXES
      invariant forall suffix | suffix in SUFFIXES - left :: !Text.HasSuffix(relative, suffix)
      decreases left
    {
      var suffix :| suffix in left;
      var base := Text.TrimSuffix(relative, suffix);
      if base != relative {
        forall other | other in SUFFIXES && Text.HasSuffix(relative, other) ensures other == suffix {
          OneSuffix(relative, other, suffix);
        }
        return base in databases;
      }
      assert |suffix| > 0;
      left := left - {suffix};
    }
    return false;
  }

  // ---------------------------------------------------------------- the scan

  const MAX_ENTRIES := 100_000

  function Folders(scan: seq<Scanned>): seq<Entry>
  {
    if scan == [] then []
    else Folders(scan[..|scan| - 1]) + (var x := scan[|scan| - 1]; if x.kind.Folder? then [Entry(x.relative, 0)] else [])
  }

  function RegularFiles(scan: seq<Scanned>): seq<Entry>
  {
    if scan == [] then []
    else RegularFiles(scan[..|scan| - 1])
         + (var x := scan[|scan| - 1]; if x.kind.Regular? then [Entry(x.relative, x.kind.size)] else [])
  }

  function Databases(scan: seq<Scanned>): set<string>
  {
    set x | x in scan && x.kind.Regular? && x.kind.finding == Sqlite :: x.relative
  }

  predicate Foreign(scan: seq<Scanned>)
  {
    exists x | x in scan :: (x.kind.Folder? && x.kind.database) || (x.kind.Regular? && x.kind.finding == Unsupported)
  }

  /** The walk ends with an error. */
  predicate Fails(scan: seq<Scanned>)
  {
    |scan| > MAX_ENTRIES || exists x | x in scan :: x.kind.Unreadable?
  }

  predicate DistinctPaths(scan: seq<Scanned>)
  {
    forall i, j | 0 <= i < j < |scan| :: scan[i].relative != scan[j].relative
  }

  function Bytes(entries: seq<Entry>): nat
  {
    if entries == [] then 0 else Bytes(entries[..|entries| - 1]) + entries[|entries| - 1].size
  }

  // ---------------------------------------------------------------- the partition

  datatype Part = Database | Dropped | Plain

  function PartOf(relative: string, databases: set<string>): Part
  {
    if relative in databases then Database else if Companion(relative, databases) then Dropped else Plain
  }

  /** The entries of one part, in scan order. */
  function Only(entries: seq<Entry>, databases: set<string>, part: Part): seq<Entry>
  {
    if entries == [] then []
    else
      var last := entries[|entries| - 1];
      Only(entries[..|entries| - 1], databases, part) + (if PartOf(last.relative, databases) == part then [last] else [])
  }

  lemma {:induction false} PartsAddUp(entries: seq<Entry>, databases: set<string>)
    ensures multiset(entries) == multiset(Only(entries, databases, Database))
      + multiset(Only(entries, databases, Dropped)) + multiset(Only(entries, databases, Plain))
  {
    if entries != [] {
      PartsAddUp(entries[..|entries| - 1], databases);
      LastAddsUp(entries, databases);
    }
  }

  lemma LastAddsUp(entries: seq<Entry>, databases: set<string>)
    requires entries != []
    requires var init := entries[..|entries| - 1];
      multiset(init) == multiset(Only(init, databases, Database))
        + multiset(Only(init, databases, Dropped)) + multiset(Only(init, databases, Plain))
    ensures multiset(entries) == multiset(Only(entries, databases, Database))
      + multiset(Only(entries, databases, Dropped)) + multiset(Only(entries, databases, Plain))
  {
    var init, last := entries[..|entries| - 1], entries[|entries| - 1];
    assert entries == init + [last];
    hide *;
    OnlyNext(init, last, databases, Database);
    OnlyNext(init, last, databases, Dropped);
    OnlyNext(init, last, databases, Plain);
    var a, b, c := Only(init, databases, Database), Only(init, databases, Dropped), Only(init, databases, Plain);
    OneMore(init, a, b, c, Only(entries, databases, Database), Only(entries, databases, Dropped), Only(entries, databases, Plain), last);
  }

  lemma OneMore(all: seq<Entry>, a: seq<Entry>, b: seq<Entry>, c: seq<Entry>,
                d: seq<Entry>, f: seq<Entry>, g: seq<Entry>, e: Entry)
    requires multiset(all) == multiset(a) + multiset(b) + multiset(c)
    requires (d == a + [e] && f == b && g == c) || (d == a && f == b + [e] && g == c) || (d == a && f == b && g == c + [e])
    ensures multiset(all + [e]) == multiset(d) + multiset(f) + multiset(g)
  {
    assert multiset(all + [e]) == multiset(all) + multiset{e};
    if d == a + [e] && f == b && g == c { assert multiset(d) == multiset(a) + multiset{e}; }
    else if f == b + [e] && d == a && g == c { assert multiset(f) == multiset(b) + multiset{e}; }
    else { assert multiset(g) == multiset(c) + multiset{e}; }
  }

  lemma OnlyNext(entries: seq<Entry>, e: Entry, databases: set<string>, part: Part)
    ensures Only(entries + [e], databases, part)
      == if PartOf(e.relative, databases) == part then Only(entries, databases, part) + [e] else Only(entries, databases, part)
  {
    hide PartOf;
    assert (entries + [e])[..|entries|] == entries;
  }

  lemma {:induction false} OnlyMembers(entries: seq<Entry>, databases: set<string>, part: Part, e: Entry)
    ensures e in Only(entries, databases, part) <==> e in entries && PartOf(e.relative, databases) == part
  {
    if entries != [] {
      OnlyMembers(entries[..|entries| - 1], databases, part, e);
      assert entries == entries[..|entries| - 1] + [entries[|entries| - 1]];
    }
  }

  lemma NothingPartitioned(entries: seq<Entry>, databases: set<string>)
    ensures Only(entries[..0], databases, Plain) == [] && Only(entries[..0], databases, Database) == []
  {}

  /** Filters the slice in place: kept entries are written over the ones already read. */
  method Partition(files: array<Entry>, count: nat, databases: set<string>) returns (kept: nat, sqlite: seq<Entry>)
    requires count <= files.Length
    modifies files
    ensures kept <= count && files[..kept] == Only(old(files[..count]), databases, Plain)
    ensures sqlite == Only(old(files[..count]), databases, Database)
    ensures files[count..] == old(files[count..])
  {
    hide Only, Companion;
    kept, sqlite := 0, [];
    ghost var all := files[..count];
    NothingPartitioned(all, databases);
    for i := 0 to count
      invariant kept <= i
      invariant files[..kept] == Only(all[..i], databases, Plain)
      invariant sqlite == Only(all[..i], databases, Database)
      invariant forall k | i <= k < files.Length :: files[k] == old(files[k])
    {
      var entry := files[i];
      assert entry == all[i] && all[..i + 1] == all[..i] + [entry];
      OnlyNext(all[..i], entry, databases, Plain);
      OnlyNext(all[..i], entry, databases, Database);
      if entry.relative in databases { sqlite := sqlite + [entry]; continue; }
      var companion := HasSqliteCompanion(entry.relative, databases);
      if companion { continue; }
      files[kept] := entry;
      kept := kept + 1;
      assert files[..kept] == files[..kept - 1] + [entry];
    }
    assert all[..count] == all;
  }

  lemma DatabaseIs(all: seq<Scanned>, k: nat)
    requires DistinctPaths(all) && k < |all|
    ensures all[k].relative in Databases(all) <==> all[k].kind.Regular? && all[k].kind.finding == Sqlite
    ensures Databases(all[..k + 1]) == Databases(all[..k]) + (if all[k].relative in Databases(all) then {all[k].relative} else {})
    ensures all[k].relative !in Databases(all[..k])
  {
    assert all[..k + 1] == all[..k] + [all[k]];
    assert all[k] in all;
    if all[k].relative in Databases(all) {
      var x :| x in all && x.kind.Regular? && x.kind.finding == Sqlite && x.relative == all[k].relative;
      var i :| 0 <= i < |all| && all[i] == x;
    }
    forall x | x in all[..k] ensures x.relative != all[k].relative {
      var i :| 0 <= i < k && all[i] == x;
    }
  }

  /** Each SQLite header found belongs to one scanned file, so counting headers counts the part. */
  lemma {:induction false} DatabaseCount(all: seq<Scanned>, k: nat)
    requires DistinctPaths(all) && k <= |all|
    ensures |Only(RegularFiles(all[..k]), Databases(all), Database)| == |Databases(all[..k])|
  {
    if k > 0 {
      hide Databases, DistinctPaths, Companion;
      DatabaseCount(all, k - 1);
      DatabaseIs(all, k - 1);
      assert all[..k][..k - 1] == all[..k - 1];
      var rest := RegularFiles(all[..k - 1]);
      if all[k - 1].kind.Regular? {
        var e := Entry(all[k - 1].relative, all[k - 1].kind.size);
        assert RegularFiles(all[..k]) == rest + [e];
        assert (rest + [e])[..|rest|] == rest;
      } else {
        assert RegularFiles(all[..k]) == rest;
      }
    } else {
      NoDatabases(all[..0]);
    }
  }

  lemma NoDatabases(scan: seq<Scanned>)
    requires scan == []
    ensures Databases(scan) == {} && RegularFiles(scan) == []
  {}

  // ---------------------------------------------------------------- BuildPlan

  function Skipped(scan: seq<Scanned>): nat
  {
    if scan == [] then 0
    else Skipped(scan[..|scan| - 1]) + (var x := scan[|scan| - 1]; if x.kind.Link? || x.kind.Special? then 1 else 0)
  }

  /** The plan of a scan, part by part. */
  function Planned(scan: seq<Scanned>, multiInstance: bool): SourcePlan
  {
    var regular, databases := RegularFiles(scan), Databases(scan);
    var files, sqlite := Only(regular, databases, Plain), Only(regular, databases, Database);
    SourcePlan(Folders(scan), files, sqlite, |regular|, |databases|, Skipped(scan), Bytes(regular),
      if Foreign(scan) then UnsupportedDatabase
      else if |files| + |sqlite| == 0 then NoData
      else if multiInstance then Backupable else SharedWarning)
  }

  /** FileCount is the sum of the three parts, SQLiteCount the length of the list; every file is in exactly one part. */
  lemma PlanCounts(scan: seq<Scanned>, multiInstance: bool)
    requires DistinctPaths(scan)
    ensures var plan, dropped := Planned(scan, multiInstance), Only(RegularFiles(scan), Databases(scan), Dropped);
      plan.fileCount == |plan.files| + |plan.sqlite| + |dropped|
      && plan.sqliteCount == |plan.sqlite|
      && multiset(RegularFiles(scan)) == multiset(plan.files) + multiset(plan.sqlite) + multiset(dropped)
      && (forall e | e in plan.files :: e !in plan.sqlite && e !in dropped)
      && forall e | e in plan.sqlite :: e !in dropped
  {
    hide Only, RegularFiles, Databases, PartOf, Bytes, Folders, Skipped, Foreign, DistinctPaths;
    var regular, databases := RegularFiles(scan), Databases(scan);
    PartsAddUp(regular, databases);
    assert |multiset(regular)| == |regular|;
    assert scan[..|scan|] == scan;
    DatabaseCount(scan, |scan|);
    forall e ensures e in Only(regular, databases, Plain) ==> PartOf(e.relative, databases) == Plain
      ensures e in Only(regular, databases, Database) ==> PartOf(e.relative, databases) == Database
      ensures e in Only(regular, databases, Dropped) ==> PartOf(e.relative, databases) == Dropped
    {
      OnlyMembers(regular, databases, Plain, e);
      OnlyMembers(regular, databases, Database, e);
      OnlyMembers(regular, databases, Dropped, e);
    }
  }

  lemma ScanNext(scan: seq<Scanned>, i: nat)
    requires i < |scan|
    ensures var x, now, next := scan[i], scan[..i], scan[..i + 1];
      Folders(next) == Folders(now) + (if x.kind.Folder? then [Entry(x.relative, 0)] else [])
      && RegularFiles(next) == RegularFiles(now) + (if x.kind.Regular? then [Entry(x.relative, x.kind.size)] else [])
      && Skipped(next) == Skipped(now) + (if x.kind.Link? || x.kind.Special? then 1 else 0)
      && Databases(next) == Databases(now) + (if x.kind.Regular? && x.kind.finding == Sqlite then {x.relative} else {})
      && (Foreign(next) <==> (Foreign(now)
            || (x.kind.Folder? && x.kind.database) || (x.kind.Regular? && x.kind.finding == Unsupported)))
  {
    var next := scan[..i + 1];
    assert next[..i] == scan[..i] && next[i] == scan[i] && next == scan[..i] + [scan[i]];
    assert next[..|next| - 1] == scan[..i] && next[|next| - 1] == scan[i];
    assert forall x | x in scan[..i] :: x in next;
    assert scan[i] in next;
  }

  lemma BytesNext(entries: seq<Entry>, e: Entry)
    ensures Bytes(entries + [e]) == Bytes(entries) + e.size
  {
    assert (entries + [e])[..|entries|] == entries;
  }

  /** The callback of the directory walk over everything it met; None is its error. */
  method Walk(scan: seq<Scanned>)
    returns (r: Option<SourcePlan>, databases: set<string>, headers: nat, foreign: bool)
    requires DistinctPaths(scan)
    ensures r.None? <==> |scan| > 100_000 || exists x | x in scan :: x.kind.Unreadable?
    ensures r.Some? ==> databases == Databases(scan) && headers == |Databases(scan)| && foreign == Foreign(scan)
    ensures r.Some? ==> r.value == SourcePlan(Folders(scan), RegularFiles(scan), [], |RegularFiles(scan)|, 0, Skipped(scan), Bytes(RegularFiles(scan)), NoData)
  {
    hide Folders, RegularFiles, Skipped, Bytes, Databases, Foreign, DistinctPaths;
    databases, headers, foreign := {}, 0, false;
    var directories, files, fileCount, skippedCount, totalBytes := [], [], 0, 0, 0;
    WalkBegins(scan);
    for i := 0 to |scan|
      invariant i <= MAX_ENTRIES && forall k | 0 <= k < i :: !scan[k].kind.Unreadable?
      invariant directories == Folders(scan[..i]) && files == RegularFiles(scan[..i]) && fileCount == |files|
      invariant skippedCount == Skipped(scan[..i]) && totalBytes == Bytes(files)
      invariant databases == Databases(scan[..i]) && headers == |databases| && foreign == Foreign(scan[..i])
    {
      var x := scan[i];
      if x.kind.Unreadable? || i + 1 > MAX_ENTRIES {
        assert x in scan;
        return None, databases, headers, foreign;
      }
      ScanNext(scan, i);
      DatabaseIs(scan, i);
      match x.kind {
        case Link => skippedCount := skippedCount + 1;
        case Special => skippedCount := skippedCount + 1;
        case Folder(database) =>
          directories := directories + [Entry(x.relative, 0)];
          foreign := foreign || database;
        case Regular(size, finding) =>
          BytesNext(files, Entry(x.relative, size));
          fileCount, totalBytes := fileCount + 1, totalBytes + size;
          files := files + [Entry(x.relative, size)];
          if finding == Sqlite { databases, headers := databases + {x.relative}, headers + 1; }
          foreign := foreign || finding == Unsupported;
      }
    }
    assert scan[..|scan|] == scan;
    return Some(SourcePlan(directories, files, [], fileCount, 0, skippedCount, totalBytes, NoData)), databases, headers, foreign;
  }

  lemma WalkBegins(scan: seq<Scanned>)
    ensures var none := scan[..0];
      Folders(none) == [] && RegularFiles(none) == [] && Skipped(none) == 0 && Bytes([]) == 0 && Databases(none) == {} && !Foreign(none)
  {}

  method BuildPlan(scan: seq<Scanned>, multiInstance: bool) returns (r: Option<SourcePlan>)
    requires DistinctPaths(scan)
    ensures r == if Fails(scan) then None else Some(Planned(scan, multiInstance))
    ensures r.None? <==> |scan| > 100_000 || exists x | x in scan :: x.kind.Unreadable?
  {
    hide Only, RegularFiles, Databases, Bytes, Folders, Skipped, Foreign, DistinctPaths;
    var walked, databases, headers, foreign := Walk(scan);
    if walked.None? { return None; }
    var plan := walked.value;
    var files := new Entry[|plan.files|](i requires 0 <= i < |plan.files| => plan.files[i]);
    assert files[..|plan.files|] == plan.files;
    var kept, sqlite := Partition(files, |plan.files|, databases);
    plan := plan.(files := files[..kept], sqlite := sqlite, sqliteCount := headers);
    var capability := if multiInstance then Backupable else SharedWarning;
    if plan.ArchiveFileCount() == 0 { capability := NoData; }
    if foreign { capability := UnsupportedDatabase; }
    return Some(plan.(capability := capability));
  }

  // ---------------------------------------------------------------- ApplyScope

  function Relatives(entries: seq<Entry>): set<string>
  {
    set e | e in entries :: e.relative
  }

  function Chosen(entries: seq<Entry>, directories: seq<string>, files: seq<string>): seq<Entry>
  {
    if entries == [] then []
    else
      var last := entries[|entries| - 1];
      Chosen(entries[..|entries| - 1], directories, files)
        + (if Scopes.Selected(last.relative, directories, files) then [last] else [])
  }

  /** Every path the scope names is still there, and is of the right type. */
  predicate Present(plan: SourcePlan, directories: seq<string>, files: seq<string>)
  {
    (forall d | d in directories :: d in Relatives(plan.directories))
    && forall f | f in files :: f in Relatives(plan.files) + Relatives(plan.sqlite)
  }

  function Narrowed(plan: SourcePlan, directories: seq<string>, files: seq<string>): SourcePlan
  {
    var chosen, sqlite := Chosen(plan.files, directories, files), Chosen(plan.sqlite, directories, files);
    plan.(directories := Chosen(plan.directories, directories, files), files := chosen, sqlite := sqlite,
          fileCount := |chosen|, sqliteCount := |sqlite|, totalBytes := Bytes(chosen + sqlite))
  }

  predicate Accepts(plan: SourcePlan, directories: seq<string>, files: seq<string>)
  {
    Present(plan, directories, files) && Narrowed(plan, directories, files).ArchiveFileCount() > 0
  }

  method IsSelected(relative: string, directories: seq<string>, files: seq<string>) returns (r: bool)
    ensures r == Scopes.Selected(relative, directories, files)
  {
    for i := 0 to |directories|
      invariant forall k | 0 <= k < i :: relative != directories[k] && !Scopes.Under(relative, directories[k])
    {
      assert directories[i] in directories;
      if relative == directories[i] || Text.HasPrefix(relative, directories[i] + "/") { return true; }
    }
    for i := 0 to |files|
      invariant relative !in files[..i]
    {
      if relative == files[i] { return true; }
    }
    return false;
  }

  method Filter(entries: seq<Entry>, directories: seq<string>, files: seq<string>) returns (r: seq<Entry>)
    ensures r == Chosen(entries, directories, files)
  {
    r := [];
    for i := 0 to |entries|
      invariant r == Chosen(entries[..i], directories, files)
    {
      assert entries[..i + 1][..i] == entries[..i];
      var selected := IsSelected(entries[i].relative, directories, files);
      if selected { r := r + [entries[i]]; }
    }
    assert entries[..|entries|] == entries;
  }

  method SumBytes(entries: seq<Entry>) returns (total: nat)
    ensures total == Bytes(entries)
  {
    total := 0;
    for i := 0 to |entries|
      invariant total == Bytes(entries[..i])
    {
      assert entries[..i + 1][..i] == entries[..i];
      total := total + entries[i].size;
    }
    assert entries[..|entries|] == entries;
  }

  method ApplyScope(plan: SourcePlan, scope: Scope) returns (r: Option<SourcePlan>)
    ensures scope.mode == Full ==> r == Some(plan)
    ensures scope.mode == Core ==>
      r == if plan.sqlite == [] then None
           else Some(plan.(directories := [], files := [], fileCount := 0, sqliteCount := |plan.sqlite|, totalBytes := Bytes(plan.sqlite)))
    ensures scope.mode == Custom ==>
      r == if Accepts(plan, scope.directories, scope.files) then Some(Narrowed(plan, scope.directories, scope.files)) else None
  {
    if scope.mode == Full { return Some(plan); }
    if scope.mode == Core {
      if |plan.sqlite| == 0 { return None; }
      var bytes := SumBytes(plan.sqlite);
      return Some(plan.(directories := [], files := [], fileCount := 0, sqliteCount := |plan.sqlite|, totalBytes := bytes));
    }
    var dirs, files := Relatives(plan.directories), Relatives(plan.files + plan.sqlite);
    assert files == Relatives(plan.files) + Relatives(plan.sqlite);
    for i := 0 to |scope.directories|
      invariant forall k | 0 <= k < i :: scope.directories[k] in dirs
    {
      assert scope.directories[i] in scope.directories;
      if scope.directories[i] !in dirs { return None; }
    }
    for i := 0 to |scope.files|
      invariant forall k | 0 <= k < i :: scope.files[k] in files
    {
      assert scope.files[i] in scope.files;
      if scope.files[i] !in files { return None; }
    }
    var directories := Filter(plan.directories, scope.directories, scope.files);
    var chosen := Filter(plan.files, scope.directories, scope.files);
    var sqlite := Filter(plan.sqlite, scope.directories, scope.files);
    var bytes := SumBytes(chosen + sqlite);
    if |chosen| + |sqlite| == 0 { return None; }
    return Some(plan.(directories := directories, files := chosen, sqlite := sqlite,
                      fileCount := |chosen|, sqliteCount := |sqlite|, totalBytes := bytes));
  }

  lemma {:induction false} SameSelectionChoosesSame(entries: seq<Entry>, d: seq<string>, f: seq<string>, e: seq<string>, g: seq<string>)
    requires forall path :: Scopes.Selected(path, d, f) <==> Scopes.Selected(path, e, g)
    ensures Chosen(entries, d, f) == Chosen(entries, e, g)
  {
    hide Scopes.Selected;
    if entries != [] { SameSelectionChoosesSame(entries[..|entries| - 1], d, f, e, g); }
  }

  /** The rewritten scope is accepted whenever the cleaned one is, with the same objects; and only then,
      unless a path the rewriting dropped has gone from the source. */
  lemma NormalizationKeepsTheArchive(plan: SourcePlan, scope: Scope)
    requires scope.mode == Custom && Scopes.Normalizable(scope)
    ensures var d, f := Scopes.CleanedDirectories(scope), Scopes.CleanedFiles(scope);
      var n := Scopes.Normalized(scope);
      Narrowed(plan, n.directories, n.files) == Narrowed(plan, d, f)
      && (Accepts(plan, d, f) <==> Accepts(plan, n.directories, n.files) && Present(plan, Missing(d, n.directories), Missing(f, n.files)))
  {
    var d, f := Scopes.CleanedDirectories(scope), Scopes.CleanedFiles(scope);
    var n := Scopes.Normalized(scope);
    forall path ensures Scopes.Selected(path, d, f) <==> Scopes.Selected(path, n.directories, n.files) {
      Scopes.NormalizationPreservesSelection(scope, path);
    }
    SameSelectionChoosesSame(plan.directories, d, f, n.directories, n.files);
    SameSelectionChoosesSame(plan.files, d, f, n.directories, n.files);
    SameSelectionChoosesSame(plan.sqlite, d, f, n.directories, n.files);
    NormalizedAreSome(scope);
    PresentSplits(plan, d, f, n.directories, n.files);
  }

  /** The values of all that are not in some. */
  function Missing(all: seq<string>, some: seq<string>): seq<string>
  {
    if all == [] then []
    else Missing(all[..|all| - 1], some) + (if all[|all| - 1] in some then [] else [all[|all| - 1]])
  }

  lemma {:induction false} MissingAre(all: seq<string>, some: seq<string>, v: string)
    ensures v in Missing(all, some) <==> v in all && v !in some
  {
    if all != [] {
      MissingAre(all[..|all| - 1], some, v);
      assert all == all[..|all| - 1] + [all[|all| - 1]];
    }
  }

  lemma PresentSplits(plan: SourcePlan, d: seq<string>, f: seq<string>, e: seq<string>, g: seq<string>)
    requires (forall x | x in e :: x in d) && forall x | x in g :: x in f
    ensures Present(plan, d, f) <==> Present(plan, e, g) && Present(plan, Missing(d, e), Missing(f, g))
  {
    hide Missing;
    forall v ensures v in Missing(d, e) <==> v in d && v !in e { MissingAre(d, e, v); }
    forall v ensures v in Missing(f, g) <==> v in f && v !in g { MissingAre(f, g, v); }
  }

  lemma NormalizedAreSome(scope: Scope)
    requires Scopes.Normalizable(scope) && !scope.mode.Full?
    ensures forall v | v in Scopes.Normalized(scope).directories :: v in Scopes.CleanedDirectories(scope)
    ensures forall v | v in Scopes.Normalized(scope).files :: v in Scopes.CleanedFiles(scope)
  {
    var d := Scopes.CleanedDirectories(scope);
    Scopes.CleanedFacts(scope.directories);
    Scopes.SortOrders(d);
    Scopes.RootsAreSome(Scopes.Sort(d));
    forall v | v in Scopes.Normalized(scope).files ensures v in Scopes.CleanedFiles(scope) {
      Scopes.UncoveredFiles(Scopes.CleanedFiles(scope), Scopes.Roots(Scopes.Sort(d)), v);
    }
  }
}
