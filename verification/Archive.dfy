/** Entry names of a snapshot archive, and what exporting the archive recreates. */
module Archive {
  import opened Tables
  import opened SourceScan
  import Paths
  import Scopes
  import Text

  const DATA := "appvar/"
  const INTERNAL := "_snapshot/"
  const FILE_INDEX := INTERNAL + "file-index.jsonl"
  const WARNINGS := INTERNAL + "warnings.json"
  const MANIFEST := INTERNAL + "manifest.json"

  /** A directory's entry has a name ending in a slash and no content. */
  datatype ZipEntry = ZipEntry(name: string, content: string)

  /** What the archive says about itself. */
  datatype Meta = Meta(index: string, warnings: string, manifest: string)

  // ---------------------------------------------------------------- names

  predicate SafeInternalZipName(value: string)
  {
    value != "" && !Text.HasPrefix(value, "/") && Paths.Clean(value) == value && value != ".." && !Text.HasPrefix(value, "../")
  }

  function ZipName(relative: string, directory: bool): Option<string>
  {
    if !SafeInternalZipName(relative) then None
    else Some(DATA + relative + (if directory then "/" else ""))
  }

  lemma InternalNames(value: string)
    ensures SafeInternalZipName(value) <==> value == "." || Paths.Descends(value)
  {
    Paths.CurrentIsClean();
    if Paths.Descends(value) { Paths.DescendingIsClean(value); }
    if value != "" && !Text.HasPrefix(value, "/") && value != ".." && !Text.HasPrefix(value, "../") { Paths.CleanRelative(value); }
  }

  lemma DataDescends(relative: string)
    requires Paths.Descends(relative)
    ensures Paths.Descends(DATA + relative) && Paths.Split(DATA + relative) == ["appvar"] + Paths.Split(relative)
  {
    assert DATA + relative == "appvar" + "/" + relative;
    Paths.SplitOfJoined("appvar", relative);
    Paths.SegmentIsPlain("appvar");
  }

  lemma TrailingSlash(s: string)
    ensures Text.HasSuffix(s, "/") ==> "" in Paths.Split(s)
  {
    if Text.HasSuffix(s, "/") {
      var init := s[..|s| - 1];
      assert s == init + "/" + "";
      Paths.SplitOfJoined(init, "");
      assert Paths.Split("") == [""];
      var parts := Paths.Split(s);
      assert parts[|parts| - 1] == "";
    }
  }

  /** Plain components leave no trailing slash. */
  lemma DescendsToName(s: string)
    requires Paths.Descends(s)
    ensures s != "" && !Text.HasSuffix(s, "/")
  {
    Paths.DescendingIsClean(s);
    TrailingSlash(s);
  }

  lemma EntryNameIsSafe(relative: string, directory: bool)
    requires Paths.Descends(relative)
    ensures var name := DATA + relative + (if directory then "/" else "");
      ZipName(relative, directory) == Some(name) && Paths.SafeZipPath(name)
      && Text.TrimSuffix(name, "/") == DATA + relative && Text.HasSuffix(name, "/") == directory
  {
    hide Paths.Descends, Paths.SafeZipPath;
    InternalNames(relative);
    DataDescends(relative);
    DescendsToName(DATA + relative);
    var name := DATA + relative + (if directory then "/" else "");
    if !directory { assert name == DATA + relative; }
    Paths.SafeZipPathDescends(name);
  }

  lemma InternalDescends(part: string)
    requires Paths.SafeSegment(part)
    ensures Paths.Descends(INTERNAL + part)
  {
    assert INTERNAL + part == "_snapshot" + "/" + part;
    Paths.SegmentIsPlain("_snapshot");
    Paths.SegmentIsPlain(part);
    Paths.SplitOfJoined("_snapshot", part);
  }

  lemma InternalIsNotData(part: string)
    ensures !Text.HasPrefix(INTERNAL + part, DATA)
  {
    assert (INTERNAL + part)[0] == '_' && DATA[0] == 'a';
  }

  lemma InternalNameIsSafe(part: string)
    requires Paths.SafeSegment(part)
    ensures var name := INTERNAL + part; SafeInternalZipName(name) && Paths.SafeZipPath(name) && !Text.HasPrefix(name, DATA)
  {
    hide Paths.Descends, Paths.SafeZipPath, Paths.SafeSegment, SafeInternalZipName, Text.HasPrefix;
    InternalDescends(part);
    InternalIsNotData(part);
    var name := INTERNAL + part;
    InternalNames(name);
    DescendsToName(name);
    Paths.SafeZipPathDescends(name);
  }

  // ---------------------------------------------------------------- writing

  /** The scanned part of a file tree: relative paths that only descend, all different, none below a file. */
  ghost predicate Tree(plan: SourcePlan)
  {
    var files, all := plan.files + plan.sqlite, plan.directories + plan.files + plan.sqlite;
    (forall e | e in all :: Paths.Descends(e.relative))
    && (forall i, j | 0 <= i < j < |all| :: all[i].relative != all[j].relative)
    && forall f, e | f in files && e in all :: !Scopes.Under(e.relative, f.relative)
  }

  function Entries(items: seq<Entry>, directory: bool, data: string -> string): Option<seq<ZipEntry>>
  {
    if items == [] then Some([])
    else
      var last := items[|items| - 1];
      match Entries(items[..|items| - 1], directory, data)
      case None => None
      case Some(rest) =>
        match ZipName(last.relative, directory)
        case None => None
        case Some(name) => Some(rest + [ZipEntry(name, if directory then "" else data(last.relative))])
  }

  /** The archive of a plan; data gives the bytes read from a file, or from the copy of a database. None is ARCHIVE_PATH_UNSAFE. */
  function Written(plan: SourcePlan, data: string -> string, meta: Meta): Option<seq<ZipEntry>>
  {
    var directories, files, sqlite := Entries(plan.directories, true, data), Entries(plan.files, false, data), Entries(plan.sqlite, false, data);
    if directories.None? || files.None? || sqlite.None? then None
    else Some(directories.value + files.value + sqlite.value
              + [ZipEntry(FILE_INDEX, meta.index), ZipEntry(WARNINGS, meta.warnings), ZipEntry(MANIFEST, meta.manifest)])
  }

  method WriteEntries(items: seq<Entry>, directory: bool, data: string -> string) returns (r: Option<seq<ZipEntry>>)
    ensures r == Entries(items, directory, data)
  {
    var out := [];
    for i := 0 to |items|
      invariant Entries(items[..i], directory, data) == Some(out)
    {
      assert items[..i + 1][..i] == items[..i];
      var name := ZipName(items[i].relative, directory);
      if name.None? {
        EntriesFail(items, directory, data, i + 1);
        return None;
      }
      out := out + [ZipEntry(name.value, if directory then "" else data(items[i].relative))];
    }
    assert items[..|items|] == items;
    return Some(out);
  }

  lemma {:induction false} EntriesFail(items: seq<Entry>, directory: bool, data: string -> string, i: nat)
    requires i <= |items| && Entries(items[..i], directory, data).None?
    ensures Entries(items, directory, data).None?
    decreases |items| - i
  {
    if i < |items| {
      assert items[..i + 1][..i] == items[..i];
      EntriesFail(items, directory, data, i + 1);
    } else {
      assert items[..i] == items;
    }
  }

  /** Directories first, then files, then databases, then what the archive says about itself. */
  method WriteArchive(plan: SourcePlan, data: string -> string, meta: Meta) returns (r: Option<seq<ZipEntry>>)
    ensures r == Written(plan, data, meta)
  {
    hide Entries;
    var directories := WriteEntries(plan.directories, true, data);
    if directories.None? { return None; }
    var files := WriteEntries(plan.files, false, data);
    if files.None? { return None; }
    var sqlite := WriteEntries(plan.sqlite, false, data);
    if sqlite.None? { return None; }
    var out := directories.value + files.value + sqlite.value;
    ghost var written := out;
    out := out + [ZipEntry(FILE_INDEX, meta.index)];
    out := out + [ZipEntry(WARNINGS, meta.warnings)];
    out := out + [ZipEntry(MANIFEST, meta.manifest)];
    assert out == written + [ZipEntry(FILE_INDEX, meta.index), ZipEntry(WARNINGS, meta.warnings), ZipEntry(MANIFEST, meta.manifest)];
    return Some(out);
  }

  lemma {:induction false} EntriesAre(items: seq<Entry>, directory: bool, data: string -> string)
    requires forall e | e in items :: Paths.Descends(e.relative)
    ensures var r := Entries(items, directory, data);
      r.Some? && |r.value| == |items|
      && forall i | 0 <= i < |items| ::
           r.value[i] == ZipEntry(DATA + items[i].relative + (if directory then "/" else ""), if directory then "" else data(items[i].relative))
  {
    if items != [] {
      EntriesAre(items[..|items| - 1], directory, data);
      EntryNameIsSafe(items[|items| - 1].relative, directory);
    }
  }

  // ---------------------------------------------------------------- checking

  /** The part of QuickVerify that looks inside the archive. */
  method VerifyNames(entries: seq<ZipEntry>) returns (ok: bool)
    ensures ok <==> (forall e | e in entries :: Paths.SafeZipPath(e.name)) && exists e | e in entries :: e.name == MANIFEST
  {
    hide Paths.SafeZipPath;
    var found := false;
    for i := 0 to |entries|
      invariant forall k | 0 <= k < i :: Paths.SafeZipPath(entries[k].name)
      invariant found <==> exists k | 0 <= k < i :: entries[k].name == MANIFEST
    {
      if !Paths.SafeZipPath(entries[i].name) {
        assert entries[i] in entries;
        return false;
      }
      if entries[i].name == MANIFEST { found := true; }
    }
    return found;
  }

  // ---------------------------------------------------------------- exporting

  datatype Node = Directory | File(content: string)

  /** A directory tree under its root [], keyed by path components. */
  type Disk = map<seq<string>, Node>

  const BARE: Disk := map[[] := Directory]

  /** os.MkdirAll: None when a file is in the way. */
  function MkdirAll(disk: Disk, path: seq<string>): Option<Disk>
  {
    if path == [] then Some(disk)
    else match MkdirAll(disk, path[..|path| - 1])
      case None => None
      case Some(made) =>
        if path !in made then Some(made[path := Directory])
        else if made[path].Directory? then Some(made) else None
  }

  function Parent(path: seq<string>): seq<string>
  {
    if path == [] then [] else path[..|path| - 1]
  }

  /** Writing one entry under the destination; a file is created exclusively. None is an error. */
  function ExportOne(disk: Disk, entry: ZipEntry): Option<Disk>
  {
    if !Paths.SafeZipPath(entry.name) then None
    else if !Text.HasPrefix(entry.name, DATA) then Some(disk)
    else
      var relative := Text.TrimPrefix(entry.name, DATA);
      if relative == "" then Some(disk)
      else
        var target := Paths.Reduce(Paths.Split(relative), [], false);
        if Text.HasSuffix(entry.name, "/") then MkdirAll(disk, target)
        else match MkdirAll(disk, Parent(target))
          case None => None
          case Some(made) => if target in made then None else Some(made[target := File(entry.content)])
  }

  function ExportAll(disk: Disk, entries: seq<ZipEntry>): Option<Disk>
  {
    if entries == [] then Some(disk)
    else match ExportAll(disk, entries[..|entries| - 1])
      case None => None
      case Some(made) => ExportOne(made, entries[|entries| - 1])
  }

  lemma {:induction false} ExportFails(disk: Disk, entries: seq<ZipEntry>, i: nat)
    requires i <= |entries| && ExportAll(disk, entries[..i]).None?
    ensures ExportAll(disk, entries).None?
    decreases |entries| - i
  {
    if i < |entries| {
      assert entries[..i + 1][..i] == entries[..i];
      ExportFails(disk, entries, i + 1);
    } else {
      assert entries[..i] == entries;
    }
  }

  /** An export that fails removes what it wrote; an existing export is never touched. */
  method ExportData(entries: seq<ZipEntry>, id: string, exports: map<string, Disk>) returns (ok: bool, after: map<string, Disk>)
    ensures ok <==> Paths.SafeSegment(id) && id !in exports && ExportAll(BARE, entries).Some?
    ensures after == if ok then exports[id := ExportAll(BARE, entries).value] else exports
  {
    after := exports;
    if !Paths.SafeSegment(id) { return false, after; }
    if id in exports { return false, after; }
    var disk := BARE;
    for i := 0 to |entries|
      invariant ExportAll(BARE, entries[..i]) == Some(disk)
    {
      assert entries[..i + 1][..i] == entries[..i];
      var made := ExportOne(disk, entries[i]);
      if made.None? {
        ExportFails(BARE, entries, i + 1);
        return false, after;
      }
      disk := made.value;
    }
    assert entries[..|entries|] == entries;
    return true, after[id := disk];
  }

  // ---------------------------------------------------------------- what an export must contain

  /** p is path or above it. */
  predicate On(p: seq<string>, path: seq<string>)
  {
    p <= path
  }

  lemma OnParent(p: seq<string>, path: seq<string>)
    requires path != []
    ensures On(p, path) <==> On(p, path[..|path| - 1]) || p == path
  {
    var up := path[..|path| - 1];
    if On(p, path) {
      if |p| < |path| { assert p == path[..|p|] == up[..|p|]; } else { assert p == path; }
    }
  }

  /** One archived object, by the components of its path. */
  datatype Item = Item(path: seq<string>, node: Node)

  /** A file's path leads to nothing else. */
  ghost predicate Coherent(items: seq<Item>)
  {
    (forall i | 0 <= i < |items| :: items[i].path != [])
    && forall i, j | 0 <= i < |items| && 0 <= j < |items| && i != j && items[i].node.File? :: !On(items[i].path, items[j].path)
  }

  /** disk holds the items and the directories above them, and nothing else. */
  ghost predicate Holds(disk: Disk, items: seq<Item>)
  {
    [] in disk && disk[[]] == Directory
    && (forall p | p != [] :: p in disk <==> exists i | 0 <= i < |items| :: On(p, items[i].path))
    && (forall i | 0 <= i < |items| && items[i].path != [] :: items[i].path in disk && disk[items[i].path] == items[i].node)
    && forall p | p in disk && disk[p].File? :: exists i | 0 <= i < |items| :: items[i] == Item(p, disk[p])
  }

  lemma {:induction false} MkdirAllMakes(disk: Disk, path: seq<string>)
    requires forall p | On(p, path) && p in disk :: disk[p].Directory?
    ensures var r := MkdirAll(disk, path);
      r.Some? && (forall p :: p in r.value <==> p in disk || (On(p, path) && p != []))
      && forall p | p in r.value :: r.value[p] == if p in disk then disk[p] else Directory
  {
    if path != [] {
      hide On;
      var up := path[..|path| - 1];
      forall p ensures On(p, path) <==> On(p, up) || p == path { OnParent(p, path); }
      MkdirAllMakes(disk, up);
    } else {
      assert forall p | On(p, path) :: p == [];
    }
  }

  lemma CoherentLast(items: seq<Item>, next: Item, i: nat)
    requires Coherent(items + [next]) && i < |items|
    ensures items[i].node.File? ==> !On(items[i].path, next.path)
    ensures next.node.File? ==> !On(next.path, items[i].path)
    ensures next.path != []
  {
    var all := items + [next];
    assert all[i] == items[i] && all[|items|] == next;
  }

  lemma AboveIsDirectory(disk: Disk, items: seq<Item>, next: Item, p: seq<string>)
    requires Holds(disk, items) && Coherent(items + [next]) && p in disk && On(p, next.path)
    ensures disk[p].Directory?
  {
    hide Coherent, On;
    if disk[p].File? {
      var i :| 0 <= i < |items| && items[i] == Item(p, disk[p]);
      CoherentLast(items, next, i);
    }
  }

  lemma NextIsNew(disk: Disk, items: seq<Item>, next: Item)
    requires Holds(disk, items) && Coherent(items + [next]) && next.node.File?
    ensures next.path !in disk
  {
    hide Coherent, On;
    NonEmpty(items, next);
    if next.path in disk {
      var i :| 0 <= i < |items| && On(next.path, items[i].path);
      CoherentLast(items, next, i);
    }
  }

  /** The disk after one more object, node by node. */
  ghost predicate Grown(disk: Disk, after: Disk, next: Item)
  {
    (forall p :: p in after <==> p in disk || (On(p, next.path) && p != []))
    && (forall p | p in disk :: after[p] == disk[p])
    && forall p | p in after && p !in disk :: after[p] == if p == next.path then next.node else Directory
  }

  lemma GrownHolds(disk: Disk, after: Disk, items: seq<Item>, next: Item)
    requires Holds(disk, items) && Coherent(items + [next]) && Grown(disk, after, next)
    requires next.path in disk ==> disk[next.path] == next.node
    ensures Holds(after, items + [next])
  {
    NextHasPath(items, next);
    GrownPaths(disk, after, items, next);
    GrownNodes(disk, after, items, next);
    GrownFiles(disk, after, items, next);
    hide On, Coherent;
  }

  lemma NextHasPath(items: seq<Item>, next: Item)
    requires Coherent(items + [next])
    ensures next.path != []
  {
    assert (items + [next])[|items|] == next;
  }

  lemma GrownPaths(disk: Disk, after: Disk, items: seq<Item>, next: Item)
    requires Holds(disk, items) && Grown(disk, after, next)
    ensures forall p | p != [] :: p in after <==> exists i | 0 <= i < |items + [next]| :: On(p, (items + [next])[i].path)
  {
    hide On;
    var all := items + [next];
    forall p | p != [] ensures p in after <==> exists i | 0 <= i < |all| :: On(p, all[i].path) {
      if p in disk {
        var i :| 0 <= i < |items| && On(p, items[i].path);
        assert all[i] == items[i];
      }
      if On(p, next.path) { assert all[|items|] == next; }
      if i :| 0 <= i < |all| && On(p, all[i].path) {
        if i < |items| { assert items[i] == all[i]; }
      }
    }
  }

  lemma GrownNodes(disk: Disk, after: Disk, items: seq<Item>, next: Item)
    requires Holds(disk, items) && Grown(disk, after, next) && next.path != []
    requires next.path in disk ==> disk[next.path] == next.node
    ensures var all := items + [next];
      forall i | 0 <= i < |all| && all[i].path != [] :: all[i].path in after && after[all[i].path] == all[i].node
  {
    assert On(next.path, next.path);
    hide On;
    var all := items + [next];
    forall i | 0 <= i < |all| && all[i].path != [] ensures all[i].path in after && after[all[i].path] == all[i].node {
      if i < |items| { assert all[i] == items[i]; }
    }
  }

  lemma GrownFiles(disk: Disk, after: Disk, items: seq<Item>, next: Item)
    requires Holds(disk, items) && Grown(disk, after, next)
    ensures forall p | p in after && after[p].File? :: exists i | 0 <= i < |items + [next]| :: (items + [next])[i] == Item(p, after[p])
  {
    hide On;
    var all := items + [next];
    forall p | p in after && after[p].File? ensures exists i | 0 <= i < |all| :: all[i] == Item(p, after[p]) {
      if p in disk {
        var i :| 0 <= i < |items| && items[i] == Item(p, disk[p]);
        assert all[i] == items[i];
      } else {
        assert all[|items|] == Item(p, after[p]);
      }
    }
  }

  /** The archive entry of an object. */
  ghost predicate Encodes(entry: ZipEntry, relative: string, item: Item)
  {
    Paths.Descends(relative) && item.path == Paths.Split(relative)
    && entry.name == DATA + relative + (if item.node.Directory? then "/" else "")
    && (item.node.File? ==> entry.content == item.node.content)
  }

  /** Cleaning a descending path, with or without a trailing slash, gives its components. */
  lemma TargetOf(relative: string)
    requires Paths.Descends(relative)
    ensures Paths.Reduce(Paths.Split(relative), [], false) == Paths.Split(relative)
    ensures Paths.Reduce(Paths.Split(relative + "/"), [], false) == Paths.Split(relative)
  {
    var parts := Paths.Split(relative);
    Paths.ReduceKeepsPlain(parts, [], false);
    assert [] + parts == parts;
    Paths.SplitOfJoined(relative, "");
    assert relative + "/" + "" == relative + "/" && Paths.Split("") == [""];
    ReduceBoth(parts, [""], []);
    assert Paths.Reduce([], parts, false) == parts;
    assert Paths.Reduce([""], parts, false) == parts;
  }

  lemma {:induction false} ReduceBoth(a: seq<string>, b: seq<string>, out: seq<string>)
    requires forall part | part in a :: Paths.Plain(part)
    ensures Paths.Reduce(a + b, out, false) == Paths.Reduce(b, out + a, false)
  {
    if a == [] {
      assert a + b == b && out + a == out;
    } else {
      assert Paths.Plain(a[0]) && (a + b)[1..] == a[1..] + b;
      ReduceBoth(a[1..], b, out + [a[0]]);
      assert out + [a[0]] + a[1..] == out + a;
    }
  }

  lemma ExportOneWrites(disk: Disk, entry: ZipEntry, relative: string, items: seq<Item>, next: Item)
    requires Holds(disk, items) && Coherent(items + [next]) && Encodes(entry, relative, next)
    ensures ExportOne(disk, entry).Some? && Holds(ExportOne(disk, entry).value, items + [next])
  {
    hide Holds, Coherent, Paths.Descends, Paths.SafeZipPath, MkdirAll, Paths.Reduce, Paths.Split;
    var directory := next.node.Directory?;
    EntryNameIsSafe(relative, directory);
    TargetOf(relative);
    Paths.DescendingIsClean(relative);
    assert Text.HasPrefix(entry.name, DATA);
    var rest := Text.TrimPrefix(entry.name, DATA);
    assert rest == relative + (if directory then "/" else "");
    if directory {
      DirectoryWritten(disk, items, next);
    } else {
      assert rest == relative;
      FileWritten(disk, items, next);
    }
  }

  lemma DirectoryWritten(disk: Disk, items: seq<Item>, next: Item)
    requires Holds(disk, items) && Coherent(items + [next]) && next.node.Directory?
    ensures MkdirAll(disk, next.path).Some? && Holds(MkdirAll(disk, next.path).value, items + [next])
  {
    hide Holds, Coherent;
    forall p | On(p, next.path) && p in disk ensures disk[p].Directory? { AboveIsDirectory(disk, items, next, p); }
    MkdirAllMakes(disk, next.path);
    var made := MkdirAll(disk, next.path).value;
    assert Grown(disk, made, next);
    GrownHolds(disk, made, items, next);
  }

  lemma FileWritten(disk: Disk, items: seq<Item>, next: Item)
    requires Holds(disk, items) && Coherent(items + [next]) && next.node.File?
    ensures var r := MkdirAll(disk, Parent(next.path));
      r.Some? && next.path !in r.value && Holds(r.value[next.path := next.node], items + [next])
  {
    hide Holds, Coherent, On;
    var up := Parent(next.path);
    NonEmpty(items, next);
    forall p ensures On(p, next.path) <==> On(p, up) || p == next.path { OnParent(p, next.path); }
    forall p | On(p, up) && p in disk ensures disk[p].Directory? {
      AboveIsDirectory(disk, items, next, p);
    }
    MkdirAllMakes(disk, up);
    NextIsNew(disk, items, next);
    var made := MkdirAll(disk, up).value;
    var after := made[next.path := next.node];
    OnItself(next.path);
    NotOnParent(next.path);
    assert Grown(disk, after, next);
    GrownHolds(disk, after, items, next);
  }

  lemma NotOnParent(path: seq<string>)
    requires path != []
    ensures !On(path, Parent(path))
  {}

  lemma OnItself(path: seq<string>)
    ensures On(path, path)
  {}

  lemma NonEmpty(items: seq<Item>, next: Item)
    requires Coherent(items + [next])
    ensures next.path != []
  {
    assert (items + [next])[|items|] == next;
  }

  /** Entries that encode coherent items export to exactly those items; no file is ever found in the way. */
  lemma {:induction false} ExportHolds(entries: seq<ZipEntry>, relatives: seq<string>, items: seq<Item>)
    requires |entries| == |relatives| == |items| && Coherent(items)
    requires forall i | 0 <= i < |items| :: Encodes(entries[i], relatives[i], items[i])
    ensures ExportAll(BARE, entries).Some? && Holds(ExportAll(BARE, entries).value, items)
  {
    hide ExportOne, Encodes;
    if entries != [] {
      var n := |entries| - 1;
      assert items == items[..n] + [items[n]];
      CoherentPrefix(items, n);
      ExportHolds(entries[..n], relatives[..n], items[..n]);
      ExportOneWrites(ExportAll(BARE, entries[..n]).value, entries[n], relatives[n], items[..n], items[n]);
    }
  }

  lemma CoherentPrefix(items: seq<Item>, n: nat)
    requires Coherent(items) && n <= |items|
    ensures Coherent(items[..n])
  {}

  // ---------------------------------------------------------------- the round trip

  /** The objects of a plan, in archive order. */
  function Objects(plan: SourcePlan): seq<Entry>
  {
    plan.directories + plan.files + plan.sqlite
  }

  function ItemOf(plan: SourcePlan, data: string -> string, i: nat): Item
    requires i < |Objects(plan)|
  {
    var relative := Objects(plan)[i].relative;
    Item(Paths.Split(relative), if i < |plan.directories| then Directory else File(data(relative)))
  }

  function Items(plan: SourcePlan, data: string -> string): seq<Item>
  {
    seq(|Objects(plan)|, i requires 0 <= i < |Objects(plan)| => ItemOf(plan, data, i))
  }

  /** Componentwise prefix means equal or below. */
  lemma PrefixIsUnder(a: string, b: string)
    ensures On(Paths.Split(a), Paths.Split(b)) ==> a == b || Scopes.Under(b, a)
  {
    var p, q := Paths.Split(a), Paths.Split(b);
    Paths.JoinSplit(a);
    Paths.JoinSplit(b);
    if On(p, q) && p != q {
      var rest := q[|p|..];
      assert q == p + rest && rest != [];
      Text.GlueBoth(p, rest, '/');
      assert b == a + "/" + Paths.Join(rest);
    }
  }

  lemma ItemsAreCoherent(plan: SourcePlan, data: string -> string)
    requires Tree(plan)
    ensures Coherent(Items(plan, data))
  {
    hide On, Paths.Split, Paths.Descends, Scopes.Under;
    var items, objects := Items(plan, data), Objects(plan);
    forall i, j | 0 <= i < |items| && 0 <= j < |items| && i != j && items[i].node.File? ensures !On(items[i].path, items[j].path) {
      FileOfObjects(plan, i);
      assert objects[j] in objects;
      assert objects[i].relative != objects[j].relative;
      PrefixIsUnder(objects[i].relative, objects[j].relative);
    }
  }

  lemma FileOfObjects(plan: SourcePlan, i: nat)
    requires |plan.directories| <= i < |Objects(plan)|
    ensures Objects(plan)[i] in plan.files + plan.sqlite
  {
    assert Objects(plan)[i] == (plan.files + plan.sqlite)[i - |plan.directories|];
  }

  lemma ObjectsDescend(plan: SourcePlan)
    requires Tree(plan)
    ensures forall e | e in plan.directories :: Paths.Descends(e.relative)
    ensures forall e | e in plan.files :: Paths.Descends(e.relative)
    ensures forall e | e in plan.sqlite :: Paths.Descends(e.relative)
  {
    hide Paths.Descends;
  }

  /** The entries of one list encode its objects. */
  lemma EntriesEncode(items: seq<Entry>, directory: bool, data: string -> string)
    requires forall e | e in items :: Paths.Descends(e.relative)
    ensures var r := Entries(items, directory, data);
      r.Some? && |r.value| == |items|
      && forall i | 0 <= i < |items| ::
           Encodes(r.value[i], items[i].relative, Item(Paths.Split(items[i].relative), if directory then Directory else File(data(items[i].relative))))
  {
    hide Entries, Paths.Descends, Paths.Split;
    EntriesAre(items, directory, data);
    assert forall i | 0 <= i < |items| :: items[i] in items;
  }

  lemma WrittenEntries(plan: SourcePlan, data: string -> string, meta: Meta)
    requires Tree(plan)
    ensures var r, n := Written(plan, data, meta), |Objects(plan)|;
      r.Some? && |r.value| == n + 3
      && r.value[n].name == FILE_INDEX && r.value[n + 1].name == WARNINGS && r.value[n + 2].name == MANIFEST
      && forall i | 0 <= i < n :: Encodes(r.value[i], Objects(plan)[i].relative, ItemOf(plan, data, i))
  {
    hide Entries, Paths.Descends, Paths.Split, Encodes, Tree;
    ObjectsDescend(plan);
    EntriesEncode(plan.directories, true, data);
    EntriesEncode(plan.files, false, data);
    EntriesEncode(plan.sqlite, false, data);
    var a, b, c := Entries(plan.directories, true, data).value, Entries(plan.files, false, data).value, Entries(plan.sqlite, false, data).value;
    var meta_ := [ZipEntry(FILE_INDEX, meta.index), ZipEntry(WARNINGS, meta.warnings), ZipEntry(MANIFEST, meta.manifest)];
    assert Written(plan, data, meta) == Some(a + b + c + meta_);
    forall i | 0 <= i < |Objects(plan)| ensures Encodes((a + b + c + meta_)[i], Objects(plan)[i].relative, ItemOf(plan, data, i)) {
      hide *;
      WrittenAt(plan, data, a, b, c, meta_, i);
    }
  }

  lemma WrittenAt(plan: SourcePlan, data: string -> string, a: seq<ZipEntry>, b: seq<ZipEntry>, c: seq<ZipEntry>, rest: seq<ZipEntry>, i: nat)
    requires |a| == |plan.directories| && |b| == |plan.files| && |c| == |plan.sqlite| && i < |Objects(plan)|
    requires forall k | 0 <= k < |a| ::
      Encodes(a[k], plan.directories[k].relative, Item(Paths.Split(plan.directories[k].relative), Directory))
    requires forall k | 0 <= k < |b| ::
      Encodes(b[k], plan.files[k].relative, Item(Paths.Split(plan.files[k].relative), File(data(plan.files[k].relative))))
    requires forall k | 0 <= k < |c| ::
      Encodes(c[k], plan.sqlite[k].relative, Item(Paths.Split(plan.sqlite[k].relative), File(data(plan.sqlite[k].relative))))
    ensures Encodes((a + b + c + rest)[i], Objects(plan)[i].relative, ItemOf(plan, data, i))
  {
    hide Encodes, Paths.Split;
    var all := a + b + c + rest;
    if i < |a| { assert all[i] == a[i]; }
    else if i < |a| + |b| { assert all[i] == b[i - |a|]; }
    else { assert all[i] == c[i - |a| - |b|]; }
  }

  /** An entry that is about the archive itself. */
  predicate Internal(name: string)
  {
    Paths.SafeZipPath(name) && !Text.HasPrefix(name, DATA)
  }

  lemma FileIndexName() ensures Internal(FILE_INDEX) { hide Paths.SafeZipPath; InternalNameIsSafe("file-index.jsonl"); }

  lemma WarningsName() ensures Internal(WARNINGS) { hide Paths.SafeZipPath; InternalNameIsSafe("warnings.json"); }

  lemma ManifestName() ensures Internal(MANIFEST) { hide Paths.SafeZipPath; InternalNameIsSafe("manifest.json"); }

  lemma MetaNames()
    ensures Internal(FILE_INDEX) && Internal(WARNINGS) && Internal(MANIFEST)
  {
    hide *;
    FileIndexName();
    WarningsName();
    ManifestName();
  }

  lemma MetaNamesDiffer()
    ensures FILE_INDEX != WARNINGS && FILE_INDEX != MANIFEST && WARNINGS != MANIFEST
  {
    assert FILE_INDEX[10] == 'f' && WARNINGS[10] == 'w' && MANIFEST[10] == 'm';
  }

  lemma NamesDiffer(a: string, b: string, directoryA: bool, directoryB: bool)
    requires Paths.Descends(a) && Paths.Descends(b) && a != b
    ensures DATA + a + (if directoryA then "/" else "") != DATA + b + (if directoryB then "/" else "")
  {
    hide Paths.Descends;
    EntryNameIsSafe(a, directoryA);
    EntryNameIsSafe(b, directoryB);
    hide *;
    assert (DATA + a)[|DATA|..] == a && (DATA + b)[|DATA|..] == b;
  }

  lemma DataName(entry: ZipEntry, relative: string, item: Item)
    requires Encodes(entry, relative, item)
    ensures !Internal(entry.name) && Paths.Descends(relative) && Paths.SafeZipPath(entry.name)
    ensures entry.name == DATA + relative + (if item.node.Directory? then "/" else "")
  {
    hide Paths.Descends, Paths.SafeZipPath, Paths.Split;
    EntryNameIsSafe(relative, item.node.Directory?);
    assert Text.HasPrefix(entry.name, DATA);
  }

  lemma NamesAreDistinct(entries: seq<ZipEntry>, relatives: seq<string>, items: seq<Item>)
    requires |relatives| == |items| <= |entries|
    requires forall i | 0 <= i < |items| :: Encodes(entries[i], relatives[i], items[i])
    requires forall i, j | 0 <= i < j < |items| :: relatives[i] != relatives[j]
    requires forall i | |items| <= i < |entries| :: Internal(entries[i].name)
    requires forall i, j | |items| <= i < j < |entries| :: entries[i].name != entries[j].name
    ensures forall i, j | 0 <= i < j < |entries| :: entries[i].name != entries[j].name
  {
    hide *;
    forall i, j | 0 <= i < j < |entries| ensures entries[i].name != entries[j].name {
      if i < |items| {
        DataName(entries[i], relatives[i], items[i]);
        if j < |items| {
          DataName(entries[j], relatives[j], items[j]);
          NamesDiffer(relatives[i], relatives[j], items[i].node.Directory?, items[j].node.Directory?);
        }
      }
    }
  }

  function ObjectPaths(plan: SourcePlan): (r: seq<string>)
    ensures |r| == |Objects(plan)| && forall i | 0 <= i < |r| :: r[i] == Objects(plan)[i].relative
  {
    seq(|Objects(plan)|, i requires 0 <= i < |Objects(plan)| => Objects(plan)[i].relative)
  }

  /** The entries of an archive, without their constants. */
  lemma WrittenShape(plan: SourcePlan, data: string -> string, meta: Meta)
    requires Tree(plan)
    ensures var r, n := Written(plan, data, meta), |Objects(plan)|;
      r.Some? && |r.value| == n + 3
      && (forall i | 0 <= i < n :: Encodes(r.value[i], ObjectPaths(plan)[i], Items(plan, data)[i]))
      && (forall i | n <= i < n + 3 :: Internal(r.value[i].name))
      && (forall i, j | n <= i < j < n + 3 :: r.value[i].name != r.value[j].name)
      && r.value[n + 2].name == MANIFEST
  {
    hide *;
    WrittenEntries(plan, data, meta);
    MetaNames();
    MetaNamesDiffer();
    ItemsLength(plan, data);
    forall i | 0 <= i < |Objects(plan)| ensures Items(plan, data)[i] == ItemOf(plan, data, i) { ItemAt(plan, data, i); }
  }

  lemma ItemsLength(plan: SourcePlan, data: string -> string)
    ensures |Items(plan, data)| == |Objects(plan)|
  {}

  lemma ItemAt(plan: SourcePlan, data: string -> string, i: nat)
    requires i < |Objects(plan)|
    ensures i < |Items(plan, data)| && Items(plan, data)[i] == ItemOf(plan, data, i)
  {}

  lemma RelativesDiffer(plan: SourcePlan)
    requires Tree(plan)
    ensures forall i, j | 0 <= i < j < |Objects(plan)| :: ObjectPaths(plan)[i] != ObjectPaths(plan)[j]
  {
    hide Paths.Descends, Scopes.Under;
  }

  /** No two entries of an archive share a name. */
  lemma EntryNamesAreDistinct(plan: SourcePlan, data: string -> string, meta: Meta)
    requires Tree(plan)
    ensures Written(plan, data, meta).Some?
    ensures var entries := Written(plan, data, meta).value; forall i, j | 0 <= i < j < |entries| :: entries[i].name != entries[j].name
  {
    hide *;
    WrittenShape(plan, data, meta);
    RelativesDiffer(plan);
    ItemsLength(plan, data);
    NamesAreDistinct(Written(plan, data, meta).value, ObjectPaths(plan), Items(plan, data));
  }

  lemma InternalIsSkipped(entries: seq<ZipEntry>, n: nat)
    requires n < |entries| && Internal(entries[n].name)
    ensures ExportAll(BARE, entries[..n + 1]) == ExportAll(BARE, entries[..n])
  {
    hide Paths.SafeZipPath, Paths.Reduce, MkdirAll;
    assert entries[..n + 1][..n] == entries[..n];
  }

  lemma MetaIsSkipped(entries: seq<ZipEntry>, n: nat)
    requires n + 3 == |entries| && Internal(entries[n].name) && Internal(entries[n + 1].name) && Internal(entries[n + 2].name)
    ensures ExportAll(BARE, entries) == ExportAll(BARE, entries[..n])
  {
    hide *;
    InternalIsSkipped(entries, n);
    InternalIsSkipped(entries, n + 1);
    InternalIsSkipped(entries, n + 2);
    assert entries[..n + 3] == entries;
  }

  lemma ItemsExport(plan: SourcePlan, data: string -> string, entries: seq<ZipEntry>)
    requires Tree(plan) && |Objects(plan)| <= |entries| && |Items(plan, data)| == |Objects(plan)|
    requires forall i | 0 <= i < |Objects(plan)| :: Encodes(entries[i], ObjectPaths(plan)[i], Items(plan, data)[i])
    ensures var r := ExportAll(BARE, entries[..|Objects(plan)|]); r.Some? && Holds(r.value, Items(plan, data))
  {
    hide *;
    ItemsAreCoherent(plan, data);
    ExportHolds(entries[..|Objects(plan)|], ObjectPaths(plan), Items(plan, data));
  }

  /** Exporting the archive of a scanned tree never fails, and recreates exactly its directories and files,
      with the archived bytes, and the directories above them. */
  lemma RoundTrip(plan: SourcePlan, data: string -> string, meta: Meta)
    requires Tree(plan)
    ensures Written(plan, data, meta).Some?
    ensures ExportAll(BARE, Written(plan, data, meta).value).Some?
    ensures Holds(ExportAll(BARE, Written(plan, data, meta).value).value, Items(plan, data))
  {
    hide *;
    WrittenShape(plan, data, meta);
    ItemsLength(plan, data);
    ItemsExport(plan, data, Written(plan, data, meta).value);
    MetaIsSkipped(Written(plan, data, meta).value, |Objects(plan)|);
  }

  /** The archive of a scanned tree passes its own verification. */
  lemma WrittenVerifies(plan: SourcePlan, data: string -> string, meta: Meta)
    requires Tree(plan)
    ensures Written(plan, data, meta).Some?
    ensures var entries := Written(plan, data, meta).value;
      (forall e | e in entries :: Paths.SafeZipPath(e.name)) && exists e | e in entries :: e.name == MANIFEST
  {
    hide *;
    WrittenShape(plan, data, meta);
    ItemsLength(plan, data);
    var entries, n := Written(plan, data, meta).value, |Objects(plan)|;
    assert entries[n + 2] in entries;
    forall i | 0 <= i < |entries| ensures Paths.SafeZipPath(entries[i].name) {
      if i < n { DataName(entries[i], ObjectPaths(plan)[i], Items(plan, data)[i]); } else { InternalIsSafe(entries[i].name); }
    }
  }

  lemma InternalIsSafe(name: string)
    requires Internal(name)
    ensures Paths.SafeZipPath(name)
  {}

  /** In particular the exported files are the archived ones. */
  lemma ExportedFiles(plan: SourcePlan, data: string -> string, meta: Meta, p: seq<string>, content: string)
    requires Tree(plan)
    ensures Written(plan, data, meta).Some? && ExportAll(BARE, Written(plan, data, meta).value).Some?
    ensures var disk := ExportAll(BARE, Written(plan, data, meta).value).value;
      (p in disk && disk[p] == File(content))
      <==> exists e | e in plan.files + plan.sqlite :: p == Paths.Split(e.relative) && content == data(e.relative)
  {
    RoundTrip(plan, data, meta);
    hide Written, ExportAll, Tree;
    FilesOf(plan, data, ExportAll(BARE, Written(plan, data, meta).value).value, p, content);
  }

  lemma HeldItem(disk: Disk, items: seq<Item>, i: nat)
    requires Holds(disk, items) && i < |items| && items[i].path != []
    ensures items[i].path in disk && disk[items[i].path] == items[i].node
  {
    hide On;
  }

  lemma FilesOf(plan: SourcePlan, data: string -> string, disk: Disk, p: seq<string>, content: string)
    requires Holds(disk, Items(plan, data))
    ensures (p in disk && disk[p] == File(content))
      <==> exists e | e in plan.files + plan.sqlite :: p == Paths.Split(e.relative) && content == data(e.relative)
  {
    hide Holds, Items, Paths.Split;
    var files := plan.files + plan.sqlite;
    if p in disk && disk[p] == File(content) {
      FileOnDisk(plan, data, disk, p, content);
    }
    if e :| e in files && p == Paths.Split(e.relative) && content == data(e.relative) {
      var k :| 0 <= k < |files| && files[k] == e;
      var i := |plan.directories| + k;
      assert Objects(plan) == plan.directories + files;
      assert Objects(plan)[i] == e;
      ItemAt(plan, data, i);
      HeldItem(disk, Items(plan, data), i);
    }
  }

  lemma FileOnDisk(plan: SourcePlan, data: string -> string, disk: Disk, p: seq<string>, content: string)
    requires Holds(disk, Items(plan, data)) && p in disk && disk[p] == File(content)
    ensures exists e | e in plan.files + plan.sqlite :: p == Paths.Split(e.relative) && content == data(e.relative)
  {
    hide On, Paths.Split;
    var items := Items(plan, data);
    assert |items| == |Objects(plan)|;
    var i :| 0 <= i < |items| && items[i] == Item(p, disk[p]);
    ItemAt(plan, data, i);
    hide Items, Holds;
    FileOfObjects(plan, i);
    var e := Objects(plan)[i];
    assert e in plan.files + plan.sqlite && p == Paths.Split(e.relative) && content == data(e.relative);
  }
}
