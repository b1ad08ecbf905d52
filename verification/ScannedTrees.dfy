/** The plans that reach the archive come from a scan of a real tree, narrowed by a scope. */
module ScannedTrees {
  import opened SourceScan
  import Archive
  import Paths
  import Scopes

  /** What walking a directory meets: names that only descend, all different, and nothing below anything but a directory. */
  ghost predicate Walked(scan: seq<Scanned>)
  {
    DistinctPaths(scan) && (forall x | x in scan :: Paths.Descends(x.relative))
    && forall x, y | x in scan && y in scan && Scopes.Under(y.relative, x.relative) :: x.kind.Folder?
  }

  ghost predicate Apart(entries: seq<Entry>)
  {
    forall i, j | 0 <= i < j < |entries| :: entries[i].relative != entries[j].relative
  }

  ghost predicate NoneShared(a: seq<Entry>, b: seq<Entry>)
  {
    forall x, y | x in a && y in b :: x.relative != y.relative
  }

  lemma ApartTogether(a: seq<Entry>, b: seq<Entry>)
    requires Apart(a) && Apart(b) && NoneShared(a, b)
    ensures Apart(a + b)
  {
    var all := a + b;
    forall i, j | 0 <= i < j < |all| ensures all[i].relative != all[j].relative {
      if i < |a| <= j { assert all[i] in a && all[j] in b; }
    }
  }

  lemma ApartAppend(entries: seq<Entry>, e: Entry)
    requires Apart(entries) && forall x | x in entries :: x.relative != e.relative
    ensures Apart(entries + [e])
  {}

  // ---------------------------------------------------------------- lists drawn from a scan

  /** Each entry stands for a scanned object of the given sort. */
  ghost predicate From(entries: seq<Entry>, scan: seq<Scanned>, folder: bool)
  {
    forall e | e in entries :: exists x | x in scan :: x.relative == e.relative && (if folder then x.kind.Folder? else x.kind.Regular?)
  }

  lemma FromMore(entries: seq<Entry>, scan: seq<Scanned>, more: seq<Scanned>, folder: bool)
    requires From(entries, scan, folder) && forall x | x in scan :: x in more
    ensures From(entries, more, folder)
  {
    forall e | e in entries ensures exists x | x in more :: x.relative == e.relative && (if folder then x.kind.Folder? else x.kind.Regular?) {
      var x :| x in scan && x.relative == e.relative && (if folder then x.kind.Folder? else x.kind.Regular?);
      assert x in more;
    }
  }

  lemma {:induction false} ScanLists(scan: seq<Scanned>)
    requires DistinctPaths(scan)
    ensures Apart(Folders(scan)) && From(Folders(scan), scan, true)
    ensures Apart(RegularFiles(scan)) && From(RegularFiles(scan), scan, false)
  {
    if scan != [] {
      var init, last := scan[..|scan| - 1], scan[|scan| - 1];
      assert scan == init + [last];
      ScanLists(init);
      FromMore(Folders(init), init, scan, true);
      FromMore(RegularFiles(init), init, scan, false);
      NewPath(scan);
      LaterPath(Folders(init), init, last, true);
      LaterPath(RegularFiles(init), init, last, false);
      assert last in scan;
      ApartAppend(Folders(init), Entry(last.relative, 0));
      if last.kind.Regular? { ApartAppend(RegularFiles(init), Entry(last.relative, last.kind.size)); }
    }
  }

  lemma NewPath(scan: seq<Scanned>)
    requires scan != [] && DistinctPaths(scan)
    ensures forall x | x in scan[..|scan| - 1] :: x.relative != scan[|scan| - 1].relative
  {}

  lemma LaterPath(entries: seq<Entry>, scan: seq<Scanned>, last: Scanned, folder: bool)
    requires From(entries, scan, folder) && forall x | x in scan :: x.relative != last.relative
    ensures forall e | e in entries :: e.relative != last.relative
  {}

  lemma {:induction false} OnlyIsApart(entries: seq<Entry>, databases: set<string>, part: Part)
    requires Apart(entries)
    ensures Apart(Only(entries, databases, part))
  {
    if entries != [] {
      var init, last := entries[..|entries| - 1], entries[|entries| - 1];
      OnlyIsApart(init, databases, part);
      forall x | x in Only(init, databases, part) ensures x.relative != last.relative {
        OnlyMembers(init, databases, part, x);
        assert x in init;
      }
      ApartAppend(Only(init, databases, part), last);
    }
  }

  lemma SortsAreForeign(a: seq<Entry>, b: seq<Entry>, scan: seq<Scanned>)
    requires DistinctPaths(scan) && From(a, scan, true) && From(b, scan, false)
    ensures NoneShared(a, b)
  {
    forall x, y | x in a && y in b ensures x.relative != y.relative {
      var s :| s in scan && s.relative == x.relative && s.kind.Folder?;
      var t :| t in scan && t.relative == y.relative && t.kind.Regular?;
      var i :| 0 <= i < |scan| && scan[i] == s;
      var j :| 0 <= j < |scan| && scan[j] == t;
      assert i != j;
    }
  }

  /** The plan of a walked tree is a tree the archive can hold. */
  lemma ScanIsTree(scan: seq<Scanned>, multiInstance: bool)
    requires Walked(scan)
    ensures Archive.Tree(Planned(scan, multiInstance))
  {
    hide Archive.Tree;
    var regular, databases, directories := RegularFiles(scan), Databases(scan), Folders(scan);
    var files, sqlite := Only(regular, databases, Plain), Only(regular, databases, Database);
    ScanLists(scan);
    OnlyIsApart(regular, databases, Plain);
    OnlyIsApart(regular, databases, Database);
    forall e ensures e in files ==> e in regular && PartOf(e.relative, databases) == Plain
      ensures e in sqlite ==> e in regular && PartOf(e.relative, databases) == Database
    {
      OnlyMembers(regular, databases, Plain, e);
      OnlyMembers(regular, databases, Database, e);
    }
    hide Only, PartOf, RegularFiles, Folders, Databases;
    assert NoneShared(files, sqlite);
    assert From(files, scan, false) && From(sqlite, scan, false);
    TreeOf(Planned(scan, multiInstance), scan);
  }

  lemma TreeOf(plan: SourcePlan, scan: seq<Scanned>)
    requires Walked(scan) && Apart(plan.directories) && Apart(plan.files) && Apart(plan.sqlite) && NoneShared(plan.files, plan.sqlite)
    requires From(plan.directories, scan, true) && From(plan.files, scan, false) && From(plan.sqlite, scan, false)
    ensures Archive.Tree(plan)
  {
    SortsAreForeign(plan.directories, plan.files, scan);
    SortsAreForeign(plan.directories, plan.sqlite, scan);
    ApartTogether(plan.directories, plan.files);
    ApartTogether(plan.directories + plan.files, plan.sqlite);
    hide Paths.Descends, Apart, Foreign, Scopes.Under;
    var all, files := plan.directories + plan.files + plan.sqlite, plan.files + plan.sqlite;
    forall e | e in all ensures exists x | x in scan :: x.relative == e.relative {
      if e in plan.directories { var x :| x in scan && x.relative == e.relative && x.kind.Folder?; }
      else if e in plan.files { var x :| x in scan && x.relative == e.relative && x.kind.Regular?; }
      else { var x :| x in scan && x.relative == e.relative && x.kind.Regular?; }
    }
    forall f, e | f in files && e in all ensures !Scopes.Under(e.relative, f.relative) {
      var x :| x in scan && x.relative == f.relative && x.kind.Regular?;
      var y :| y in scan && y.relative == e.relative;
      SameName(scan, x);
    }
    TreeUnfolds(plan);
  }

  lemma SameName(scan: seq<Scanned>, x: Scanned)
    requires Walked(scan) && x in scan
    ensures forall y | y in scan && Scopes.Under(y.relative, x.relative) :: x.kind.Folder?
  {}

  lemma TreeUnfolds(plan: SourcePlan)
    requires var files, all := plan.files + plan.sqlite, plan.directories + plan.files + plan.sqlite;
      (forall e | e in all :: Paths.Descends(e.relative)) && Apart(all)
      && forall f, e | f in files && e in all :: !Scopes.Under(e.relative, f.relative)
    ensures Archive.Tree(plan)
  {
    hide Paths.Descends, Scopes.Under;
  }

  // ---------------------------------------------------------------- after the scope filter

  lemma {:induction false} ChosenIsApart(entries: seq<Entry>, directories: seq<string>, files: seq<string>)
    requires Apart(entries)
    ensures Apart(Chosen(entries, directories, files)) && forall e | e in Chosen(entries, directories, files) :: e in entries
  {
    hide Scopes.Selected;
    if entries != [] {
      var init, last := entries[..|entries| - 1], entries[|entries| - 1];
      ChosenIsApart(init, directories, files);
      assert entries == init + [last];
      ApartAppend(Chosen(init, directories, files), last);
    }
  }

  lemma TreeIsApart(plan: SourcePlan)
    requires Archive.Tree(plan)
    ensures Apart(plan.directories) && Apart(plan.files) && Apart(plan.sqlite)
    ensures NoneShared(plan.directories, plan.files) && NoneShared(plan.directories, plan.sqlite) && NoneShared(plan.files, plan.sqlite)
  {
    hide Paths.Descends, Scopes.Under;
    var all := plan.directories + plan.files + plan.sqlite;
    var d, f := |plan.directories|, |plan.directories| + |plan.files|;
    assert forall i | 0 <= i < d :: all[i] == plan.directories[i];
    assert forall i | 0 <= i < |plan.files| :: all[d + i] == plan.files[i];
    assert forall i | 0 <= i < |plan.sqlite| :: all[f + i] == plan.sqlite[i];
  }

  /** Narrowing a tree by a scope leaves a tree. */
  lemma NarrowedIsTree(plan: SourcePlan, directories: seq<string>, files: seq<string>)
    requires Archive.Tree(plan)
    ensures Archive.Tree(Narrowed(plan, directories, files))
  {
    hide Chosen, Scopes.Under, Paths.Descends;
    TreeIsApart(plan);
    ChosenIsApart(plan.directories, directories, files);
    ChosenIsApart(plan.files, directories, files);
    ChosenIsApart(plan.sqlite, directories, files);
    var n := Narrowed(plan, directories, files);
    ApartTogether(n.directories, n.files);
    ApartTogether(n.directories + n.files, n.sqlite);
    TreeUnfolds(n);
  }
}
