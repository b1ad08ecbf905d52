/** Rewriting the path selection of a backup plan, and deciding whether an edited plan selects something new.
    Strings are sequences of bytes, as in Go. */
module Scopes {
  import opened Tables
  import opened QueueSpec
  import opened Sets
  import Text

  // ---------------------------------------------------------------- selection

  /** path lies below directory. */
  predicate Under(path: string, directory: string)
  {
    Text.HasPrefix(path, directory + "/")
  }

  /** What a scope selects, the test ApplyScope makes of every scanned path. */
  predicate Selected(path: string, directories: seq<string>, files: seq<string>)
  {
    (exists d | d in directories :: path == d || Under(path, d)) || path in files
  }

  lemma UnderIsLonger(path: string, directory: string)
    requires Under(path, directory)
    ensures |directory| < |path| && directory <= path
  {
    assert directory == (directory + "/")[..|directory|];
  }

  lemma UnderTransitive(a: string, b: string, c: string)
    requires Under(a, b) && Under(b, c)
    ensures Under(a, c)
  {
    UnderIsLonger(a, b);
    assert (c + "/") <= b <= a;
  }

  /** Two directories above one path lie above one another, or are the same. */
  lemma AboveOnePath(path: string, d: string, e: string)
    requires Under(path, d) && Under(path, e)
    ensures d == e || Under(d, e) || Under(e, d)
  {
    UnderIsLonger(path, d);
    UnderIsLonger(path, e);
    assert path[|d|] == (d + "/")[|d|] && path[|e|] == (e + "/")[|e|];
    if |d| == |e| {
      assert d == path[..|d|] == e;
    } else if |d| < |e| {
      assert path[..|d| + 1] == d + "/";
      assert e[..|d| + 1] == path[..|e|][..|d| + 1] == path[..|d| + 1];
    } else {
      assert path[..|e| + 1] == e + "/";
      assert d[..|e| + 1] == path[..|d|][..|e| + 1] == path[..|e| + 1];
    }
  }

  // ---------------------------------------------------------------- cleaning one path

  /** strings.ReplaceAll(value, "\\", "/") */
  function Slashes(value: string): (r: string)
    ensures |r| == |value| && '\\' !in r
    ensures '\\' !in value ==> r == value
  {
    if value == "" then "" else [if value[0] == '\\' then '/' else value[0]] + Slashes(value[1..])
  }

  predicate Cut(c: char)
  {
    c == '/' || c == ' '
  }

  function TrimLeft(value: string): string
  {
    if value != "" && Cut(value[0]) then TrimLeft(value[1..]) else value
  }

  function TrimRight(value: string): string
  {
    if value != "" && Cut(value[|value| - 1]) then TrimRight(value[..|value| - 1]) else value
  }

  function CleanPath(value: string): string
  {
    TrimRight(TrimLeft(Slashes(value)))
  }

  predicate Contains(value: string, part: string)
  {
    part <= value || (value != "" && Contains(value[1..], part))
  }

  /** Refused after trimming. */
  predicate Unsafe(value: string)
  {
    value == "" || Text.HasPrefix(value, "../") || value == ".." || Contains(value, "/../")
  }

  /** Nothing left to trim or replace. */
  predicate Tidy(value: string)
  {
    '\\' !in value && (value != "" ==> !Cut(value[0]) && !Cut(value[|value| - 1]))
  }

  lemma {:induction false} TrimLeftTidies(value: string)
    ensures var r := TrimLeft(value); (r != "" ==> !Cut(r[0])) && forall c | c in r :: c in value
    ensures value != "" && !Cut(value[0]) ==> TrimLeft(value) == value
    ensures value != "" && TrimLeft(value) != "" ==> TrimLeft(value)[|TrimLeft(value)| - 1] == value[|value| - 1]
  {
    if value != "" && Cut(value[0]) { TrimLeftTidies(value[1..]); }
  }

  lemma {:induction false} TrimRightTidies(value: string)
    ensures var r := TrimRight(value); r <= value && (r != "" ==> !Cut(r[|r| - 1]))
    ensures value != "" && !Cut(value[|value| - 1]) ==> TrimRight(value) == value
  {
    if value != "" && Cut(value[|value| - 1]) { TrimRightTidies(value[..|value| - 1]); }
  }

  lemma CleanPathTidies(value: string)
    ensures Tidy(CleanPath(value))
  {
    var slashed := Slashes(value);
    TrimLeftTidies(slashed);
    TrimRightTidies(TrimLeft(slashed));
    var r := CleanPath(value);
    assert forall c | c in r :: c in TrimLeft(slashed);
  }

  lemma TidyIsFixed(value: string)
    requires Tidy(value)
    ensures CleanPath(value) == value
  {
    if value != "" {
      TrimLeftTidies(value);
      TrimRightTidies(value);
    }
  }

  lemma {:induction false} SlashedAt(value: string, k: nat)
    requires k < |value|
    ensures Slashes(value)[k] == if value[k] == '\\' then '/' else value[k]
  {
    if k > 0 { SlashedAt(value[1..], k - 1); }
  }

  lemma {:induction false} TrimLeftDrops(value: string) returns (i: nat)
    ensures i <= |value| && TrimLeft(value) == value[i..] && forall k | 0 <= k < i :: value[k] == '/' || value[k] == ' '
    ensures i < |value| ==> value[i] != '/' && value[i] != ' '
  {
    i := 0;
    if value != "" && Cut(value[0]) {
      var rest := TrimLeftDrops(value[1..]);
      i := rest + 1;
    }
  }

  lemma {:induction false} TrimRightDrops(value: string) returns (j: nat)
    ensures j <= |value| && TrimRight(value) == value[..j] && forall k | j <= k < |value| :: value[k] == '/' || value[k] == ' '
    ensures j > 0 ==> value[j - 1] != '/' && value[j - 1] != ' '
  {
    j := |value|;
    if value != "" && Cut(value[|value| - 1]) {
      j := TrimRightDrops(value[..|value| - 1]);
    }
  }

  /** Cleaning reads backslashes as slashes, and drops slashes and blanks at both ends and nothing else. */
  lemma CleanPathMeans(value: string) returns (i: nat, j: nat)
    ensures i <= j <= |value| && |CleanPath(value)| == j - i
    ensures forall k | i <= k < j :: CleanPath(value)[k - i] == if value[k] == '\\' then '/' else value[k]
    ensures forall k | 0 <= k < i || j <= k < |value| :: value[k] in {'/', '\\', ' '}
    ensures i < j ==> value[i] !in {'/', '\\', ' '} && value[j - 1] !in {'/', '\\', ' '}
  {
    var slashed := Slashes(value);
    forall k | 0 <= k < |value| ensures slashed[k] == if value[k] == '\\' then '/' else value[k] { SlashedAt(value, k); }
    i := TrimLeftDrops(slashed);
    var length := TrimRightDrops(slashed[i..]);
    j := i + length;
    forall k | j <= k < |value| ensures value[k] in {'/', '\\', ' '} { assert slashed[i..][k - i] == slashed[k]; }
    assert i < j ==> slashed[i..][j - 1 - i] == slashed[j - 1];
  }

  // ---------------------------------------------------------------- unsafe paths

  /** Nothing, a lone parent, or a path that passes through a parent on its way to its last component. */
  predicate Escapes(value: string)
  {
    var parts := Text.Fields(value, '/');
    value == "" || value == ".." || exists i | 0 <= i < |parts| - 1 :: parts[i] == ".."
  }

  lemma ParentIsOne()
    ensures Text.Fields("..", '/') == [".."]
  {
    Text.FieldsGlue([".."], '/');
  }

  lemma FirstParent(value: string)
    ensures "../" <= value <==> |Text.Fields(value, '/')| > 1 && Text.Fields(value, '/')[0] == ".."
  {
    var parts := Text.Fields(value, '/');
    Text.GlueFields(value, '/');
    if |parts| > 1 && parts[0] == ".." {
      assert value == ".." + ['/'] + Text.Glue(parts[1..], '/');
    }
    if "../" <= value {
      assert value == ".." + ['/'] + value[3..];
      Text.FieldsBoth("..", value[3..], '/');
      ParentIsOne();
    }
  }

  lemma {:induction false} LaterParent(value: string)
    ensures Contains(value, "/../") <==> exists i | 0 < i < |Text.Fields(value, '/')| - 1 :: Text.Fields(value, '/')[i] == ".."
  {
    if value != "" {
      var parts, rest := Text.Fields(value, '/'), Text.Fields(value[1..], '/');
      LaterParent(value[1..]);
      if value[0] == '/' {
        FirstParent(value[1..]);
        assert "/../" <= value <==> "../" <= value[1..];
        if i :| 0 < i < |parts| - 1 && parts[i] == ".." { assert rest[i - 1] == ".."; }
        if i :| 0 <= i < |rest| - 1 && rest[i] == ".." { assert parts[i + 1] == ".."; }
      } else {
        assert forall i | 0 < i < |parts| :: parts[i] == rest[i];
      }
    }
  }

  /** The three tests for parent steps, and the fourth for the empty path, refuse exactly those. A path that ends in a
      parent, and is not only that, passes. */
  lemma UnsafeEscapes(value: string)
    ensures Unsafe(value) <==> Escapes(value)
  {
    FirstParent(value);
    LaterParent(value);
  }

  lemma TrailingParentPasses(directory: string)
    requires directory != "" && ".." !in Text.Fields(directory, '/')
    ensures !Unsafe(directory + "/..")
  {
    var value := directory + "/..";
    UnsafeEscapes(value);
    Text.FieldsBoth(directory, "..", '/');
    assert value == directory + ['/'] + "..";
    ParentIsOne();
    var parts := Text.Fields(directory, '/');
    assert Text.Fields(value, '/') == parts + [".."];
    forall i | 0 <= i < |parts| ensures (parts + [".."])[i] != ".." { assert parts[i] in parts; }
  }

  // ---------------------------------------------------------------- cleaning a list

  predicate Distinct(values: seq<string>)
  {
    forall i, j | 0 <= i < j < |values| :: values[i] != values[j]
  }

  function Deduped(values: seq<string>): (r: seq<string>)
    ensures forall v :: v in r <==> v in values
    ensures Distinct(r)
  {
    if values == [] then []
    else
      var init, last := Deduped(values[..|values| - 1]), values[|values| - 1];
      if last in init then init else init + [last]
  }

  function CleanPaths(values: seq<string>): (r: seq<string>)
    ensures |r| == |values| && forall i | 0 <= i < |r| :: r[i] == CleanPath(values[i])
  {
    seq(|values|, i requires 0 <= i < |values| => CleanPath(values[i]))
  }

  const MAX_PATHS := 500

  predicate Cleanable(values: seq<string>)
  {
    (forall v | v in values :: !Unsafe(CleanPath(v))) && |Deduped(CleanPaths(values))| <= MAX_PATHS
  }

  lemma DistinctSize(values: seq<string>)
    requires Distinct(values)
    ensures |values| == |set v | v in values|
  {
    if values != [] {
      var init, last := values[..|values| - 1], values[|values| - 1];
      DistinctSize(init);
      assert last !in init;
      assert (set v | v in values) == (set v | v in init) + {last};
    }
  }

  lemma CleanableMeans(values: seq<string>)
    ensures Cleanable(values) <==> (forall v | v in values :: !Escapes(CleanPath(v))) && |set v | v in values :: CleanPath(v)| <= 500
  {
    forall v ensures Unsafe(v) <==> Escapes(v) { UnsafeEscapes(v); }
    var cleaned := CleanPaths(values);
    DistinctSize(Deduped(cleaned));
    assert (set v | v in Deduped(cleaned)) == (set v | v in values :: CleanPath(v)) by {
      forall v | v in Deduped(cleaned) ensures v in (set v | v in values :: CleanPath(v)) {
        assert v in cleaned;
        var i :| 0 <= i < |cleaned| && cleaned[i] == v;
        assert values[i] in values;
      }
      forall u | u in values ensures CleanPath(u) in Deduped(cleaned) {
        var i :| 0 <= i < |values| && values[i] == u;
        assert cleaned[i] in cleaned;
      }
    }
    hide CleanPath, Unsafe, Escapes;
  }

  /** A path of the list escapes once it is cleaned, or there are too many different ones. */
  ghost predicate ListRefused(values: seq<string>)
  {
    (exists v | v in values :: Escapes(CleanPath(v))) || |set v | v in values :: CleanPath(v)| > 500
  }

  /** When a list is refused, and what an accepted one is free of. */
  lemma CleanedLaw(values: seq<string>)
    ensures Cleanable(values) <==> !ListRefused(values)
    ensures Cleanable(values) ==> forall v :: v in Deduped(CleanPaths(values)) ==> !Escapes(v)
  {
    CleanableMeans(values);
    if Cleanable(values) {
      forall v | v in Deduped(CleanPaths(values)) ensures !Escapes(v) {
        assert v in CleanPaths(values);
        var i :| 0 <= i < |values| && CleanPaths(values)[i] == v;
        assert values[i] in values;
      }
    }
    hide Cleanable, CleanPath, CleanPaths, Deduped, Escapes;
  }

  lemma CleanNext(values: seq<string>, i: nat)
    requires i < |values|
    ensures var out := Deduped(CleanPaths(values[..i]));
      Deduped(CleanPaths(values[..i + 1])) ==
        if CleanPath(values[i]) in out then out else out + [CleanPath(values[i])]
  {
    assert values[..i + 1] == values[..i] + [values[i]];
    assert CleanPaths(values[..i + 1]) == CleanPaths(values[..i]) + [CleanPath(values[i])];
    assert CleanPaths(values[..i + 1])[..i] == CleanPaths(values[..i]);
  }

  lemma NothingCleaned(values: seq<string>)
    ensures Deduped(CleanPaths(values[..0])) == []
  {}

  /** The inner function of normalizeScope; None is its error. */
  method CleanList(values: seq<string>) returns (r: Option<seq<string>>)
    ensures r == if Cleanable(values) then Some(Deduped(CleanPaths(values))) else None
    ensures r.None? <==> ListRefused(values)
    ensures r.Some? ==> forall v :: v in r.value ==> !Escapes(v)
  {
    CleanedLaw(values);
    hide CleanPath, CleanPaths, Deduped, Unsafe, Escapes, ListRefused;
    var seen, out := {}, [];
    NothingCleaned(values);
    for i := 0 to |values|
      invariant forall k | 0 <= k < i :: !Unsafe(CleanPath(values[k]))
      invariant out == Deduped(CleanPaths(values[..i]))
      invariant forall v :: v in seen <==> v in out
    {
      var value := CleanPath(values[i]);
      CleanNext(values, i);
      assert values[i] in values;
      if Unsafe(value) { return None; }
      if value !in seen { seen, out := seen + {value}, out + [value]; }
    }
    assert values[..|values|] == values;
    if |out| > MAX_PATHS { return None; }
    return Some(out);
  }

  lemma {:induction false} DistinctIsDeduped(values: seq<string>)
    requires Distinct(values)
    ensures Deduped(values) == values
  {
    if values != [] {
      DistinctIsDeduped(values[..|values| - 1]);
      assert values == values[..|values| - 1] + [values[|values| - 1]];
    }
  }

  /** Cleaning accepts what it produced, unchanged. */
  lemma CleanedIsClean(values: seq<string>)
    requires Distinct(values) && |values| <= MAX_PATHS && forall v | v in values :: Tidy(v) && !Unsafe(v)
    ensures Cleanable(values) && Deduped(CleanPaths(values)) == values
  {
    forall i | 0 <= i < |values| ensures CleanPath(values[i]) == values[i] {
      assert values[i] in values;
      TidyIsFixed(values[i]);
    }
    assert CleanPaths(values) == values;
    DistinctIsDeduped(values);
  }

  lemma CleanedFacts(values: seq<string>)
    requires Cleanable(values)
    ensures var r := Deduped(CleanPaths(values));
      Distinct(r) && |r| <= MAX_PATHS && forall v | v in r :: Tidy(v) && !Unsafe(v)
  {
    var r := Deduped(CleanPaths(values));
    forall v | v in r ensures Tidy(v) && !Unsafe(v) {
      var i :| 0 <= i < |values| && CleanPaths(values)[i] == v;
      assert values[i] in values;
      CleanPathTidies(values[i]);
    }
  }

  // ---------------------------------------------------------------- directories: shortest first

  predicate Shorter(a: string, b: string)
  {
    |a| < |b| || (|a| == |b| && Text.Less(a, b))
  }

  lemma ShorterTotal(a: string, b: string)
    ensures a == b || Shorter(a, b) || Shorter(b, a)
  {
    Text.LessTotal(a, b);
  }

  lemma ShorterAsymmetric(a: string, b: string)
    requires Shorter(a, b)
    ensures !Shorter(b, a) && a != b
  {
    if |a| == |b| { Text.LessAsymmetric(a, b); }
  }

  lemma ShorterTransitive(a: string, b: string, c: string)
    requires Shorter(a, b) && Shorter(b, c)
    ensures Shorter(a, c)
  {
    if |a| == |b| == |c| { Text.LessTransitive(a, b, c); }
  }

  predicate Ordered(values: seq<string>)
  {
    forall i, j | 0 <= i < j < |values| :: Shorter(values[i], values[j])
  }

  /** Where value belongs in an ordered list. */
  function Insert(values: seq<string>, value: string): seq<string>
  {
    if values == [] || Shorter(value, values[0]) then [value] + values
    else [values[0]] + Insert(values[1..], value)
  }

  function Sort(values: seq<string>): seq<string>
  {
    if values == [] then [] else Insert(Sort(values[..|values| - 1]), values[|values| - 1])
  }

  lemma {:induction false} InsertOrders(values: seq<string>, value: string)
    requires Ordered(values) && value !in values
    ensures Ordered(Insert(values, value)) && forall v :: v in Insert(values, value) <==> v in values || v == value
    ensures |Insert(values, value)| == |values| + 1
  {
    if values != [] && !Shorter(value, values[0]) {
      ShorterTotal(value, values[0]);
      InsertOrders(values[1..], value);
      var rest := Insert(values[1..], value);
      forall j | 0 <= j < |rest| ensures Shorter(values[0], rest[j]) {
        assert rest[j] in rest;
        if rest[j] != value { assert rest[j] in values[1..]; }
      }
      forall v ensures v in [values[0]] + rest <==> v in values || v == value {
        assert v in values <==> v == values[0] || v in values[1..];
      }
    } else if values != [] {
      forall j | 0 <= j < |values| ensures Shorter(value, values[j]) {
        if j > 0 { ShorterTransitive(value, values[0], values[j]); }
      }
    }
  }

  lemma {:induction false} SortOrders(values: seq<string>)
    requires Distinct(values)
    ensures Ordered(Sort(values)) && |Sort(values)| == |values| && forall v :: v in Sort(values) <==> v in values
  {
    if values != [] {
      var init, last := values[..|values| - 1], values[|values| - 1];
      SortOrders(init);
      InsertOrders(Sort(init), last);
      assert values == init + [last];
    }
  }

  lemma {:induction false} InsertLast(values: seq<string>, value: string)
    requires Ordered(values + [value])
    ensures Insert(values, value) == values + [value]
  {
    if values != [] {
      var all := values + [value];
      assert Shorter(all[0], all[|values|]) && all[0] == values[0] && all[|values|] == value;
      ShorterAsymmetric(values[0], value);
      assert (values + [value])[1..] == values[1..] + [value];
      InsertLast(values[1..], value);
    }
  }

  lemma {:induction false} OrderedIsSorted(values: seq<string>)
    requires Ordered(values)
    ensures Sort(values) == values
  {
    if values != [] {
      var init, last := values[..|values| - 1], values[|values| - 1];
      assert values == init + [last];
      OrderedIsSorted(init);
      InsertLast(init, last);
    }
  }

  // ---------------------------------------------------------------- dropping what is covered

  predicate CoveredBy(value: string, directories: seq<string>)
  {
    exists d | d in directories :: Under(value, d)
  }

  /** The loop of removeCoveredDirectories over the sorted values. */
  function Roots(sorted: seq<string>): seq<string>
  {
    if sorted == [] then []
    else
      var init, last := Roots(sorted[..|sorted| - 1]), sorted[|sorted| - 1];
      if CoveredBy(last, init) then init else init + [last]
  }

  method FindCover(value: string, directories: seq<string>) returns (covered: bool)
    ensures covered == CoveredBy(value, directories)
  {
    for i := 0 to |directories|
      invariant forall k | 0 <= k < i :: !Under(value, directories[k])
    {
      if Text.HasPrefix(value, directories[i] + "/") {
        assert directories[i] in directories;
        return true;
      }
    }
    return false;
  }

  method RemoveCoveredDirectories(values: seq<string>) returns (r: seq<string>)
    ensures r == Roots(Sort(values))
  {
    var sorted := Sort(values);
    r := [];
    for i := 0 to |sorted|
      invariant r == Roots(sorted[..i])
    {
      var covered := FindCover(sorted[i], r);
      if !covered { r := r + [sorted[i]]; }
      assert sorted[..i + 1][..i] == sorted[..i];
    }
    assert sorted[..|sorted|] == sorted;
  }

  function Uncovered(files: seq<string>, directories: seq<string>): seq<string>
  {
    if files == [] then []
    else
      var init, last := Uncovered(files[..|files| - 1], directories), files[|files| - 1];
      if CoveredBy(last, directories) then init else init + [last]
  }

  method RemoveFilesCoveredByDirectories(files: seq<string>, directories: seq<string>) returns (r: seq<string>)
    ensures r == Uncovered(files, directories)
  {
    r := [];
    for i := 0 to |files|
      invariant r == Uncovered(files[..i], directories)
    {
      var covered := FindCover(files[i], directories);
      if !covered { r := r + [files[i]]; }
      assert files[..i + 1][..i] == files[..i];
    }
    assert files[..|files|] == files;
  }

  /** The order in which directories are visited does not show: the roots are the ones below no other. */
  lemma {:induction false} RootsAreMinimal(sorted: seq<string>, d: string)
    requires Ordered(sorted)
    ensures d in Roots(sorted) <==> d in sorted && !CoveredBy(d, sorted)
    decreases |sorted|, 1
  {
    if sorted != [] {
      var init, last := sorted[..|sorted| - 1], sorted[|sorted| - 1];
      assert sorted == init + [last];
      RootsAreMinimal(init, d);
      RootsCover(init, last);
      assert !Under(last, last) by { if Under(last, last) { UnderIsLonger(last, last); } }
      assert CoveredBy(last, sorted) <==> CoveredBy(last, init);
      if d in init {
        assert Shorter(d, last);
        if Under(d, last) { UnderIsLonger(d, last); }
        assert CoveredBy(d, sorted) <==> CoveredBy(d, init);
        ShorterAsymmetric(d, last);
      }
    }
  }

  /** Covered by the list means covered by its roots. */
  lemma {:induction false} RootsCover(sorted: seq<string>, value: string)
    requires Ordered(sorted)
    ensures CoveredBy(value, Roots(sorted)) <==> CoveredBy(value, sorted)
    decreases |sorted|, 0
  {
    if sorted != [] {
      var init, last := sorted[..|sorted| - 1], sorted[|sorted| - 1];
      assert sorted == init + [last];
      RootsCover(init, value);
      assert CoveredBy(value, sorted) <==> CoveredBy(value, init) || Under(value, last);
      if CoveredBy(last, Roots(init)) {
        if Under(value, last) {
          var e :| e in Roots(init) && Under(last, e);
          UnderTransitive(value, last, e);
        }
      } else {
        assert CoveredBy(value, Roots(sorted)) <==> CoveredBy(value, Roots(init)) || Under(value, last) by {
          assert forall x :: x in Roots(sorted) <==> x in Roots(init) || x == last;
        }
      }
    }
  }

  lemma {:induction false} UncoveredFiles(files: seq<string>, directories: seq<string>, f: string)
    ensures f in Uncovered(files, directories) <==> f in files && !CoveredBy(f, directories)
  {
    if files != [] {
      UncoveredFiles(files[..|files| - 1], directories, f);
      assert files == files[..|files| - 1] + [files[|files| - 1]];
    }
  }

  /** Kept directories lie below no other kept one. */
  predicate Antichain(directories: seq<string>)
  {
    forall d, e | d in directories && e in directories :: !Under(d, e)
  }

  lemma RootsAreApart(values: seq<string>)
    requires Distinct(values)
    ensures Antichain(Roots(Sort(values)))
  {
    SortOrders(values);
    var sorted := Sort(values);
    forall d, e | d in Roots(sorted) && e in Roots(sorted) ensures !Under(d, e) {
      RootsAreMinimal(sorted, d);
      RootsAreMinimal(sorted, e);
    }
  }

  /** Every directory given is kept or lies below exactly one kept directory. */
  lemma OneRootEach(values: seq<string>, d: string) returns (root: string)
    requires Distinct(values) && d in values
    ensures root in Roots(Sort(values)) && (d == root || Under(d, root))
    ensures forall e | e in Roots(Sort(values)) && (d == e || Under(d, e)) :: e == root
  {
    SortOrders(values);
    RootsAreApart(values);
    var sorted := Sort(values);
    RootsAreMinimal(sorted, d);
    RootsCover(sorted, d);
    if d in Roots(sorted) {
      root := d;
    } else {
      root :| root in Roots(sorted) && Under(d, root);
      forall e | e in Roots(sorted) && (d == e || Under(d, e)) ensures e == root {
        AboveOnePath(d, e, root);
      }
    }
  }

  /** The rewriting selects the same paths. */
  lemma RewritingPreservesSelection(directories: seq<string>, files: seq<string>, path: string)
    requires Distinct(directories)
    ensures var roots := Roots(Sort(directories));
      Selected(path, roots, Uncovered(files, roots)) <==> Selected(path, directories, files)
  {
    SortOrders(directories);
    var sorted := Sort(directories);
    var roots := Roots(sorted);
    RootsCover(sorted, path);
    RootsAreMinimal(sorted, path);
    UncoveredFiles(files, roots, path);
    assert CoveredBy(path, sorted) <==> CoveredBy(path, directories);
  }

  // ---------------------------------------------------------------- normalizeScope

  function LowerChar(c: char): char
  {
    if 'A' <= c <= 'Z' then c - 'A' + 'a' else c
  }

  /** strings.ToLower on ASCII, all that the suffix test below can tell apart. */
  function Lower(value: string): (r: string)
    ensures |r| == |value|
  {
    if value == "" then ""
    else [LowerChar(value[0])] + Lower(value[1..])
  }

  predicate Companion(file: string)
  {
    var lower := Lower(file);
    Text.HasSuffix(lower, "-wal") || Text.HasSuffix(lower, "-shm") || Text.HasSuffix(lower, "-journal")
  }

  function CleanedDirectories(scope: Scope): seq<string> { Deduped(CleanPaths(scope.directories)) }

  function CleanedFiles(scope: Scope): seq<string> { Deduped(CleanPaths(scope.files)) }

  function Floor(revision: int): int { if revision < 1 then 1 else revision }

  predicate Normalizable(scope: Scope)
  {
    scope.mode.Full?
    || (Cleanable(scope.directories) && Cleanable(scope.files)
        && (forall f | f in CleanedFiles(scope) :: !Companion(f))
        && !(scope.mode.Custom? && |CleanedDirectories(scope)| + |CleanedFiles(scope)| == 0))
  }

  function Normalized(scope: Scope): Scope
  {
    if scope.mode.Full? then Scope(Full, [], [], Floor(scope.revision))
    else
      var roots := Roots(Sort(CleanedDirectories(scope)));
      Scope(scope.mode, roots, Uncovered(CleanedFiles(scope), roots), Floor(scope.revision))
  }

  /** The file ends in this suffix of small letters, whatever the case of its own. */
  predicate EndsLike(file: string, suffix: string)
  {
    |suffix| <= |file|
    && forall k | 0 <= k < |suffix| :: Spells(file[|file| - |suffix| + k], suffix[k])
  }

  predicate Spells(c: char, small: char)
  {
    c == small || ('a' <= small <= 'z' && c == small - 'a' + 'A')
  }

  lemma LowerSpells(c: char, small: char)
    requires !('A' <= small <= 'Z')
    ensures LowerChar(c) == small <==> Spells(c, small)
  {}

  lemma {:induction false} LowerAt(value: string, k: nat)
    requires k < |value|
    ensures Lower(value)[k] == LowerChar(value[k])
  {
    if k > 0 { LowerAt(value[1..], k - 1); }
  }

  lemma SuffixLike(file: string, suffix: string)
    requires forall k | 0 <= k < |suffix| :: !('A' <= suffix[k] <= 'Z')
    ensures Text.HasSuffix(Lower(file), suffix) <==> EndsLike(file, suffix)
  {
    hide Lower, LowerChar, Spells;
    if |suffix| <= |file| {
      var at := |file| - |suffix|;
      forall k | 0 <= k < |suffix| ensures Lower(file)[at..][k] == suffix[k] <==> Spells(file[at + k], suffix[k]) {
        LowerAt(file, at + k);
        LowerSpells(file[at + k], suffix[k]);
      }
    }
  }

  lemma CompanionMeans(file: string)
    ensures Companion(file) <==> EndsLike(file, "-wal") || EndsLike(file, "-shm") || EndsLike(file, "-journal")
  {
    SuffixLike(file, "-wal");
    SuffixLike(file, "-shm");
    SuffixLike(file, "-journal");
    hide Lower, EndsLike;
  }

  /** A companion of a database is selected, in any spelling of its suffix. */
  predicate SelectsCompanion(files: seq<string>)
  {
    exists f | f in files ::
      var file := CleanPath(f); EndsLike(file, "-wal") || EndsLike(file, "-shm") || EndsLike(file, "-journal")
  }

  lemma CompanionsMean(scope: Scope)
    ensures (forall f | f in CleanedFiles(scope) :: !Companion(f)) <==> !SelectsCompanion(scope.files)
  {
    hide CleanPath, Companion, EndsLike;
    var cleaned := CleanPaths(scope.files);
    forall f ensures Companion(f) <==> EndsLike(f, "-wal") || EndsLike(f, "-shm") || EndsLike(f, "-journal") { CompanionMeans(f); }
    forall f | f in CleanedFiles(scope) ensures exists g | g in scope.files :: CleanPath(g) == f {
      assert f in cleaned;
      var i :| 0 <= i < |cleaned| && cleaned[i] == f;
      assert scope.files[i] in scope.files;
    }
    forall g | g in scope.files ensures CleanPath(g) in CleanedFiles(scope) {
      var i :| 0 <= i < |scope.files| && scope.files[i] == g;
      assert cleaned[i] in cleaned;
    }
  }

  /** Everything a scope that is not the full one is refused for. */
  ghost predicate ScopeRefused(scope: Scope)
  {
    ListRefused(scope.directories) || ListRefused(scope.files) || SelectsCompanion(scope.files)
    || (scope.mode.Custom? && scope.directories == [] && scope.files == [])
  }

  lemma NothingGiven(values: seq<string>)
    ensures Deduped(CleanPaths(values)) == [] <==> values == []
  {
    if values != [] { assert CleanPaths(values)[0] in Deduped(CleanPaths(values)); }
  }

  lemma NormalizableMeans(scope: Scope)
    ensures Normalizable(scope) <==> scope.mode.Full? || !ScopeRefused(scope)
  {
    CleanedLaw(scope.directories);
    CleanedLaw(scope.files);
    CompanionsMean(scope);
    NothingGiven(scope.directories);
    NothingGiven(scope.files);
    hide Cleanable, ListRefused, SelectsCompanion, Deduped, CleanPaths, Companion, Escapes;
  }

  lemma NormalizedDescends(scope: Scope)
    requires Normalizable(scope) && !scope.mode.Full?
    ensures forall v | v in Normalized(scope).directories || v in Normalized(scope).files :: !Escapes(v)
  {
    NormalizedIsNormal(scope);
    forall v ensures Unsafe(v) <==> Escapes(v) { UnsafeEscapes(v); }
    hide Unsafe, Escapes, Tidy, Companion, CoveredBy, Normalized, Normalizable, Ordered, Antichain;
  }

  /** mode None stands for a spelling that is none of the three. */
  function Answer(mode: Option<Mode>, directories: seq<string>, files: seq<string>, revision: int): Option<Scope>
  {
    if mode.Some? && Normalizable(Scope(mode.value, directories, files, revision))
    then Some(Normalized(Scope(mode.value, directories, files, revision))) else None
  }

  /** When a scope is refused, and what an accepted one is free of. */
  lemma AnswerLaw(mode: Option<Mode>, directories: seq<string>, files: seq<string>, revision: int)
    ensures var r := Answer(mode, directories, files, revision);
      (r.None? <==> mode.None? || (mode.value != Full && ScopeRefused(Scope(mode.value, directories, files, revision))))
      && (r.Some? ==> forall v | v in r.value.directories || v in r.value.files :: !Escapes(v))
  {
    if mode.Some? {
      var scope := Scope(mode.value, directories, files, revision);
      NormalizableMeans(scope);
      if Normalizable(scope) && mode.value != Full { NormalizedDescends(scope); }
    }
    hide Cleanable, Companion, Roots, Uncovered, ScopeRefused, Escapes, Sort, Deduped, CleanPaths;
  }

  method NormalizeScope(mode: Option<Mode>, directories: seq<string>, files: seq<string>, revision: int) returns (r: Option<Scope>)
    ensures r == Answer(mode, directories, files, revision)
    ensures r.None? <==> mode.None? || (mode.value != Full && ScopeRefused(Scope(mode.value, directories, files, revision)))
    ensures r.Some? ==> forall v | v in r.value.directories || v in r.value.files :: !Escapes(v)
  {
    AnswerLaw(mode, directories, files, revision);
    hide Cleanable, Companion, Roots, Uncovered, ScopeRefused, ListRefused, Escapes, Sort, Deduped, CleanPaths;
    if mode.None? { return None; }
    var result := Scope(mode.value, [], [], if revision < 1 then 1 else revision);
    if mode.value == Full { return Some(result); }
    var d := CleanList(directories);
    if d.None? { return None; }
    var f := CleanList(files);
    if f.None? { return None; }
    for i := 0 to |f.value|
      invariant forall k | 0 <= k < i :: !Companion(f.value[k])
    {
      if Companion(f.value[i]) {
        assert f.value[i] in f.value;
        return None;
      }
    }
    var roots := RemoveCoveredDirectories(d.value);
    var rest := RemoveFilesCoveredByDirectories(f.value, roots);
    EmptyTogether(d.value, f.value);
    if mode.value == Custom && |roots| + |rest| == 0 { return None; }
    return Some(result.(directories := roots, files := rest));
  }

  /** The program counts what is left after dropping; that is zero only if there was nothing to drop. */
  lemma {:induction false} EmptyTogether(directories: seq<string>, files: seq<string>)
    requires Distinct(directories)
    ensures var roots := Roots(Sort(directories));
      |roots| + |Uncovered(files, roots)| == 0 <==> |directories| + |files| == 0
  {
    var roots := Roots(Sort(directories));
    SortOrders(directories);
    if directories != [] {
      var root := OneRootEach(directories, directories[0]);
    } else if files != [] {
      assert roots == [];
      UncoveredFiles(files, roots, files[0]);
    }
  }

  /** A scope that normalisation produced. */
  predicate Normal(scope: Scope)
  {
    scope.revision >= 1
    && if scope.mode.Full? then scope.directories == [] && scope.files == []
       else TidyList(scope.directories) && TidyList(scope.files)
            && Ordered(scope.directories) && Antichain(scope.directories)
            && (forall f | f in scope.files :: !CoveredBy(f, scope.directories) && !Companion(f))
            && (scope.mode.Custom? ==> |scope.directories| + |scope.files| > 0)
  }

  predicate TidyList(values: seq<string>)
  {
    Distinct(values) && |values| <= MAX_PATHS && forall v | v in values :: Tidy(v) && !Unsafe(v)
  }

  lemma {:induction false} RootsAreSome(sorted: seq<string>)
    requires Ordered(sorted)
    ensures Ordered(Roots(sorted)) && |Roots(sorted)| <= |sorted| && forall d | d in Roots(sorted) :: d in sorted
  {
    if sorted != [] {
      var init, last := sorted[..|sorted| - 1], sorted[|sorted| - 1];
      RootsAreSome(init);
      assert forall d | d in Roots(init) :: d in init && Shorter(d, last);
      assert forall i | 0 <= i < |Roots(init)| :: Roots(init)[i] in Roots(init);
    }
  }

  lemma {:induction false} UncoveredAreSome(files: seq<string>, directories: seq<string>)
    requires Distinct(files)
    ensures Distinct(Uncovered(files, directories)) && |Uncovered(files, directories)| <= |files|
  {
    if files != [] {
      var init, last := files[..|files| - 1], files[|files| - 1];
      UncoveredAreSome(init, directories);
      forall i | 0 <= i < |Uncovered(init, directories)| ensures Uncovered(init, directories)[i] != last {
        UncoveredFiles(init, directories, Uncovered(init, directories)[i]);
        assert Uncovered(init, directories)[i] in init;
      }
    }
  }

  lemma OrderedIsDistinct(values: seq<string>)
    requires Ordered(values)
    ensures Distinct(values)
  {
    forall i, j | 0 <= i < j < |values| ensures values[i] != values[j] { ShorterAsymmetric(values[i], values[j]); }
  }

  lemma NormalizedIsNormal(scope: Scope)
    requires Normalizable(scope)
    ensures Normal(Normalized(scope))
  {
    if !scope.mode.Full? {
      var directories, files := CleanedDirectories(scope), CleanedFiles(scope);
      var sorted := Sort(directories);
      var roots := Roots(sorted);
      CleanedFacts(scope.directories);
      CleanedFacts(scope.files);
      hide Roots, Sort, Uncovered, Tidy, Unsafe, Companion, Cleanable, Deduped, CleanPaths, CoveredBy;
      SortOrders(directories);
      RootsAreSome(sorted);
      OrderedIsDistinct(roots);
      RootsAreApart(directories);
      UncoveredAreSome(files, roots);
      forall f | f in Uncovered(files, roots) ensures f in files && !CoveredBy(f, roots) { UncoveredFiles(files, roots, f); }
      EmptyTogether(directories, files);
    }
  }

  lemma {:induction false} NothingCovered(files: seq<string>, directories: seq<string>)
    requires forall f | f in files :: !CoveredBy(f, directories)
    ensures Uncovered(files, directories) == files
  {
    if files != [] {
      NothingCovered(files[..|files| - 1], directories);
      assert files == files[..|files| - 1] + [files[|files| - 1]];
    }
  }

  lemma {:induction false} ApartIsRoots(sorted: seq<string>)
    requires Ordered(sorted) && Antichain(sorted)
    ensures Roots(sorted) == sorted
  {
    if sorted != [] {
      var init := sorted[..|sorted| - 1];
      assert sorted == init + [sorted[|sorted| - 1]];
      ApartIsRoots(init);
    }
  }

  /** Normalising what was normalised changes nothing, and accepts it. */
  lemma NormalIsFixed(scope: Scope)
    requires Normal(scope)
    ensures Normalizable(scope) && Normalized(scope) == scope
  {
    if !scope.mode.Full? {
      CleanedIsClean(scope.directories);
      CleanedIsClean(scope.files);
      OrderedIsSorted(scope.directories);
      ApartIsRoots(scope.directories);
      NothingCovered(scope.files, scope.directories);
    }
  }

  /** What a normalised scope selects is what its cleaned input selects. */
  lemma NormalizationPreservesSelection(scope: Scope, path: string)
    requires Normalizable(scope) && !scope.mode.Full?
    ensures Selected(path, Normalized(scope).directories, Normalized(scope).files)
      <==> Selected(path, CleanedDirectories(scope), CleanedFiles(scope))
  {
    CleanedFacts(scope.directories);
    RewritingPreservesSelection(CleanedDirectories(scope), CleanedFiles(scope), path);
  }

  // ---------------------------------------------------------------- applyScopeRevisions

  /** The scope the stored plan has for a deployment. */
  function Stored(targets: seq<Target>, deploy: string): Option<Scope>
  {
    if targets == [] then None
    else if targets[|targets| - 1].deploy == deploy then Some(targets[|targets| - 1].scope)
    else Stored(targets[..|targets| - 1], deploy)
  }

  predicate SameSelection(a: Scope, b: Scope)
  {
    a.mode == b.mode && a.directories == b.directories && a.files == b.files
  }

  function RevisedTarget(target: Target, was: Option<Scope>): Target
  {
    if was.None? then target.(scope := target.scope.(revision := 1))
    else if SameSelection(was.value, target.scope) then target.(scope := target.scope.(revision := was.value.revision))
    else target.(scope := target.scope.(revision := was.value.revision + 1))
  }

  predicate Changes(target: Target, was: Option<Scope>)
  {
    was.None? || !SameSelection(was.value, target.scope)
  }

  /** What ApplyScopeRevisions reports. */
  predicate Changed(edited: seq<Target>, current: seq<Target>)
  {
    |edited| != |current| || exists i | 0 <= i < |edited| :: Changes(edited[i], Stored(current, edited[i].deploy))
  }

  method SamePaths(left: seq<string>, right: seq<string>) returns (same: bool)
    ensures same <==> left == right
  {
    if |left| != |right| { return false; }
    for i := 0 to |left|
      invariant left[..i] == right[..i]
    {
      if left[i] != right[i] { return false; }
      assert left[..i + 1] == left[..i] + [left[i]] && right[..i + 1] == right[..i] + [right[i]];
    }
    assert left[..|left|] == left && right[..|right|] == right;
    return true;
  }

  /** Assigns each target of the edited plan its revision, in place. */
  method ApplyScopeRevisions(edited: array<Target>, current: seq<Target>) returns (changed: bool)
    modifies edited
    ensures forall i | 0 <= i < edited.Length ::
      edited[i] == RevisedTarget(old(edited[i]), Stored(current, old(edited[i]).deploy))
    ensures changed <==> Changed(old(edited[..]), current)
  {
    var previous: map<string, Scope> := map[];
    for i := 0 to |current|
      invariant forall d :: Stored(current[..i], d) == if d in previous then Some(previous[d]) else None
    {
      assert current[..i + 1][..i] == current[..i];
      previous := previous[current[i].deploy := current[i].scope];
    }
    assert current[..|current|] == current;
    changed := false;
    for i := 0 to edited.Length
      invariant forall k | i <= k < edited.Length :: edited[k] == old(edited[k])
      invariant forall k | 0 <= k < i :: edited[k] == RevisedTarget(old(edited[k]), Stored(current, old(edited[k]).deploy))
      invariant changed <==> exists k | 0 <= k < i :: Changes(old(edited[k]), Stored(current, old(edited[k]).deploy))
    {
      var target := edited[i];
      if target.deploy !in previous {
        edited[i] := target.(scope := target.scope.(revision := 1));
        changed := true;
        continue;
      }
      var was := previous[target.deploy];
      var sameDirectories := SamePaths(was.directories, target.scope.directories);
      var sameFiles := SamePaths(was.files, target.scope.files);
      if was.mode != target.scope.mode || !sameDirectories || !sameFiles {
        edited[i] := target.(scope := target.scope.(revision := was.revision + 1));
        changed := true;
        continue;
      }
      edited[i] := target.(scope := target.scope.(revision := was.revision));
    }
    changed := changed || edited.Length != |current|;
  }

  lemma {:induction false} StoredIs(targets: seq<Target>, i: nat)
    requires ValidTargets(targets) && i < |targets|
    ensures Stored(targets, targets[i].deploy) == Some(targets[i].scope)
  {
    if i < |targets| - 1 { StoredIs(targets[..|targets| - 1], i); }
  }

  lemma {:induction false} StoredFrom(targets: seq<Target>, deploy: string) returns (i: nat)
    requires Stored(targets, deploy).Some?
    ensures i < |targets| && targets[i] == Target(deploy, Stored(targets, deploy).value)
  {
    if targets[|targets| - 1].deploy == deploy { i := |targets| - 1; }
    else { i := StoredFrom(targets[..|targets| - 1], deploy); }
  }

  /** Both plans back the same deployments up, with the same selection each. */
  predicate SamePlan(edited: seq<Target>, current: seq<Target>)
  {
    forall t | t in edited :: Stored(current, t.deploy).Some? && SameSelection(Stored(current, t.deploy).value, t.scope)
  }

  predicate SameTargets(edited: seq<Target>, current: seq<Target>)
  {
    SamePlan(edited, current) && SamePlan(current, edited)
  }

  function Deploys(targets: seq<Target>): set<string>
  {
    set t | t in targets :: t.deploy
  }

  lemma {:induction false} DeploysCount(targets: seq<Target>)
    requires ValidTargets(targets)
    ensures |Deploys(targets)| == |targets|
  {
    if targets != [] {
      var init, last := targets[..|targets| - 1], targets[|targets| - 1];
      DeploysCount(init);
      assert targets == init + [last];
      assert last.deploy !in Deploys(init);
      assert Deploys(targets) == Deploys(init) + {last.deploy};
    }
  }

  /** A plan edit reports no change exactly when the target map is the stored one, whatever the order of the targets. */
  lemma ReportsNoChangeExactly(edited: seq<Target>, current: seq<Target>)
    requires ValidTargets(edited) && ValidTargets(current)
    ensures !Changed(edited, current) <==> SameTargets(edited, current)
  {
    DeploysCount(edited);
    DeploysCount(current);
    if SamePlan(edited, current) {
      forall d | d in Deploys(edited) ensures d in Deploys(current) { var i := StoredFrom(current, d); assert current[i] in current; }
    }
    if SamePlan(current, edited) {
      forall d | d in Deploys(current) ensures d in Deploys(edited) { var i := StoredFrom(edited, d); assert edited[i] in edited; }
    }
    if !Changed(edited, current) {
      assert SamePlan(edited, current);
      SameSize(Deploys(edited), Deploys(current));
      forall t | t in current ensures Stored(edited, t.deploy).Some? && SameSelection(Stored(edited, t.deploy).value, t.scope) {
        assert t.deploy in Deploys(edited);
        var u :| u in edited && u.deploy == t.deploy;
        StoredTo(edited, u);
        StoredTo(current, t);
      }
    } else if |edited| == |current| {
      assert exists i | 0 <= i < |edited| :: edited[i] in edited && Changes(edited[i], Stored(current, edited[i].deploy));
    } else if SameTargets(edited, current) {
      SameSets(edited, current);
    }
  }

  lemma StoredTo(targets: seq<Target>, t: Target)
    requires ValidTargets(targets) && t in targets
    ensures Stored(targets, t.deploy) == Some(t.scope)
  {
    var i :| 0 <= i < |targets| && targets[i] == t;
    StoredIs(targets, i);
  }

  lemma SameSets(edited: seq<Target>, current: seq<Target>)
    requires ValidTargets(edited) && ValidTargets(current)
    requires Deploys(edited) <= Deploys(current) && Deploys(current) <= Deploys(edited)
    ensures |edited| == |current|
  {
    DeploysCount(edited);
    DeploysCount(current);
    assert Deploys(edited) == Deploys(current);
  }

  /** Saving a stored plan again, as the form sends it back, changes no scope and cancels nothing. */
  lemma ResubmissionCancelsNothing(s: State, p: string, row: Plan, now: int)
    requires p in s.plans && ValidTargets(s.plans[p].targets)
    requires forall t | t in s.plans[p].targets :: Normal(t.scope)
    requires row.targets == s.plans[p].targets
    ensures forall i | 0 <= i < |row.targets| ::
      Normalizable(row.targets[i].scope)
      && RevisedTarget(row.targets[i].(scope := Normalized(row.targets[i].scope)), Stored(s.plans[p].targets, row.targets[i].deploy))
         == row.targets[i]
    ensures !Changed(row.targets, s.plans[p].targets)
    ensures var r := UpdatePlan(s, p, row, Changed(row.targets, s.plans[p].targets), now); r.tasks == s.tasks && r.jobs == s.jobs
  {
    forall i | 0 <= i < |row.targets|
      ensures Normalizable(row.targets[i].scope) && Normalized(row.targets[i].scope) == row.targets[i].scope
      ensures Stored(s.plans[p].targets, row.targets[i].deploy) == Some(row.targets[i].scope)
    {
      assert row.targets[i] in s.plans[p].targets;
      NormalIsFixed(row.targets[i].scope);
      StoredIs(s.plans[p].targets, i);
    }
  }
}
