/** Slash-separated paths: path.Clean and the three name checks of the storage layer. */
module Paths {
  import Text

  // ---------------------------------------------------------------- components

  function Split(s: string): (parts: seq<string>)
    ensures parts != []
  {
    Text.Fields(s, '/')
  }

  function Join(parts: seq<string>): string
    requires parts != []
  {
    Text.Glue(parts, '/')
  }

  predicate Whole(part: string)
  {
    '/' !in part
  }

  lemma SplitIsWhole(s: string)
    ensures forall part | part in Split(s) :: Whole(part)
  {
    Text.FieldsAreWhole(s, '/');
  }

  lemma JoinSplit(s: string)
    ensures Join(Split(s)) == s
  {
    Text.GlueFields(s, '/');
  }

  lemma SplitJoin(parts: seq<string>)
    requires parts != [] && forall part | part in parts :: Whole(part)
    ensures Split(Join(parts)) == parts
  {
    Text.FieldsGlue(parts, '/');
  }

  // ---------------------------------------------------------------- path.Clean

  /** The output stack of path.Clean after reading parts. */
  function Reduce(parts: seq<string>, out: seq<string>, rooted: bool): seq<string>
  {
    if parts == [] then out
    else if parts[0] == "" || parts[0] == "." then Reduce(parts[1..], out, rooted)
    else if parts[0] == ".." then
      if out != [] && out[|out| - 1] != ".." then Reduce(parts[1..], out[..|out| - 1], rooted)
      else if rooted then Reduce(parts[1..], out, rooted)
      else Reduce(parts[1..], out + [".."], rooted)
    else Reduce(parts[1..], out + [parts[0]], rooted)
  }

  function Clean(s: string): string
  {
    var out := Reduce(Split(s), [], Text.HasPrefix(s, "/"));
    if Text.HasPrefix(s, "/") then "/" + (if out == [] then "" else Join(out))
    else if out == [] then "." else Join(out)
  }

  /** A component that names a child. */
  predicate Plain(part: string)
  {
    part != "" && part != "." && part != ".." && Whole(part)
  }

  /** A path that only descends. */
  predicate Descends(s: string)
  {
    forall part | part in Split(s) :: Plain(part)
  }

  /** What path.Clean leaves: parents first, then children. */
  predicate Reduced(out: seq<string>)
  {
    (forall part | part in out :: part != "" && part != "." && Whole(part))
    && forall i, j | 0 <= i < j < |out| && out[j] == ".." :: out[i] == ".."
  }

  lemma ReducedPop(out: seq<string>)
    requires Reduced(out) && out != []
    ensures Reduced(out[..|out| - 1])
  {
    hide Whole;
    var less := out[..|out| - 1];
    assert forall k | 0 <= k < |less| :: less[k] == out[k];
    forall part | part in less ensures part != "" && part != "." && Whole(part) {
      assert part in out;
    }
    forall i, j | 0 <= i < j < |less| && less[j] == ".." ensures less[i] == ".." {
      assert out[j] == "..";
    }
  }

  lemma ReducedPush(out: seq<string>, part: string)
    requires Reduced(out) && part != "" && part != "." && Whole(part)
    requires part == ".." ==> out == [] || out[|out| - 1] == ".."
    ensures Reduced(out + [part])
  {
    if part == ".." && out != [] {
      assert forall i | 0 <= i < |out| - 1 :: out[i] == "..";
    }
  }

  lemma {:induction false} ReduceIsReduced(parts: seq<string>, out: seq<string>, rooted: bool)
    requires Reduced(out) && forall part | part in parts :: Whole(part)
    ensures Reduced(Reduce(parts, out, rooted))
  {
    if parts != [] {
      hide Reduced, Whole;
      assert parts[0] in parts && forall part | part in parts[1..] :: part in parts;
      if parts[0] == "" || parts[0] == "." {
        ReduceIsReduced(parts[1..], out, rooted);
      } else if parts[0] == ".." {
        if out != [] && out[|out| - 1] != ".." {
          ReducedPop(out);
          ReduceIsReduced(parts[1..], out[..|out| - 1], rooted);
        } else if rooted {
          ReduceIsReduced(parts[1..], out, rooted);
        } else {
          WholeParent();
          ReducedPush(out, "..");
          ReduceIsReduced(parts[1..], out + [".."], rooted);
        }
      } else {
        ReducedPush(out, parts[0]);
        ReduceIsReduced(parts[1..], out + [parts[0]], rooted);
      }
    }
  }

  lemma WholeParent()
    ensures Whole("..")
  {}

  lemma {:induction false} ReduceKeepsPlain(parts: seq<string>, out: seq<string>, rooted: bool)
    requires forall part | part in parts :: Plain(part)
    ensures Reduce(parts, out, rooted) == out + parts
  {
    if parts != [] {
      assert Plain(parts[0]);
      ReduceKeepsPlain(parts[1..], out + [parts[0]], rooted);
      assert out + [parts[0]] + parts[1..] == out + parts;
    }
  }

  lemma DescendingIsClean(s: string)
    requires Descends(s)
    ensures Clean(s) == s && !Text.HasPrefix(s, "/") && s != "" && s != "." && s != ".." && !Text.HasPrefix(s, "../")
  {
    hide Reduce;
    ReduceKeepsPlain(Split(s), [], Text.HasPrefix(s, "/"));
    assert [] + Split(s) == Split(s);
    JoinSplit(s);
    assert Plain(Split(s)[0]);
    RootedHead(s);
    ParentPrefix(s);
  }

  lemma RootedHead(s: string)
    ensures Text.HasPrefix(s, "/") ==> Split(s)[0] == ""
  {}

  lemma ParentHead(s: string)
    ensures Split(s)[0] == ".." ==> s == ".." || Text.HasPrefix(s, "../")
  {
    var out := Split(s);
    JoinSplit(s);
    if out[0] == ".." && |out| > 1 {
      assert s == "../" + Join(out[1..]);
    }
  }

  lemma ParentPrefix(s: string)
    ensures Text.HasPrefix(s, "../") ==> Split(s)[0] == ".."
  {
    if Text.HasPrefix(s, "../") {
      var rest := s[3..];
      assert s == "../" + rest && s[1..] == "./" + rest && s[1..][1..] == "/" + rest;
      assert Split("/" + rest)[0] == "";
      assert Split("./" + rest)[0] == ".";
    }
  }

  lemma FixedIsReduced(s: string)
    requires Clean(s) == s && !Text.HasPrefix(s, "/") && s != "."
    ensures Reduced(Split(s))
  {
    SplitIsWhole(s);
    ReduceIsReduced(Split(s), [], false);
    var out := Reduce(Split(s), [], false);
    SplitJoin(out);
    assert Split(s) == out;
  }

  lemma ReducedDescends(s: string)
    requires Reduced(Split(s)) && s != ".." && !Text.HasPrefix(s, "../")
    ensures Descends(s)
  {
    ParentHead(s);
    forall part | part in Split(s) ensures Plain(part) {}
  }

  lemma CurrentIsClean()
    ensures Clean(".") == "."
  {
    var s := ".";
    assert s[1..] == "" && Split("") == [""];
    assert Split(s) == [[s[0]] + ""];
    assert Reduce([], [], false) == [];
    assert Reduce(["."], [], false) == [];
  }

  /** Clean paths without a parent step are exactly the descending ones and ".". */
  lemma CleanRelative(s: string)
    requires s != "" && !Text.HasPrefix(s, "/") && s != ".." && !Text.HasPrefix(s, "../")
    ensures Clean(s) == s <==> s == "." || Descends(s)
  {
    hide Clean;
    CurrentIsClean();
    if Descends(s) {
      DescendingIsClean(s);
    } else if Clean(s) == s && s != "." {
      FixedIsReduced(s);
      ReducedDescends(s);
    }
  }

  // ---------------------------------------------------------------- the three checks

  predicate SafeRelative(value: string)
  {
    value != "" && !Text.HasPrefix(value, "/")
    && var clean := Clean(value);
       clean == value && clean != "." && clean != ".." && !Text.HasPrefix(clean, "../")
  }

  predicate SafeSegment(value: string)
  {
    value != "" && value != "." && value != ".." && '/' !in value && '\\' !in value
  }

  /** A segment names a child, and holds no backslash either. */
  lemma SafeSegmentIsChild(value: string)
    ensures SafeSegment(value) <==> Descends(value) && Split(value) == [value] && '\\' !in value
  {
    if '/' !in value { SplitJoin([value]); }
    if Descends(value) && Split(value) == [value] { assert Plain(value); }
  }

  predicate SafeZipPath(value: string)
  {
    value != "" && !Text.HasPrefix(value, "/")
    && var trimmed := Text.TrimSuffix(value, "/");
       trimmed != "" && Clean(trimmed) == trimmed && trimmed != ".." && !Text.HasPrefix(trimmed, "../")
  }

  /** A storage path is accepted exactly when every component names a child. */
  lemma SafeRelativeDescends(value: string)
    ensures SafeRelative(value) <==> Descends(value)
  {
    if Descends(value) {
      DescendingIsClean(value);
    } else if SafeRelative(value) {
      CleanRelative(value);
      assert false;
    }
  }

  lemma TrimmedHead(value: string)
    requires !Text.HasPrefix(value, "/")
    ensures !Text.HasPrefix(Text.TrimSuffix(value, "/"), "/")
  {
    assert Text.TrimSuffix(value, "/") <= value;
  }

  /** An archive name is accepted exactly when, less one trailing slash, it is "." or every component names a child. */
  lemma SafeZipPathDescends(value: string)
    ensures SafeZipPath(value) <==>
      Text.TrimSuffix(value, "/") == "." || (Descends(Text.TrimSuffix(value, "/")) && value != "")
  {
    var trimmed := Text.TrimSuffix(value, "/");
    if Text.HasPrefix(value, "/") {
      if trimmed != "" { assert trimmed[0] == '/' ; assert Split(trimmed)[0] == ""; }
      else { assert Split(trimmed) == [""]; }
      assert trimmed != ".";
      assert !Descends(trimmed) by { assert !Plain(Split(trimmed)[0]); }
    } else {
      TrimmedHead(value);
      if trimmed == "" { assert Split(trimmed) == [""]; assert !Plain(Split(trimmed)[0]); }
      else if trimmed == ".." || Text.HasPrefix(trimmed, "../") {
        if Descends(trimmed) { DescendingIsClean(trimmed); assert false; }
      } else { CleanRelative(trimmed); }
    }
  }

  // ---------------------------------------------------------------- building paths

  /** A safe segment is one plain component. */
  lemma SegmentIsPlain(value: string)
    requires SafeSegment(value)
    ensures Plain(value) && Split(value) == [value]
  {
    SplitJoin([value]);
  }

  lemma SplitOfJoined(a: string, b: string)
    ensures Split(a + "/" + b) == Split(a) + Split(b)
  {
    Text.FieldsBoth(a, b, '/');
  }
}
