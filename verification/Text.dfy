/** Strings as the control database and Go compare them: by code unit, left to right. */
module Text {

  /** Strict order of Go's `<` on strings and of SQLite's BINARY collation. */
  predicate Less(a: string, b: string)
  {
    if |b| == 0 then false
    else if |a| == 0 then true
    else if a[0] != b[0] then a[0] < b[0]
    else Less(a[1..], b[1..])
  }

  /** A string is less when it is a proper part of the other's beginning, or has the smaller unit where they first differ. */
  lemma {:induction false} LessMeans(a: string, b: string)
    ensures Less(a, b) <==> a < b || exists k | 0 <= k < |a| && k < |b| :: a[..k] == b[..k] && a[k] < b[k]
  {
    if |a| > 0 && |b| > 0 && a[0] == b[0] {
      LessMeans(a[1..], b[1..]);
      assert a == [a[0]] + a[1..] && b == [b[0]] + b[1..];
      if k :| 0 <= k < |a| - 1 && k < |b| - 1 && a[1..][..k] == b[1..][..k] && a[1..][k] < b[1..][k] {
        assert a[..k + 1] == [a[0]] + a[1..][..k] && b[..k + 1] == [b[0]] + b[1..][..k];
        assert a[k + 1] < b[k + 1];
      }
      if k :| 0 <= k < |a| && k < |b| && a[..k] == b[..k] && a[k] < b[k] {
        assert k > 0;
        assert a[1..][..k - 1] == a[..k][1..] && b[1..][..k - 1] == b[..k][1..];
        assert a[1..][k - 1] < b[1..][k - 1];
      }
    } else if |a| > 0 && |b| > 0 && a[0] < b[0] {
      assert a[..0] == b[..0];
    }
  }

  lemma {:induction false} LessTotal(a: string, b: string)
    ensures a == b || Less(a, b) || Less(b, a)
  {
    if |a| > 0 && |b| > 0 && a[0] == b[0] {
      LessTotal(a[1..], b[1..]);
      if a[1..] == b[1..] {
        assert a == [a[0]] + a[1..] && b == [b[0]] + b[1..];
      }
    }
  }

  lemma {:induction false} LessAsymmetric(a: string, b: string)
    requires Less(a, b)
    ensures !Less(b, a) && a != b
  {
    if |a| > 0 && a[0] == b[0] {
      LessAsymmetric(a[1..], b[1..]);
    }
  }

  lemma {:induction false} LessTransitive(a: string, b: string, c: string)
    requires Less(a, b) && Less(b, c)
    ensures Less(a, c)
  {
    if |a| > 0 && a[0] == b[0] && b[0] == c[0] {
      LessTransitive(a[1..], b[1..], c[1..]);
    }
  }

  /** strings.HasPrefix */
  predicate HasPrefix(s: string, p: string)
  {
    p <= s
  }

  /** strings.HasSuffix */
  predicate HasSuffix(s: string, p: string)
  {
    |p| <= |s| && s[|s| - |p|..] == p
  }

  /** strings.TrimPrefix */
  function TrimPrefix(s: string, p: string): string
  {
    if HasPrefix(s, p) then s[|p|..] else s
  }

  /** strings.TrimSuffix */
  function TrimSuffix(s: string, p: string): string
  {
    if HasSuffix(s, p) then s[..|s| - |p|] else s
  }

  // ---------------------------------------------------------------- fields between separators

  /** strings.Split(s, sep) for a one-character separator. */
  function Fields(s: string, sep: char): (parts: seq<string>)
    ensures parts != []
  {
    if s == "" then [""]
    else if s[0] == sep then [""] + Fields(s[1..], sep)
    else var rest := Fields(s[1..], sep); [[s[0]] + rest[0]] + rest[1..]
  }

  /** strings.Join(parts, sep) */
  function Glue(parts: seq<string>, sep: char): string
    requires parts != []
  {
    if |parts| == 1 then parts[0] else parts[0] + [sep] + Glue(parts[1..], sep)
  }

  lemma {:induction false} FieldsAreWhole(s: string, sep: char)
    ensures forall part | part in Fields(s, sep) :: sep !in part
  {
    if s != "" {
      FieldsAreWhole(s[1..], sep);
      var rest := Fields(s[1..], sep);
      assert sep !in rest[0];
      forall part | part in Fields(s, sep) ensures sep !in part {
        if s[0] != sep && part != Fields(s, sep)[0] { assert part in rest[1..]; }
      }
    }
  }

  lemma GlueCons(part: string, rest: seq<string>, sep: char)
    requires rest != []
    ensures Glue([part] + rest, sep) == part + [sep] + Glue(rest, sep)
  {
    assert ([part] + rest)[1..] == rest;
  }

  lemma GluePrepend(c: char, parts: seq<string>, sep: char)
    requires parts != []
    ensures Glue([[c] + parts[0]] + parts[1..], sep) == [c] + Glue(parts, sep)
  {
    var longer := [[c] + parts[0]] + parts[1..];
    assert longer[1..] == parts[1..];
  }

  /** Joining what was split gives the string back. */
  lemma {:induction false} GlueFields(s: string, sep: char)
    ensures Glue(Fields(s, sep), sep) == s
  {
    if s != "" {
      GlueFields(s[1..], sep);
      var rest := Fields(s[1..], sep);
      if s[0] == sep {
        GlueCons("", rest, sep);
        assert s == "" + [sep] + s[1..];
      } else {
        GluePrepend(s[0], rest, sep);
        assert s == [s[0]] + s[1..];
      }
    }
  }

  lemma FieldsCons(s: string, sep: char)
    requires s != ""
    ensures s[0] == sep ==> Fields(s, sep) == [""] + Fields(s[1..], sep)
    ensures s[0] != sep ==> Fields(s, sep) == [[s[0]] + Fields(s[1..], sep)[0]] + Fields(s[1..], sep)[1..]
  {}

  /** Splitting what was joined gives the parts back, when no part holds the separator. */
  lemma {:induction false} FieldsGlue(parts: seq<string>, sep: char)
    requires parts != [] && forall part | part in parts :: sep !in part
    ensures Fields(Glue(parts, sep), sep) == parts
    decreases |parts|, |parts[0]|
  {
    if parts[0] == "" {
      if |parts| > 1 {
        FieldsGlue(parts[1..], sep);
        assert Glue(parts, sep) == [sep] + Glue(parts[1..], sep);
        FieldsCons(Glue(parts, sep), sep);
        assert Glue(parts, sep)[1..] == Glue(parts[1..], sep);
      }
    } else {
      assert sep !in parts[0] && parts[0][0] in parts[0];
      var shorter := [parts[0][1..]] + parts[1..];
      GluePrepend(parts[0][0], shorter, sep);
      assert [parts[0][0]] + parts[0][1..] == parts[0];
      assert [[parts[0][0]] + shorter[0]] + shorter[1..] == parts;
      forall part | part in shorter ensures sep !in part {
        if part == parts[0][1..] {
          assert forall c | c in part :: c in parts[0];
        } else {
          assert part in parts[1..];
        }
      }
      FieldsGlue(shorter, sep);
      FieldsCons(Glue(parts, sep), sep);
      assert Glue(parts, sep)[1..] == Glue(shorter, sep);
    }
  }

  lemma {:induction false} GlueBoth(a: seq<string>, b: seq<string>, sep: char)
    requires a != [] && b != []
    ensures Glue(a + b, sep) == Glue(a, sep) + [sep] + Glue(b, sep)
  {
    if |a| == 1 {
      assert (a + b)[1..] == b;
    } else {
      assert (a + b)[1..] == a[1..] + b;
      GlueBoth(a[1..], b, sep);
      assert Glue(a + b, sep) == a[0] + [sep] + (Glue(a[1..], sep) + [sep] + Glue(b, sep));
      assert Glue(a, sep) + [sep] + Glue(b, sep) == a[0] + [sep] + Glue(a[1..], sep) + [sep] + Glue(b, sep);
    }
  }

  lemma {:induction false} FieldsBoth(a: string, b: string, sep: char)
    ensures Fields(a + [sep] + b, sep) == Fields(a, sep) + Fields(b, sep)
  {
    FieldsAreWhole(a, sep);
    FieldsAreWhole(b, sep);
    GlueFields(a, sep);
    GlueFields(b, sep);
    GlueBoth(Fields(a, sep), Fields(b, sep), sep);
    FieldsGlue(Fields(a, sep) + Fields(b, sep), sep);
  }
}
