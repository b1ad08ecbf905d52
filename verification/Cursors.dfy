/** The text of page cursors. Strings are sequences of bytes; base64url is taken as a bijection (RFC 4648, section 5). */
module Cursors {
  import opened Tables
  import Text

  const NUL: char := '\0'

  /** An encoder and its decoder; what the decoder says of other texts is left open. */
  datatype Base64 = Base64(encode: string -> string, decode: string -> Option<string>)

  ghost predicate Bijective(c: Base64)
  {
    forall s {:trigger c.encode(s)} :: c.decode(c.encode(s)) == Some(s) && (s != "" ==> c.encode(s) != "")
  }

  // ---------------------------------------------------------------- decimal numbers

  const MIN_INT64 := -0x8000_0000_0000_0000
  const MAX_INT64 := 0x7FFF_FFFF_FFFF_FFFF

  predicate Digit(c: char)
  {
    '0' <= c <= '9'
  }

  function Digits(n: nat): (r: string)
    ensures r != "" && forall c | c in r :: Digit(c)
  {
    var last := '0' + (n % 10) as char;
    if n < 10 then [last] else Digits(n / 10) + [last]
  }

  /** strconv.FormatInt(n, 10) */
  function FormatInt(n: int): string
  {
    if n < 0 then "-" + Digits(-n) else Digits(n)
  }

  /** The value of a digit string; None when there is no digit or something else among them. */
  function Magnitude(s: string): Option<nat>
  {
    if s == "" then None
    else
      var last := s[|s| - 1];
      if !Digit(last) then None
      else if |s| == 1 then Some((last - '0') as nat)
      else match Magnitude(s[..|s| - 1])
        case None => None
        case Some(n) => Some(10 * n + (last - '0') as nat)
  }

  function Signed(negative: bool, magnitude: Option<int>): Option<int>
  {
    match magnitude
    case None => None
    case Some(n) =>
      var v := if negative then -n else n;
      if MIN_INT64 <= v <= MAX_INT64 then Some(v) else None
  }

  /** strconv.ParseInt(s, 10, 64): one optional sign, digits, and the range of a 64-bit integer. */
  function ParseInt(s: string): Option<int>
  {
    if s != "" && (s[0] == '-' || s[0] == '+') then Signed(s[0] == '-', Magnitude(s[1..])) else Signed(false, Magnitude(s))
  }

  lemma {:induction false} MagnitudeOfDigits(n: nat)
    ensures Magnitude(Digits(n)) == Some(n)
  {
    if n >= 10 {
      MagnitudeOfDigits(n / 10);
      var s := Digits(n);
      assert s[..|s| - 1] == Digits(n / 10);
    }
  }

  lemma ParseFormat(n: int)
    ensures ParseInt(FormatInt(n)) == if -9_223_372_036_854_775_808 <= n <= 9_223_372_036_854_775_807 then Some(n) else None
  {
    if n < 0 {
      MagnitudeOfDigits(-n);
      assert FormatInt(n)[1..] == Digits(-n);
    } else {
      MagnitudeOfDigits(n);
      assert Digits(n)[0] in Digits(n);
    }
  }

  lemma NumberIsWhole(n: int)
    ensures NUL !in FormatInt(n)
  {}

  // ---------------------------------------------------------------- the cursor

  datatype Position = Start | At(time: int, id: string)

  function EncodeTimeCursor(c: Base64, scope: string, time: int, id: string): string
  {
    c.encode(scope + [NUL] + FormatInt(time) + [NUL] + id)
  }

  /** None is the invalid-cursor error. */
  function DecodeTimeCursor(c: Base64, value: string, scope: string): Option<Position>
  {
    if value == "" then Some(Start)
    else match c.decode(value)
      case None => None
      case Some(decoded) =>
        var parts := Text.Fields(decoded, NUL);
        if |parts| != 3 || parts[0] != scope || parts[2] == "" then None
        else match ParseInt(parts[1])
          case None => None
          case Some(time) => Some(At(time, parts[2]))
  }

  lemma CursorFields(scope: string, time: int, id: string)
    requires NUL !in scope
    ensures Text.Fields(scope + [NUL] + FormatInt(time) + [NUL] + id, NUL) == [scope, FormatInt(time)] + Text.Fields(id, NUL)
  {
    NumberIsWhole(time);
    var number := FormatInt(time);
    Text.FieldsGlue([scope], NUL);
    Text.FieldsGlue([number], NUL);
    Text.FieldsBoth(scope + [NUL] + number, id, NUL);
    Text.FieldsBoth(scope, number, NUL);
  }

  lemma WholeOrSplit(id: string)
    ensures NUL !in id ==> Text.Fields(id, NUL) == [id]
    ensures NUL in id ==> |Text.Fields(id, NUL)| > 1
  {
    if NUL !in id { Text.FieldsGlue([id], NUL); }
    Text.FieldsAreWhole(id, NUL);
    Text.GlueFields(id, NUL);
  }

  /** A cursor decodes to what was encoded exactly when the row's id is neither empty nor holds a NUL byte. */
  lemma CursorRoundTrip(c: Base64, scope: string, time: int, id: string)
    requires Bijective(c) && NUL !in scope && MIN_INT64 <= time <= MAX_INT64
    ensures var text := EncodeTimeCursor(c, scope, time, id);
      text != "" && DecodeTimeCursor(c, text, scope) == if id != "" && NUL !in id then Some(At(time, id)) else None
  {
    var plain := scope + [NUL] + FormatInt(time) + [NUL] + id;
    assert plain != "" by { assert plain[|scope|] == NUL; }
    hide Text.Fields;
    CursorFields(scope, time, id);
    WholeOrSplit(id);
    ParseFormat(time);
    assert c.decode(c.encode(plain)) == Some(plain);
    if id == "" { assert Text.Fields(id, NUL) == [""]; }
  }

  /** A cursor of another listing is refused. */
  lemma ForeignCursorIsRefused(c: Base64, scope: string, other: string, time: int, id: string)
    requires Bijective(c) && NUL !in scope && other != scope
    ensures DecodeTimeCursor(c, EncodeTimeCursor(c, scope, time, id), other) == None
  {
    var plain := scope + [NUL] + FormatInt(time) + [NUL] + id;
    assert plain != "" by { assert plain[|scope|] == NUL; }
    hide Text.Fields;
    CursorFields(scope, time, id);
    assert c.decode(c.encode(plain)) == Some(plain);
  }

  // ---------------------------------------------------------------- the scope of a listing

  const VERSION := "mimi-cursor-v2"

  /** The bytes whose digest names a listing and its filters. */
  function ScopePreimage(parts: seq<string>): string
  {
    Text.Glue([VERSION] + parts, NUL)
  }

  /** Listings with different filters hash different bytes, as long as no filter holds a NUL byte. */
  lemma ScopesDiffer(a: seq<string>, b: seq<string>)
    requires (forall x | x in a :: NUL !in x) && (forall x | x in b :: NUL !in x)
    ensures ScopePreimage(a) == ScopePreimage(b) <==> a == b
    ensures Text.Fields(ScopePreimage(a), '\0') == ["mimi-cursor-v2"] + a
  {
    hide Text.Fields;
    assert NUL !in VERSION;
    Text.FieldsGlue([VERSION] + a, NUL);
    Text.FieldsGlue([VERSION] + b, NUL);
    if ScopePreimage(a) == ScopePreimage(b) {
      assert ([VERSION] + a)[1..] == a && ([VERSION] + b)[1..] == b;
    }
  }
}
