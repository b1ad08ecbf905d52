/** Which snapshots of a plan a retention run keeps. */
module Retention {
  import opened Listing
  import opened Sets
  import Tables

  datatype Item = Item(id: string, at: int, verification: Tables.Verification) {
    function Place(): Key { Key(at, id) }
  }

  datatype Policy = Policy(last: int, daily: int, weekly: int, monthly: int)

  /** The UTC day, ISO week and month of an instant. */
  datatype Calendar = Calendar(day: int -> int, week: int -> int, month: int -> int)

  /** Later instants do not fall into earlier periods. */
  ghost predicate Monotone(key: int -> int)
  {
    forall a, b {:trigger key(a), key(b)} | a <= b :: key(a) <= key(b)
  }

  ghost predicate Sound(c: Calendar)
  {
    Monotone(c.day) && Monotone(c.week) && Monotone(c.month)
  }

  // ---------------------------------------------------------------- the rule, on an unordered set of snapshots

  function Newer(rows: set<Item>, x: Item): set<Item>
  {
    set y | y in rows && Precedes(y.Place(), x.Place())
  }

  /** The periods after a given one in which some snapshot was taken. */
  function Periods(rows: set<Item>, key: int -> int, after: int): set<int>
  {
    set y | y in rows && key(y.at) > after :: key(y.at)
  }

  predicate Newest(rows: set<Item>, key: int -> int, x: Item)
  {
    forall y | y in Newer(rows, x) :: key(y.at) != key(x.at)
  }

  /** x is the newest snapshot of one of the quota most recent periods that have one. */
  predicate Represents(rows: set<Item>, key: int -> int, quota: int, x: Item)
  {
    Newest(rows, key, x) && |Periods(rows, key, key(x.at))| < quota
  }

  predicate NewestVerified(rows: set<Item>, x: Item)
  {
    x.verification.Verified? && forall y | y in Newer(rows, x) :: !y.verification.Verified?
  }

  predicate WithinQuotas(rows: set<Item>, c: Calendar, p: Policy, x: Item)
  {
    |Newer(rows, x)| < p.last || Represents(rows, c.day, p.daily, x)
    || Represents(rows, c.week, p.weekly, x) || Represents(rows, c.month, p.monthly, x)
  }

  predicate Survives(rows: set<Item>, c: Calendar, p: Policy, x: Item)
  {
    WithinQuotas(rows, c, p, x) || NewestVerified(rows, x)
  }

  function Survivors(rows: set<Item>, c: Calendar, p: Policy): set<Item>
  {
    set x | x in rows && Survives(rows, c, p, x)
  }

  /** A snapshot that failed verification stops the run from deleting anything. */
  predicate AnyBroken(rows: set<Item>)
  {
    exists x | x in rows :: x.verification.Broken?
  }

  function Kept(rows: set<Item>, c: Calendar, p: Policy): set<Item>
  {
    if AnyBroken(rows) then rows else Survivors(rows, c, p)
  }

  // ---------------------------------------------------------------- confluence

  lemma NewerGrows(rows: set<Item>, d: Item, x: Item)
    requires d in rows && Precedes(d.Place(), x.Place())
    ensures Newer(rows, d) + {d} <= Newer(rows, x) && d !in Newer(rows, d)
    ensures |Newer(rows, d)| < |Newer(rows, x)|
  {
    forall y | y in Newer(rows, d) ensures y in Newer(rows, x) && y != d {
      PrecedesTransitive(y.Place(), d.Place(), x.Place());
      PrecedesAsymmetric(y.Place(), d.Place());
    }
    SubsetSize(Newer(rows, d) + {d}, Newer(rows, x));
  }

  lemma RankWithout(rows: set<Item>, d: Item, x: Item, last: int)
    requires d in rows && |Newer(rows, d)| >= last
    ensures |Newer(rows - {d}, x)| < last <==> |Newer(rows, x)| < last
  {
    if Precedes(d.Place(), x.Place()) {
      NewerGrows(rows, d, x);
      assert Newer(rows - {d}, x) == Newer(rows, x) - {d};
    } else {
      assert Newer(rows - {d}, x) == Newer(rows, x);
    }
  }

  lemma NewestWithout(rows: set<Item>, key: int -> int, d: Item, x: Item)
    requires d in rows && !Newest(rows, key, d)
    ensures Newest(rows - {d}, key, x) <==> Newest(rows, key, x)
  {
    if !Newest(rows, key, x) {
      var y :| y in Newer(rows, x) && key(y.at) == key(x.at);
      if y == d {
        NewerGrows(rows, d, x);
        var e :| e in Newer(rows, d) && key(e.at) == key(d.at);
        assert e in Newer(rows - {d}, x);
      } else {
        assert y in Newer(rows - {d}, x);
      }
    }
  }

  lemma PeriodsWithout(rows: set<Item>, key: int -> int, d: Item, after: int)
    requires d in rows && (!Newest(rows, key, d) || key(d.at) <= after)
    ensures Periods(rows - {d}, key, after) == Periods(rows, key, after)
  {
    forall k | k in Periods(rows, key, after) ensures k in Periods(rows - {d}, key, after) {
      var y :| y in rows && key(y.at) > after && key(y.at) == k;
      if y == d {
        var e :| e in Newer(rows, d) && key(e.at) == key(d.at);
        PrecedesAsymmetric(e.Place(), d.Place());
        assert e in rows - {d};
      }
    }
  }

  lemma RepresentsWithout(rows: set<Item>, key: int -> int, quota: int, d: Item, x: Item)
    requires d in rows && !Represents(rows, key, quota, d)
    ensures Represents(rows - {d}, key, quota, x) <==> Represents(rows, key, quota, x)
  {
    var k := key(x.at);
    if !Newest(rows, key, d) {
      NewestWithout(rows, key, d, x);
      PeriodsWithout(rows, key, d, k);
    } else if key(d.at) > k {
      assert Newest(rows - {d}, key, x) <==> Newest(rows, key, x) by {
        assert forall y | y in Newer(rows, x) && key(y.at) == k :: y in Newer(rows - {d}, x);
      }
      PeriodsWithout(rows, key, d, key(d.at));
      assert Periods(rows, key, key(d.at)) <= Periods(rows - {d}, key, k) <= Periods(rows, key, k);
      SubsetSize(Periods(rows, key, key(d.at)), Periods(rows - {d}, key, k));
      SubsetSize(Periods(rows, key, key(d.at)), Periods(rows, key, k));
    } else {
      PeriodsWithout(rows, key, d, k);
      if key(d.at) < k {
        assert forall y | y in Newer(rows, x) && key(y.at) == k :: y in Newer(rows - {d}, x);
      } else {
        assert |Periods(rows, key, k)| >= quota;
      }
    }
  }

  lemma VerifiedWithout(rows: set<Item>, d: Item, x: Item)
    requires d in rows && !NewestVerified(rows, d)
    ensures NewestVerified(rows - {d}, x) <==> NewestVerified(rows, x)
  {
    if x.verification.Verified? && !NewestVerified(rows, x) {
      var y :| y in Newer(rows, x) && y.verification.Verified?;
      if y == d {
        NewerGrows(rows, d, x);
        var e :| e in Newer(rows, d) && e.verification.Verified?;
        assert e in Newer(rows - {d}, x);
      } else {
        assert y in Newer(rows - {d}, x);
      }
    }
  }

  /** Deleting one snapshot the rule gives up changes the verdict on no other. */
  lemma DeletingOneChangesNoVerdict(rows: set<Item>, c: Calendar, p: Policy, d: Item, x: Item)
    requires d in rows && !Survives(rows, c, p, d)
    ensures Survives(rows - {d}, c, p, x) <==> Survives(rows, c, p, x)
  {
    hide Represents, NewestVerified, Newer;
    RankWithout(rows, d, x, p.last);
    RepresentsWithout(rows, c.day, p.daily, d, x);
    RepresentsWithout(rows, c.week, p.weekly, d, x);
    RepresentsWithout(rows, c.month, p.monthly, d, x);
    VerifiedWithout(rows, d, x);
  }

  /** A run that stopped after any of its deletions, in any order, leaves the same verdicts to the next run. */
  lemma {:induction false} Confluence(rows: set<Item>, left: set<Item>, c: Calendar, p: Policy)
    requires Kept(rows, c, p) <= left <= rows
    ensures Kept(left, c, p) == Kept(rows, c, p)
    decreases |rows - left|
  {
    hide Survives;
    if rows != left {
      var d :| d in rows && d !in left;
      var fewer := rows - {d};
      assert !AnyBroken(rows);
      forall x | x in fewer ensures Survives(fewer, c, p, x) <==> Survives(rows, c, p, x) {
        DeletingOneChangesNoVerdict(rows, c, p, d, x);
      }
      assert Survivors(fewer, c, p) == Survivors(rows, c, p);
      assert fewer - left == (rows - left) - {d};
      Confluence(fewer, left, c, p);
    }
  }

  /** Run again on what it kept, retention deletes nothing. */
  lemma Idempotence(rows: set<Item>, c: Calendar, p: Policy)
    ensures Kept(Kept(rows, c, p), c, p) == Kept(rows, c, p)
  {
    Confluence(rows, Kept(rows, c, p), c, p);
  }

  // ---------------------------------------------------------------- how many survive

  /** The snapshots have distinct ids, as rows of one table do. */
  predicate Distinct(rows: set<Item>)
  {
    forall x, y | x in rows && y in rows && x.id == y.id :: x == y
  }

  lemma LastAreFew(rows: set<Item>, n: int)
    requires Distinct(rows)
    ensures |set x | x in rows && |Newer(rows, x)| < n| <= AtLeastZero(n)
  {
    var a := set x | x in rows && |Newer(rows, x)| < n;
    forall x, y | x in a && y in a && x != y ensures |Newer(rows, x)| != |Newer(rows, y)| {
      PrecedesTotal(x.Place(), y.Place());
      if Precedes(x.Place(), y.Place()) { NewerGrows(rows, x, y); } else { NewerGrows(rows, y, x); }
    }
    Pigeonhole(a, x => |Newer(rows, x)|, n);
  }

  lemma NewestAreApart(rows: set<Item>, key: int -> int, x: Item, y: Item)
    requires Distinct(rows) && x in rows && y in rows && x != y && Newest(rows, key, x) && Newest(rows, key, y)
    ensures |Periods(rows, key, key(x.at))| != |Periods(rows, key, key(y.at))|
  {
    PrecedesTotal(x.Place(), y.Place());
    assert x in Newer(rows, y) || y in Newer(rows, x);
    if key(x.at) < key(y.at) { PeriodsGrow(rows, key, y, key(x.at)); } else { PeriodsGrow(rows, key, x, key(y.at)); }
  }

  lemma PeriodsGrow(rows: set<Item>, key: int -> int, y: Item, after: int)
    requires y in rows && after < key(y.at)
    ensures |Periods(rows, key, key(y.at))| < |Periods(rows, key, after)|
  {
    var fewer, more := Periods(rows, key, key(y.at)), Periods(rows, key, after);
    assert key(y.at) in more;
    assert key(y.at) !in fewer;
    assert fewer + {key(y.at)} <= more;
    SubsetSize(fewer + {key(y.at)}, more);
  }

  lemma RepresentativesAreFew(rows: set<Item>, key: int -> int, quota: int)
    requires Distinct(rows)
    ensures |set x | x in rows && Represents(rows, key, quota, x)| <= AtLeastZero(quota)
  {
    var a := set x | x in rows && Represents(rows, key, quota, x);
    forall x, y | x in a && y in a && x != y
      ensures |Periods(rows, key, key(x.at))| != |Periods(rows, key, key(y.at))|
    {
      NewestAreApart(rows, key, x, y);
    }
    Pigeonhole(a, (x: Item) => |Periods(rows, key, key(x.at))|, quota);
  }

  lemma NewestVerifiedIsUnique(rows: set<Item>, x: Item, y: Item)
    requires Distinct(rows) && x in rows && y in rows && NewestVerified(rows, x) && NewestVerified(rows, y)
    ensures x == y
  {
    assert Precedes(x.Place(), y.Place()) ==> x in Newer(rows, y);
    assert Precedes(y.Place(), x.Place()) ==> y in Newer(rows, x);
    PrecedesTotal(x.Place(), y.Place());
  }

  lemma OneNewestVerified(rows: set<Item>)
    requires Distinct(rows)
    ensures |set x | x in rows && NewestVerified(rows, x)| <= 1
  {
    var a := set x | x in rows && NewestVerified(rows, x);
    forall x, y | x in a && y in a ensures x == y { NewestVerifiedIsUnique(rows, x, y); }
    Pigeonhole(a, x => 0, 1);
  }

  /** Whatever the calendar, the quotas bound what is left. */
  lemma SurvivorsAreFew(rows: set<Item>, c: Calendar, p: Policy)
    requires Distinct(rows)
    ensures |Survivors(rows, c, p)|
      <= AtLeastZero(p.last) + AtLeastZero(p.daily) + AtLeastZero(p.weekly) + AtLeastZero(p.monthly) + 1
  {
    hide Newer, Represents, NewestVerified;
    var last := set x | x in rows && |Newer(rows, x)| < p.last;
    var daily := set x | x in rows && Represents(rows, c.day, p.daily, x);
    var weekly := set x | x in rows && Represents(rows, c.week, p.weekly, x);
    var monthly := set x | x in rows && Represents(rows, c.month, p.monthly, x);
    var verified := set x | x in rows && NewestVerified(rows, x);
    LastAreFew(rows, p.last);
    RepresentativesAreFew(rows, c.day, p.daily);
    RepresentativesAreFew(rows, c.week, p.weekly);
    RepresentativesAreFew(rows, c.month, p.monthly);
    OneNewestVerified(rows);
    SubsetSize(Survivors(rows, c, p), last + daily + weekly + monthly + verified);
  }

  /** As long as one verified snapshot exists, a run leaves a verified one. */
  lemma {:induction false} VerifiedSurvives(rows: set<Item>, c: Calendar, p: Policy, x: Item)
    requires x in rows && x.verification.Verified?
    ensures exists y | y in Kept(rows, c, p) :: y.verification.Verified?
    decreases |Newer(rows, x)|
  {
    if NewestVerified(rows, x) {
      assert x in Kept(rows, c, p);
    } else {
      var y :| y in Newer(rows, x) && y.verification.Verified?;
      NewerGrows(rows, y, x);
      VerifiedSurvives(rows, c, p, y);
    }
  }

  // ---------------------------------------------------------------- the pass over the listed rows

  ghost predicate Lists(items: seq<Item>, rows: set<Item>)
  {
    (forall i, j | 0 <= i < j < |items| :: Precedes(items[i].Place(), items[j].Place()))
    && forall x :: x in items <==> x in rows
  }

  function Elements(items: seq<Item>): set<Item>
  {
    set x | x in items
  }

  function Keys(items: seq<Item>, key: int -> int): set<int>
  {
    set x | x in items :: key(x.at)
  }

  lemma PrefixIsNewer(items: seq<Item>, rows: set<Item>, i: nat)
    requires Lists(items, rows) && i < |items|
    ensures Newer(rows, items[i]) == Elements(items[..i]) && |Newer(rows, items[i])| == i
  {
    forall y | y in Newer(rows, items[i]) ensures y in items[..i] {
      var j :| 0 <= j < |items| && items[j] == y;
      PrecedesAsymmetric(y.Place(), items[i].Place());
    }
    PrefixSize(items, rows, i);
  }

  lemma {:induction false} PrefixSize(items: seq<Item>, rows: set<Item>, i: nat)
    requires Lists(items, rows) && i <= |items|
    ensures |Elements(items[..i])| == i
  {
    if i > 0 {
      PrefixSize(items, rows, i - 1);
      NotBefore(items, rows, i - 1);
      ElementsNext(items, i - 1);
    }
  }

  lemma NotBefore(items: seq<Item>, rows: set<Item>, i: nat)
    requires Lists(items, rows) && i < |items|
    ensures items[i] !in items[..i]
  {
    forall j | 0 <= j < i ensures items[j] != items[i] {
      PrecedesAsymmetric(items[j].Place(), items[i].Place());
    }
  }

  lemma ElementsNext(items: seq<Item>, i: nat)
    requires i < |items|
    ensures Elements(items[..i + 1]) == Elements(items[..i]) + {items[i]}
  {
    assert items[..i + 1] == items[..i] + [items[i]];
  }

  lemma PrefixPeriods(items: seq<Item>, rows: set<Item>, key: int -> int, i: nat)
    requires Lists(items, rows) && Monotone(key) && i < |items|
    ensures Newest(rows, key, items[i]) <==> key(items[i].at) !in Keys(items[..i], key)
    ensures Newest(rows, key, items[i]) ==> Periods(rows, key, key(items[i].at)) == Keys(items[..i], key)
  {
    var x, newer := items[i], Newer(rows, items[i]);
    PrefixIsNewer(items, rows, i);
    assert forall y :: y in newer <==> y in items[..i];
    if Newest(rows, key, x) {
      forall k ensures k in Periods(rows, key, key(x.at)) <==> k in Keys(items[..i], key) {
        if k in Periods(rows, key, key(x.at)) {
          var y :| y in rows && key(y.at) > key(x.at) && k == key(y.at);
          assert y.at > x.at;
          assert y in newer;
        }
        if k in Keys(items[..i], key) {
          var y :| y in items[..i] && k == key(y.at);
          assert y in newer && y.at >= x.at;
        }
      }
    }
  }

  /** What the days, weeks and months maps hold after the rows of a prefix. */
  predicate Tracks(seen: set<int>, prefix: seq<Item>, key: int -> int, quota: int)
  {
    seen <= Keys(prefix, key) && (|seen| < quota ==> seen == Keys(prefix, key))
  }

  lemma TracksNext(items: seq<Item>, rows: set<Item>, key: int -> int, quota: int, i: nat, seen: set<int>)
    requires Lists(items, rows) && Monotone(key) && i < |items| && Tracks(seen, items[..i], key, quota)
    ensures key(items[i].at) !in seen && |seen| < quota <==> Represents(rows, key, quota, items[i])
    ensures Tracks(if key(items[i].at) !in seen && |seen| < quota then seen + {key(items[i].at)} else seen,
                   items[..i + 1], key, quota)
  {
    hide Newest, Periods, Monotone, Lists;
    PrefixPeriods(items, rows, key, i);
    SubsetSize(seen, Keys(items[..i], key));
    assert items[..i + 1] == items[..i] + [items[i]];
    assert Keys(items[..i + 1], key) == Keys(items[..i], key) + {key(items[i].at)} by {
      assert forall x :: x in items[..i + 1] <==> x in items[..i] || x == items[i];
    }
  }

  predicate Visited(items: seq<Item>, c: Calendar, p: Policy, i: nat, days: set<int>, weeks: set<int>, months: set<int>)
    requires i <= |items|
  {
    Tracks(days, items[..i], c.day, p.daily) && Tracks(weeks, items[..i], c.week, p.weekly)
    && Tracks(months, items[..i], c.month, p.monthly)
  }

  function Seen(seen: set<int>, period: int, quota: int): set<int>
  {
    if period !in seen && |seen| < quota then seen + {period} else seen
  }

  /** The four tests of one iteration decide WithinQuotas. */
  lemma VisitNext(items: seq<Item>, c: Calendar, p: Policy, i: nat, days: set<int>, weeks: set<int>, months: set<int>)
    requires Lists(items, Elements(items)) && Sound(c) && i < |items| && Visited(items, c, p, i, days, weeks, months)
    ensures var x := items[i];
      WithinQuotas(Elements(items), c, p, x) <==>
        i < p.last || (c.day(x.at) !in days && |days| < p.daily)
        || (c.week(x.at) !in weeks && |weeks| < p.weekly) || (c.month(x.at) !in months && |months| < p.monthly)
    ensures var at := items[i].at;
      Visited(items, c, p, i + 1, Seen(days, c.day(at), p.daily), Seen(weeks, c.week(at), p.weekly), Seen(months, c.month(at), p.monthly))
  {
    hide Lists, Tracks, Represents, Newer, Monotone;
    var rows := Elements(items);
    PrefixIsNewer(items, rows, i);
    TracksNext(items, rows, c.day, p.daily, i, days);
    TracksNext(items, rows, c.week, p.weekly, i, weeks);
    TracksNext(items, rows, c.month, p.monthly, i, months);
  }

  /** What the loop knows about the id it will keep for being verified. */
  ghost predicate Found(verified: string, items: seq<Item>, i: nat)
    requires i <= |items|
  {
    if verified == "" then forall j | 0 <= j < i :: !items[j].verification.Verified?
    else exists j | 0 <= j < i :: items[j].id == verified && NewestVerified(Elements(items), items[j])
  }

  lemma FoundNext(verified: string, items: seq<Item>, i: nat)
    requires i < |items| && Lists(items, Elements(items)) && items[i].id != "" && Found(verified, items, i)
    ensures Found(if items[i].verification.Verified? && verified == "" then items[i].id else verified, items, i + 1)
  {
    if verified == "" {
      PrefixIsNewer(items, Elements(items), i);
    } else {
      var j :| 0 <= j < i && items[j].id == verified && NewestVerified(Elements(items), items[j]);
      assert 0 <= j < i + 1;
    }
  }

  lemma FoundIsNewest(verified: string, items: seq<Item>, x: Item)
    requires Distinct(Elements(items)) && x in items && x.id != "" && Found(verified, items, |items|)
    ensures x.id == verified <==> NewestVerified(Elements(items), x)
  {
    var rows := Elements(items);
    if verified != "" {
      var j :| 0 <= j < |items| && items[j].id == verified && NewestVerified(rows, items[j]);
      if NewestVerified(rows, x) { NewestVerifiedIsUnique(rows, x, items[j]); }
    }
  }

  /** keep holds exactly the rows of the prefix that satisfy a quota. */
  ghost predicate Holds(keep: set<string>, items: seq<Item>, c: Calendar, p: Policy, i: nat)
    requires i <= |items|
  {
    (forall j | 0 <= j < i :: items[j].id in keep <==> WithinQuotas(Elements(items), c, p, items[j]))
    && forall j | i <= j < |items| :: items[j].id !in keep
  }

  lemma HoldsNext(keep: set<string>, items: seq<Item>, c: Calendar, p: Policy, i: nat)
    requires i < |items| && Lists(items, Elements(items)) && Distinct(Elements(items)) && Holds(keep, items, c, p, i)
    ensures Holds(if WithinQuotas(Elements(items), c, p, items[i]) then keep + {items[i].id} else keep, items, c, p, i + 1)
  {
    hide WithinQuotas;
    forall j | 0 <= j < |items| && j != i ensures items[j].id != items[i].id {
      if j < i { PrecedesAsymmetric(items[j].Place(), items[i].Place()); } else { PrecedesAsymmetric(items[i].Place(), items[j].Place()); }
      assert items[j] in Elements(items) && items[i] in Elements(items);
    }
  }

  /** The loop of a retention run: which ids it keeps, provided no row is broken. */
  method KeptIds(items: seq<Item>, c: Calendar, p: Policy) returns (keep: set<string>)
    requires Sound(c) && Lists(items, Elements(items)) && Distinct(Elements(items)) && forall x | x in items :: x.id != ""
    ensures forall x | x in items :: x.id in keep <==> Survives(Elements(items), c, p, x)
  {
    keep := {};
    var verified := "";
    var days, weeks, months := {}, {}, {};
    assert Keys(items[..0], c.day) == {} && Keys(items[..0], c.week) == {} && Keys(items[..0], c.month) == {};
    var i := 0;
    hide Visited, WithinQuotas, NewestVerified, Lists, Sound, Distinct, Found, Holds, Elements;
    while i < |items|
      invariant 0 <= i <= |items|
      invariant Visited(items, c, p, i, days, weeks, months)
      invariant Holds(keep, items, c, p, i)
      invariant Found(verified, items, i)
    {
      var item := items[i];
      VisitNext(items, c, p, i, days, weeks, months);
      HoldsNext(keep, items, c, p, i);
      FoundNext(verified, items, i);
      ghost var kept := keep;
      if i < p.last { keep := keep + {item.id}; }
      if item.verification.Verified? && verified == "" { verified := item.id; }
      var day, week, month := c.day(item.at), c.week(item.at), c.month(item.at);
      if day !in days && |days| < p.daily { keep, days := keep + {item.id}, days + {day}; }
      if week !in weeks && |weeks| < p.weekly { keep, weeks := keep + {item.id}, weeks + {week}; }
      if month !in months && |months| < p.monthly { keep, months := keep + {item.id}, months + {month}; }
      assert keep == if WithinQuotas(Elements(items), c, p, items[i]) then kept + {item.id} else kept;
      i := i + 1;
    }
    Combined(keep, verified, items, c, p);
    if verified != "" { keep := keep + {verified}; }
  }

  lemma Combined(keep: set<string>, verified: string, items: seq<Item>, c: Calendar, p: Policy)
    requires Distinct(Elements(items)) && (forall x | x in items :: x.id != "")
    requires Holds(keep, items, c, p, |items|) && Found(verified, items, |items|)
    ensures forall x | x in items :: x.id in keep || x.id == verified <==> Survives(Elements(items), c, p, x)
  {
    hide WithinQuotas, NewestVerified, Found, Distinct;
    forall x | x in items ensures x.id in keep || x.id == verified <==> Survives(Elements(items), c, p, x) {
      FoundIsNewest(verified, items, x);
    }
  }
}
