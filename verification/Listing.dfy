/** Queries that end in ORDER BY <time> DESC, id DESC. */
module Listing {
  import Text

  datatype Key = Key(at: int, id: string)

  /** a is listed before b. */
  predicate Precedes(a: Key, b: Key)
  {
    a.at > b.at || (a.at == b.at && Text.Less(b.id, a.id))
  }

  lemma PrecedesTotal(a: Key, b: Key)
    ensures a == b || Precedes(a, b) || Precedes(b, a)
  {
    Text.LessTotal(a.id, b.id);
  }

  lemma PrecedesAsymmetric(a: Key, b: Key)
    requires Precedes(a, b)
    ensures !Precedes(b, a) && a != b
  {
    if a.at == b.at { Text.LessAsymmetric(b.id, a.id); }
  }

  lemma PrecedesTransitive(a: Key, b: Key, c: Key)
    requires Precedes(a, b) && Precedes(b, c)
    ensures Precedes(a, c)
  {
    if a.at == b.at == c.at { Text.LessTransitive(c.id, b.id, a.id); }
  }

  predicate Listed(rows: seq<Key>)
  {
    forall i, j | 0 <= i < j < |rows| :: Precedes(rows[i], rows[j])
  }

  /** rows is the query result over exactly these keys. */
  ghost predicate Lists(rows: seq<Key>, keys: set<Key>)
  {
    Listed(rows) && forall k :: k in rows <==> k in keys
  }

  lemma {:induction false} LeaderExists(keys: set<Key>) returns (k: Key)
    requires keys != {}
    ensures k in keys && forall o | o in keys && o != k :: Precedes(k, o)
    decreases |keys|
  {
    var a :| a in keys;
    if keys == {a} {
      k := a;
    } else {
      var b := LeaderExists(keys - {a});
      PrecedesTotal(a, b);
      if Precedes(b, a) {
        k := b;
      } else {
        k := a;
        forall o | o in keys && o != a ensures Precedes(a, o) {
          if o != b { PrecedesTransitive(a, b, o); }
        }
      }
    }
  }

  /** What the database engine does with the ordered rows of a query. */
  method Fetch(keys: set<Key>) returns (rows: seq<Key>)
    ensures Lists(rows, keys)
  {
    rows := [];
    var left := keys;
    while left != {}
      invariant left <= keys
      invariant Listed(rows)
      invariant forall k :: k in rows <==> k in keys && k !in left
      invariant forall k, o | k in rows && o in left :: Precedes(k, o)
      decreases left
    {
      ghost var leader := LeaderExists(left);
      assert leader in left && forall o | o in left && o != leader :: Precedes(leader, o);
      var k :| k in left && forall o | o in left && o != k :: Precedes(k, o);
      rows, left := rows + [k], left - {k};
    }
  }

  lemma SameEmptiness(a: seq<Key>, b: seq<Key>, keys: set<Key>)
    requires Lists(a, keys) && Lists(b, keys)
    ensures a == [] <==> b == []
  {
    assert a != [] ==> a[0] in keys;
    assert b != [] ==> b[0] in keys;
  }

  /** The order leaves the engine no choice. */
  lemma {:induction false} ListingIsUnique(a: seq<Key>, b: seq<Key>, keys: set<Key>)
    requires Lists(a, keys) && Lists(b, keys)
    ensures a == b
  {
    SameEmptiness(a, b, keys);
    if a != [] {
      assert a[0] in keys && a[0] in b && b[0] in a;
      if a[0] != b[0] {
        assert Precedes(a[0], b[0]) && Precedes(b[0], a[0]);
        PrecedesAsymmetric(a[0], b[0]);
      }
      TailLists(a, keys);
      TailLists(b, keys);
      ListingIsUnique(a[1..], b[1..], keys - {a[0]});
      assert a == [a[0]] + a[1..] && b == [b[0]] + b[1..];
    }
  }

  lemma TailLists(a: seq<Key>, keys: set<Key>)
    requires Lists(a, keys) && a != []
    ensures Lists(a[1..], keys - {a[0]})
  {
    forall k ensures k in a[1..] <==> k in keys - {a[0]} {
      if k in a[1..] {
        var i :| 1 <= i < |a| && a[i] == k;
        PrecedesAsymmetric(a[0], a[i]);
      }
    }
  }
}
