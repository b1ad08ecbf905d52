/** Sizes of finite sets. */
module Sets {

  lemma {:induction false} SubsetSize<T>(a: set<T>, b: set<T>)
    requires a <= b
    ensures |a| <= |b|
  {
    if a != {} {
      var x :| x in a;
      SubsetSize(a - {x}, b - {x});
    }
  }

  lemma TakeAway<T>(whole: set<T>, part: set<T>)
    requires part <= whole
    ensures |whole| == |part| + |whole - part|
  {
    assert whole == part + (whole - part);
  }

  lemma {:induction false} SameSize<T>(a: set<T>, b: set<T>)
    requires a <= b && |a| == |b|
    ensures a == b
  {
    if a != {} {
      var x :| x in a;
      SameSize(a - {x}, b - {x});
    }
  }

  function AtLeastZero(n: int): nat { if n < 0 then 0 else n }

  /** Different small numbers for different elements: there are few of them. */
  lemma {:induction false} Pigeonhole<T>(a: set<T>, f: T -> nat, n: int)
    requires forall x | x in a :: f(x) < n
    requires forall x, y | x in a && y in a && x != y :: f(x) != f(y)
    ensures |a| <= AtLeastZero(n)
    decreases AtLeastZero(n)
  {
    if a != {} {
      var x :| x in a;
      assert f(x) < n;
      if y :| y in a && f(y) == n - 1 {
        Pigeonhole(a - {y}, f, n - 1);
      } else {
        Pigeonhole(a, f, n - 1);
      }
    }
  }
}
