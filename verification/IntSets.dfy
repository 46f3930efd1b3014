// Facts about finite sets: the least element of a set of integers, a number
// outside it, and the size of a subset.
module IntSets {

  ghost predicate NonEmpty(s: set<int>) {
    exists x: int :: x in s
  }

  ghost predicate IsLeast(s: set<int>, m: int) {
    m in s && forall x <- s :: m <= x
  }

  lemma {:induction false} LeastExists(s: set<int>)
    requires NonEmpty(s)
    ensures exists m :: IsLeast(s, m)
    decreases s
  {
    var x :| x in s;
    var rest := s - {x};
    assert s == rest + {x};
    if NonEmpty(rest) {
      LeastExists(rest);
      var m :| IsLeast(rest, m);
      assert IsLeast(s, if x < m then x else m);
    } else {
      assert IsLeast(s, x);
    }
  }

  ghost function Least(s: set<int>): (m: int)
    requires NonEmpty(s)
    ensures IsLeast(s, m)
  {
    LeastExists(s);
    var m :| IsLeast(s, m);
    m
  }

  lemma {:induction false} BoundExists(s: set<int>)
    ensures exists n: int :: IsBound(s, n)
    decreases s
  {
    if NonEmpty(s) {
      var x :| x in s;
      var rest := s - {x};
      assert s == rest + {x};
      BoundExists(rest);
      var n: int :| IsBound(rest, n);
      assert IsBound(s, if x < n then n else x + 1);
    } else {
      assert IsBound(s, 0);
    }
  }

  ghost predicate IsBound(s: set<int>, n: int) {
    forall x <- s :: x < n
  }

  // There is always one more number.
  lemma FreshNumber(s: set<int>) returns (n: int)
    ensures n !in s
  {
    BoundExists(s);
    n :| IsBound(s, n);
  }

  lemma SubsetSize<T>(a: set<T>, b: set<T>)
    requires a <= b
    ensures |a| <= |b|
  {
    assert b == a + (b - a);
  }
}
