module Sequences {

  ghost predicate Distinct<T>(xs: seq<T>) {
    forall i, j :: 0 <= i < j < |xs| ==> xs[i] != xs[j]
  }

  lemma Regroup<T>(a: seq<T>, b: seq<T>, c: seq<T>)
    ensures a + b + c == a + (b + c)
  {
  }

  // ---------------------------------------------------------------- counting

  lemma SubsetIsSmaller<T>(a: set<T>, b: set<T>)
    requires a <= b
    ensures |a| <= |b|
  {
    assert b == a + (b - a);
  }

  lemma {:induction false} DistinctWithin<T>(xs: seq<T>, s: set<T>)
    requires Distinct(xs) && forall i :: 0 <= i < |xs| ==> xs[i] in s
    ensures |xs| <= |s|
    decreases |xs|
  {
    if xs != [] {
      var front, last := xs[..|xs| - 1], xs[|xs| - 1];
      DistinctWithin(front, s - {last});
    }
  }

  /** Every number below `b` with every element of a set. */
  function Pairs<T(!new)>(s: set<T>, b: nat): set<(T, int)> {
    set x, i | x in s && 0 <= i < b :: (x, i)
  }

  lemma {:induction false} PairsCount<T(!new)>(s: set<T>, b: nat)
    ensures |Pairs(s, b)| <= |s| * b
    decreases b
  {
    if b > 0 {
      var last := set x | x in s :: (x, b - 1);
      ImageIsSmaller(s, last, x => (x, b - 1));
      PairsCount(s, b - 1);
      assert Pairs(s, b) == Pairs(s, b - 1) + last;
      assert |s| * b == |s| * (b - 1) + |s|;
    }
  }

  lemma {:induction false} ImageIsSmaller<T, U>(s: set<T>, image: set<U>, f: T -> U)
    requires forall y :: y in image ==> exists x :: x in s && f(x) == y
    ensures |image| <= |s|
    decreases |s|
  {
    if image != {} {
      var y :| y in image;
      var x :| x in s && f(x) == y;
      forall z | z in image - {y} ensures exists w :: w in s - {x} && f(w) == z {
        var w :| w in s && f(w) == z;
        assert w in s - {x};
      }
      ImageIsSmaller(s - {x}, image - {y}, f);
    }
  }
}
