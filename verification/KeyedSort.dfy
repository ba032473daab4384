/** Stable sorting by an integer key. */
module KeyedSort {

  /** Inserts behind every element with the same key. */
  function Insert<T>(key: T -> int, x: T, sorted: seq<T>): seq<T> {
    if sorted == [] || key(x) < key(sorted[0]) then [x] + sorted
    else [sorted[0]] + Insert(key, x, sorted[1..])
  }

  function Sort<T>(key: T -> int, xs: seq<T>): seq<T> {
    if xs == [] then [] else Insert(key, xs[|xs| - 1], Sort(key, xs[..|xs| - 1]))
  }

  ghost predicate Ascending<T>(key: T -> int, xs: seq<T>) {
    forall i, j :: 0 <= i < j < |xs| ==> key(xs[i]) <= key(xs[j])
  }

  ghost predicate StrictlyAscending<T>(key: T -> int, xs: seq<T>) {
    forall i, j :: 0 <= i < j < |xs| ==> key(xs[i]) < key(xs[j])
  }

  lemma {:induction false} InsertKeepsElements<T>(key: T -> int, x: T, sorted: seq<T>)
    ensures multiset(Insert(key, x, sorted)) == multiset(sorted) + multiset{x}
  {
    if sorted == [] || key(x) < key(sorted[0]) {
    } else {
      InsertKeepsElements(key, x, sorted[1..]);
      assert sorted == [sorted[0]] + sorted[1..];
    }
  }

  lemma {:induction false} InsertSorts<T>(key: T -> int, x: T, sorted: seq<T>)
    requires Ascending(key, sorted)
    ensures Ascending(key, Insert(key, x, sorted))
    ensures |Insert(key, x, sorted)| == |sorted| + 1
    ensures forall i :: 0 <= i <= |sorted| && (sorted == [] || key(sorted[0]) <= key(x)) && i > 0 ==>
              key(sorted[0]) <= key(Insert(key, x, sorted)[i])
    ensures key(Insert(key, x, sorted)[0]) == if sorted == [] || key(x) < key(sorted[0]) then key(x) else key(sorted[0])
  {
    if sorted == [] || key(x) < key(sorted[0]) {
    } else {
      InsertSorts(key, x, sorted[1..]);
      var rest := Insert(key, x, sorted[1..]);
      assert key(sorted[0]) <= key(rest[0]);
    }
  }

  lemma {:induction false} SortSorts<T>(key: T -> int, xs: seq<T>)
    ensures Ascending(key, Sort(key, xs)) && multiset(Sort(key, xs)) == multiset(xs)
  {
    if xs != [] {
      var front, last := xs[..|xs| - 1], xs[|xs| - 1];
      SortSorts(key, front);
      InsertSorts(key, last, Sort(key, front));
      InsertKeepsElements(key, last, Sort(key, front));
      assert xs == front + [last];
    }
  }

  /** Strictly ascending keys determine the order: two such lists of the same elements are equal. */
  lemma {:induction false} SortedIsUnique<T>(key: T -> int, a: seq<T>, b: seq<T>)
    requires multiset(a) == multiset(b) && Ascending(key, a) && StrictlyAscending(key, b)
    ensures a == b
    decreases |b|
  {
    if b == [] {
      assert |a| == |multiset(a)| == |multiset(b)|;
    } else {
      FirstsAgree(key, a, b);
      assert a == [a[0]] + a[1..] && b == [b[0]] + b[1..];
      assert multiset(a[1..]) == multiset(a) - multiset{a[0]};
      assert multiset(b[1..]) == multiset(b) - multiset{b[0]};
      SortedIsUnique(key, a[1..], b[1..]);
    }
  }

  lemma FirstsAgree<T>(key: T -> int, a: seq<T>, b: seq<T>)
    requires b != [] && multiset(a) == multiset(b) && Ascending(key, a) && StrictlyAscending(key, b)
    ensures a != [] && a[0] == b[0]
  {
    assert b[0] in multiset(a);
    var j :| 0 <= j < |a| && a[j] == b[0];
    assert a[0] in multiset(b);
    var i :| 0 <= i < |b| && b[i] == a[0];
  }

  /** Sorting any arrangement of a strictly ascending list gives the list back. */
  lemma SortRestores<T>(key: T -> int, arrangement: seq<T>, ordered: seq<T>)
    requires multiset(arrangement) == multiset(ordered) && StrictlyAscending(key, ordered)
    ensures Sort(key, arrangement) == ordered
  {
    SortSorts(key, arrangement);
    SortedIsUnique(key, Sort(key, arrangement), ordered);
  }
}
