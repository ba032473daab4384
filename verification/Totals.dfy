/** Sums over a sequence of rows, and over its parts by a key. */
module Totals {
  import opened Sequences

  function Sum<R>(rows: seq<R>, amount: R -> int): int {
    if rows == [] then 0 else Sum(rows[..|rows| - 1], amount) + amount(rows[|rows| - 1])
  }

  /** The rows with key k, in order. */
  function Part<R, K(==)>(rows: seq<R>, key: R -> K, k: K): seq<R> {
    if rows == [] then []
    else Part(rows[..|rows| - 1], key, k) + (if key(rows[|rows| - 1]) == k then [rows[|rows| - 1]] else [])
  }

  /** The sum of the sums of the parts. */
  function SumOfParts<R, K(==)>(rows: seq<R>, key: R -> K, amount: R -> int, keys: seq<K>): int {
    if keys == [] then 0
    else SumOfParts(rows, key, amount, keys[..|keys| - 1]) + Sum(Part(rows, key, keys[|keys| - 1]), amount)
  }

  lemma SumStep<R>(rows: seq<R>, row: R, amount: R -> int)
    ensures Sum(rows + [row], amount) == Sum(rows, amount) + amount(row)
  {
    assert (rows + [row])[..|rows|] == rows;
  }

  lemma PartStep<R, K>(rows: seq<R>, row: R, key: R -> K, k: K)
    ensures Part(rows + [row], key, k) == if key(row) == k then Part(rows, key, k) + [row] else Part(rows, key, k)
  {
    assert (rows + [row])[..|rows|] == rows;
    assert Part(rows, key, k) + [] == Part(rows, key, k);
  }

  /** One more row adds its amount to the part it belongs to. */
  lemma PartSumStep<R, K>(rows: seq<R>, row: R, key: R -> K, amount: R -> int, k: K)
    ensures Sum(Part(rows + [row], key, k), amount) == Sum(Part(rows, key, k), amount) + if key(row) == k then amount(row) else 0
  {
    PartStep(rows, row, key, k);
    SumStep(Part(rows, key, k), row, amount);
  }

  lemma {:induction false} PartsStep<R, K>(rows: seq<R>, row: R, key: R -> K, amount: R -> int, keys: seq<K>)
    requires Distinct(keys)
    ensures SumOfParts(rows + [row], key, amount, keys)
            == SumOfParts(rows, key, amount, keys) + if key(row) in keys then amount(row) else 0
    decreases |keys|
  {
    if keys != [] {
      var front, last := keys[..|keys| - 1], keys[|keys| - 1];
      PartsStep(rows, row, key, amount, front);
      PartSumStep(rows, row, key, amount, last);
      assert keys == front + [last] && last !in front;
    }
  }

  lemma {:induction false} NoRows<R, K>(key: R -> K, amount: R -> int, keys: seq<K>)
    ensures SumOfParts([], key, amount, keys) == 0
    decreases |keys|
  {
    if keys != [] {
      NoRows(key, amount, keys[..|keys| - 1]);
    }
  }

  /** Splitting rows by a key loses nothing and counts nothing twice. */
  lemma {:induction false} PartsPartition<R, K>(rows: seq<R>, key: R -> K, amount: R -> int, keys: seq<K>)
    requires Distinct(keys) && forall row :: row in rows ==> key(row) in keys
    ensures SumOfParts(rows, key, amount, keys) == Sum(rows, amount)
    decreases |rows|
  {
    if rows == [] {
      NoRows(key, amount, keys);
    } else {
      var front, last := rows[..|rows| - 1], rows[|rows| - 1];
      assert rows == front + [last];
      PartsPartition(front, key, amount, keys);
      PartsStep(front, last, key, amount, keys);
    }
  }

  lemma {:induction false} SumConcat<R>(a: seq<R>, b: seq<R>, amount: R -> int)
    ensures Sum(a + b, amount) == Sum(a, amount) + Sum(b, amount)
    decreases |b|
  {
    if b == [] {
      assert a + b == a;
    } else {
      assert a + b == (a + b[..|b| - 1]) + [b[|b| - 1]];
      SumStep(a + b[..|b| - 1], b[|b| - 1], amount);
      SumConcat(a, b[..|b| - 1], amount);
    }
  }

  /** A sum does not depend on the order. */
  lemma {:induction false} SumOfPermutation<R>(a: seq<R>, b: seq<R>, amount: R -> int)
    requires multiset(a) == multiset(b)
    ensures Sum(a, amount) == Sum(b, amount)
    decreases |a|
  {
    if a == [] {
      assert |b| == |multiset(b)| == 0;
    } else {
      var front, last := a[..|a| - 1], a[|a| - 1];
      assert a == front + [last];
      assert last in multiset(b);
      var i :| 0 <= i < |b| && b[i] == last;
      var others := b[..i] + b[i + 1..];
      assert b == b[..i] + [last] + b[i + 1..];
      assert multiset(front) == multiset(a) - multiset{last} == multiset(b) - multiset{last} == multiset(others);
      SumOfPermutation(front, others, amount);
      SumConcat(b[..i], b[i + 1..], amount);
      SumConcat(b[..i] + [last], b[i + 1..], amount);
      SumStep(b[..i], last, amount);
    }
  }

  /** Items that carry the sums of the parts, key by key, add up to the sum of the parts. */
  lemma {:induction false} ItemsSum<I, R, K>(items: seq<I>, value: I -> int,
                                             rows: seq<R>, key: R -> K, amount: R -> int, keys: seq<K>)
    requires |items| == |keys|
    requires forall i :: 0 <= i < |items| ==> value(items[i]) == Sum(Part(rows, key, keys[i]), amount)
    ensures Sum(items, value) == SumOfParts(rows, key, amount, keys)
    decreases |items|
  {
    if items != [] {
      ItemsSum(items[..|items| - 1], value, rows, key, amount, keys[..|keys| - 1]);
    }
  }

  lemma {:induction false} PartHas<R, K>(rows: seq<R>, key: R -> K, k: K)
    ensures forall row :: row in Part(rows, key, k) <==> row in rows && key(row) == k
    decreases |rows|
  {
    if rows != [] {
      PartHas(rows[..|rows| - 1], key, k);
      assert rows == rows[..|rows| - 1] + [rows[|rows| - 1]];
    }
  }

  /** How often a row is in a part. */
  lemma {:induction false} PartCounts<R, K>(rows: seq<R>, key: R -> K, k: K, row: R)
    ensures multiset(Part(rows, key, k))[row] == if key(row) == k then multiset(rows)[row] else 0
    decreases |rows|
  {
    if rows != [] {
      var front, last := rows[..|rows| - 1], rows[|rows| - 1];
      assert rows == front + [last];
      PartCounts(front, key, k, row);
    }
  }

  lemma SameCounts<R>(a: multiset<R>, b: multiset<R>)
    requires forall row :: a[row] == b[row]
    ensures a == b
  {
  }

  /** A part depends, but for its order, on which rows there are and not on theirs. */
  lemma PartsOfPermutation<R, K>(a: seq<R>, b: seq<R>, key: R -> K, k: K)
    requires multiset(a) == multiset(b)
    ensures multiset(Part(a, key, k)) == multiset(Part(b, key, k))
  {
    var pa, pb := multiset(Part(a, key, k)), multiset(Part(b, key, k));
    forall row ensures pa[row] == pb[row] {
      PartCounts(a, key, k, row);
      PartCounts(b, key, k, row);
    }
    SameCounts(pa, pb);
  }
}
