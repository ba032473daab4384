/** Insertion-ordered maps: a key keeps the place of its first insertion. */
module OrderedMaps {
  import opened Options
  import opened Sequences

  type OrderedMap<K, V> = seq<(K, V)>

  function Keys<K, V>(m: OrderedMap<K, V>): seq<K> {
    seq(|m|, i requires 0 <= i < |m| => m[i].0)
  }

  function Get<K(==), V>(m: OrderedMap<K, V>, k: K): Option<V> {
    if m == [] then None else if m[0].0 == k then Some(m[0].1) else Get(m[1..], k)
  }

  /** Replaces the value of a key in place, or appends a new key. */
  function Put<K(==), V>(m: OrderedMap<K, V>, k: K, v: V): OrderedMap<K, V> {
    if m == [] then [(k, v)]
    else if m[0].0 == k then [(k, v)] + m[1..]
    else [m[0]] + Put(m[1..], k, v)
  }

  function Remove<K(==), V>(m: OrderedMap<K, V>, k: K): OrderedMap<K, V> {
    if m == [] then [] else if m[0].0 == k then m[1..] else [m[0]] + Remove(m[1..], k)
  }

  lemma {:induction false} GetIff<K, V>(m: OrderedMap<K, V>, k: K)
    ensures Get(m, k).Some? <==> k in Keys(m)
    decreases |m|
  {
    if m != [] {
      GetIff(m[1..], k);
      assert Keys(m) == [m[0].0] + Keys(m[1..]);
    }
  }

  lemma {:induction false} PutKeys<K, V>(m: OrderedMap<K, V>, k: K, v: V)
    ensures Keys(Put(m, k, v)) == if k in Keys(m) then Keys(m) else Keys(m) + [k]
    decreases |m|
  {
    if m != [] {
      PutKeys(m[1..], k, v);
      assert Keys(m) == [m[0].0] + Keys(m[1..]);
      assert Keys(Put(m, k, v)) == [m[0].0] + (if m[0].0 == k then Keys(m[1..]) else Keys(Put(m[1..], k, v)));
    }
  }

  lemma PutDistinct<K, V>(m: OrderedMap<K, V>, k: K, v: V)
    requires Distinct(Keys(m))
    ensures Distinct(Keys(Put(m, k, v)))
    ensures forall x :: x in Keys(Put(m, k, v)) <==> x in Keys(m) || x == k
  {
    PutKeys(m, k, v);
  }

  lemma {:induction false} PutGet<K, V>(m: OrderedMap<K, V>, k: K, v: V, other: K)
    ensures Get(Put(m, k, v), other) == if other == k then Some(v) else Get(m, other)
    decreases |m|
  {
    if m != [] && m[0].0 != k {
      PutGet(m[1..], k, v, other);
    }
  }

  /** Removing the first of distinct keys drops the first pair. */
  lemma RemoveFirst<K, V>(m: OrderedMap<K, V>)
    requires m != []
    ensures Remove(m, m[0].0) == m[1..]
  {
  }

  lemma {:induction false} GetAt<K, V>(m: OrderedMap<K, V>, i: nat)
    requires i < |m| && Distinct(Keys(m))
    ensures Get(m, m[i].0) == Some(m[i].1)
    decreases |m|
  {
    assert Keys(m)[i] == m[i].0 && Keys(m)[0] == m[0].0;
    if i > 0 {
      assert Keys(m[1..]) == Keys(m)[1..];
      GetAt(m[1..], i - 1);
    }
  }

  lemma GetInSuffix<K, V>(m: OrderedMap<K, V>, n: nat, k: K)
    requires n <= |m| && Distinct(Keys(m)) && k in Keys(m[n..])
    ensures Get(m[n..], k) == Get(m, k)
  {
    var suffix := m[n..];
    assert Keys(suffix) == Keys(m)[n..];
    var i :| 0 <= i < |suffix| && Keys(suffix)[i] == k;
    GetAt(m, n + i);
    GetAt(suffix, i);
  }
}
