/**
  How long the search goes on. No entry is ever popped twice, since each push strictly lowers its
  key's score; so the number of pops is bounded by the number of keys and the prices of the steps,
  and with a consistent estimate by the number of steps alone.
*/
module Popping {
  import opened Sequences
  import opened Scaling
  import opened PathGraph
  import opened SearchInvariant
  import opened Lineage

  // ---------------------------------------------------------------- entries come and go once

  /** One key at one score is one entry. */
  ghost predicate OneEach(pb: Problem, s: Search) {
    forall a, b :: a in s.lines && b in s.lines && pb.Key(a) == pb.Key(b) && a.g == b.g ==> a == b
  }

  /** What was pushed is either queued, once, or was popped, once; and it was popped if it is not queued. */
  ghost predicate OnceEach(s: Search, popped: seq<PathNode>) {
    && Distinct(popped)
    && (forall n :: n in s.open ==> s.open[n] == 1 && n in s.lines && n !in popped)
    && (forall n :: n in popped ==> n in s.lines)
  }

  /** The keys that have been scored: the start's, and those of all neighbours of what was expanded. */
  function Touched(pb: Problem, expanded: seq<PathNode>): set<int> {
    if expanded == [] then {pb.key(pb.start)}
    else Touched(pb, expanded[..|expanded| - 1]) + NeighborKeys(pb, expanded[|expanded| - 1], |pb.cf.neighbors(expanded[|expanded| - 1].Here())|)
  }

  function NeighborKeys(pb: Problem, n: PathNode, count: nat): set<int>
    requires count <= |pb.cf.neighbors(n.Here())|
  {
    set i | 0 <= i < count :: pb.Key(pb.cf.neighbors(n.Here())[i])
  }

  /** A step from a cheapest entry of its key. */
  ghost predicate FinalStep(pb: Problem, n: PathNode, p: PathNode, i: nat) {
    && p.Here() in pb.dom && Realised(pb, p) && Final(pb, p)
    && i < |pb.cf.neighbors(p.Here())| && n == Stamp(pb, pb.cf.neighbors(p.Here())[i], p)
    && pb.Key(p) == n.parentKey
    && (n.parentKey == pb.key(pb.start) ==> p.Here() == pb.start)
  }

  ghost predicate HasFinalStep(pb: Problem, n: PathNode) {
    exists p, i: nat :: FinalStep(pb, n, p, i)
  }

  /** With a consistent estimate every entry but the first was pushed from a cheapest one. */
  ghost predicate FinalSteps(pb: Problem, s: Search) {
    pb.Weighted(1) ==> forall n :: n in s.lines && n != StartNode(pb) ==> HasFinalStep(pb, n)
  }

  ghost predicate PopInv(pb: Problem, s: Search, popped: seq<PathNode>) {
    OneEach(pb, s) && OnceEach(s, popped) && FinalSteps(pb, s)
  }

  lemma InitialPopInv(pb: Problem)
    ensures PopInv(pb, InitialSearch(pb), []) && InitialSearch(pb).g.Keys == Touched(pb, [])
  {
  }

  /** The popped entry is new among the popped ones, and leaves the heap. */
  lemma PopIsNew(pb: Problem, s: Search, popped: seq<PathNode>, cur: PathNode)
    requires PopInv(pb, s, popped) && cur in s.open
    ensures PopInv(pb, s.(open := s.open - multiset{cur}), popped + [cur])
  {
    var s' := s.(open := s.open - multiset{cur});
    forall n | n in s'.open ensures s'.open[n] == 1 && n in s'.lines && n !in popped + [cur] {
      assert n in s.open;
    }
  }

  /** Pushing an improved neighbour pushes something that was never pushed. */
  lemma PushIsNew(pb: Problem, s: Search, popped: seq<PathNode>, cur: PathNode, i: nat)
    requires MidInv(pb, s, cur, i) && i < |pb.cf.neighbors(cur.Here())| && LineMid(pb, s, cur)
    requires var m := pb.cf.neighbors(cur.Here())[i]; pb.Key(m) in s.g ==> cur.g + m.g < s.g[pb.Key(m)]
    requires PopInv(pb, s, popped)
    ensures PopInv(pb, Improve(pb, s, cur, pb.cf.neighbors(cur.Here())[i]), popped)
  {
    var m := pb.cf.neighbors(cur.Here())[i];
    var n, s' := Stamp(pb, m, cur), Improve(pb, s, cur, m);
    ImproveIsNew(pb, s, n);
    PushKeepsOneEach(pb, s, s', n);
    PushKeepsOnceEach(s, s', popped, n);
    if pb.Weighted(1) {
      PushIsFinalStep(pb, s, cur, i);
    }
    PushKeepsFinalSteps(pb, s, s', n);
  }

  lemma PushKeepsFinalSteps(pb: Problem, s: Search, s': Search, n: PathNode)
    requires FinalSteps(pb, s) && (pb.Weighted(1) ==> HasFinalStep(pb, n)) && s'.lines.Keys == s.lines.Keys + {n}
    ensures FinalSteps(pb, s')
  {
    forall x | pb.Weighted(1) && x in s'.lines && x != StartNode(pb) ensures HasFinalStep(pb, x) {
      assert x == n || x in s.lines;
    }
  }

  lemma PushKeepsOneEach(pb: Problem, s: Search, s': Search, n: PathNode)
    requires Keyed(pb, s) && AllOk(pb, s) && OneEach(pb, s) && s'.lines.Keys == s.lines.Keys + {n}
    requires pb.Key(n) in s.g ==> n.g < s.g[pb.Key(n)]
    ensures OneEach(pb, s')
  {
    forall a, b | a in s'.lines && b in s'.lines && pb.Key(a) == pb.Key(b) && a.g == b.g ensures a == b {
      assert a in s.lines ==> NodeOk(pb, s, a);
      assert b in s.lines ==> NodeOk(pb, s, b);
    }
  }

  lemma PushKeepsOnceEach(s: Search, s': Search, popped: seq<PathNode>, n: PathNode)
    requires OnceEach(s, popped) && n !in s.lines && s'.open == s.open + multiset{n} && s'.lines.Keys == s.lines.Keys + {n}
    ensures OnceEach(s', popped)
  {
    forall x | x in s'.open ensures s'.open[x] == 1 && x in s'.lines && x !in popped {
      if x == n {
        assert n !in s.open && n !in popped;
      } else {
        assert x in s.open;
      }
    }
  }

  lemma PushIsFinalStep(pb: Problem, s: Search, cur: PathNode, i: nat)
    requires MidInv(pb, s, cur, i) && i < |pb.cf.neighbors(cur.Here())| && pb.Weighted(1)
    requires var m := pb.cf.neighbors(cur.Here())[i]; pb.Key(m) in s.g ==> cur.g + m.g < s.g[pb.Key(m)]
    ensures HasFinalStep(pb, Stamp(pb, pb.cf.neighbors(cur.Here())[i], cur))
  {
    if s.g[pb.Key(cur)] != cur.g {
      StaleNeverImproves(pb, s, cur, i);
    }
    assert FinalStep(pb, Stamp(pb, pb.cf.neighbors(cur.Here())[i], cur), cur, i);
  }

  lemma NeighborIsTouched(pb: Problem, cur: PathNode, i: nat)
    requires i < |pb.cf.neighbors(cur.Here())|
    ensures NeighborKeys(pb, cur, i + 1) == NeighborKeys(pb, cur, i) + {pb.Key(pb.cf.neighbors(cur.Here())[i])}
  {
  }

  lemma TouchedOneMore(pb: Problem, expanded: seq<PathNode>, cur: PathNode)
    ensures Touched(pb, expanded + [cur]) == Touched(pb, expanded) + NeighborKeys(pb, cur, |pb.cf.neighbors(cur.Here())|)
  {
    assert (expanded + [cur])[..|expanded|] == expanded;
  }

  // ---------------------------------------------------------------- scores are bounded

  /** Every step leads to one of the keys, and costs at most `c`. */
  ghost predicate Bounded(pb: Problem, keys: set<int>, c: nat) {
    pb.key(pb.start) in keys && forall s :: s in pb.dom ==> BoundedAt(pb, keys, c, s)
  }

  ghost predicate BoundedAt(pb: Problem, keys: set<int>, c: nat, s: State) {
    forall n :: n in pb.cf.neighbors(s) ==> pb.Key(n) in keys && n.g <= c
  }

  ghost predicate Degree(pb: Problem, d: nat) {
    forall s :: s in pb.dom ==> |pb.cf.neighbors(s)| <= d
  }

  /** One more key can be dearer than all before by one step at most. */
  ghost predicate Scored(pb: Problem, s: Search, keys: set<int>, c: nat) {
    && s.g.Keys <= keys && |s.g.Keys| >= 1
    && (forall k :: k in s.g ==> s.g[k] <= c * (|s.g.Keys| - 1))
    && (forall n :: n in s.lines ==> pb.Key(n) in s.g && 0 <= n.g <= c * (|s.g.Keys| - 1))
  }

  ghost predicate ScoredInv(pb: Problem, s: Search) {
    forall keys, c: nat :: Bounded(pb, keys, c) ==> Scored(pb, s, keys, c)
  }

  lemma InitialScoredInv(pb: Problem)
    ensures ScoredInv(pb, InitialSearch(pb))
  {
    assert InitialSearch(pb).g.Keys == {pb.key(pb.start)};
  }

  lemma PopIsScored(pb: Problem, s: Search, open: multiset<PathNode>)
    requires ScoredInv(pb, s)
    ensures ScoredInv(pb, s.(open := open))
  {
    forall keys, c: nat | Bounded(pb, keys, c) ensures Scored(pb, s.(open := open), keys, c) {
      assert Scored(pb, s, keys, c);
    }
  }

  lemma PushIsScored(pb: Problem, s: Search, cur: PathNode, i: nat)
    requires MidInv(pb, s, cur, i) && i < |pb.cf.neighbors(cur.Here())| && cur in s.lines && ScoredInv(pb, s)
    requires var m := pb.cf.neighbors(cur.Here())[i]; pb.Key(m) in s.g ==> cur.g + m.g < s.g[pb.Key(m)]
    ensures ScoredInv(pb, Improve(pb, s, cur, pb.cf.neighbors(cur.Here())[i]))
  {
    var m := pb.cf.neighbors(cur.Here())[i];
    KeyedImprove(pb, s, cur, i);
    forall keys, c: nat | Bounded(pb, keys, c) ensures Scored(pb, Improve(pb, s, cur, m), keys, c) {
      assert cur.Here() in pb.dom && m in pb.cf.neighbors(cur.Here()) && BoundedAt(pb, keys, c, cur.Here());
      PushIsScoredBy(pb, s, Improve(pb, s, cur, m), cur, m, keys, c);
    }
  }

  lemma PushIsScoredBy(pb: Problem, s: Search, s': Search, cur: PathNode, m: PathNode, keys: set<int>, c: nat)
    requires Scored(pb, s, keys, c) && cur in s.lines && pb.Key(m) in keys && 0 < m.g <= c
    requires pb.Key(m) in s.g ==> cur.g + m.g < s.g[pb.Key(m)]
    requires s'.g == s.g[pb.Key(m) := cur.g + m.g] && s'.lines.Keys == s.lines.Keys + {Stamp(pb, m, cur)}
    ensures Scored(pb, s', keys, c)
  {
    var n := Stamp(pb, m, cur);
    assert pb.Key(n) == pb.Key(m);
    if pb.Key(m) in s.g {
      assert s'.g.Keys == s.g.Keys;
    } else {
      assert s'.g.Keys == s.g.Keys + {pb.Key(m)} && |s'.g.Keys| == |s.g.Keys| + 1;
      assert c * (|s'.g.Keys| - 1) == c * (|s.g.Keys| - 1) + c;
    }
  }

  // ---------------------------------------------------------------- counting

  /** How many turns are enough to decide, whatever the estimate. */
  function TurnBound(keys: nat, c: nat): nat {
    keys * (c * keys + 1)
  }

  lemma TurnBoundGrows(a: nat, b: nat, c: nat, d: nat)
    requires a <= b
    ensures TurnBound(a, c) <= TurnBound(b, c) && a * d + 1 <= d * b + 1
  {
    Scaled(c, a, b);
    Scaled(a, c * a + 1, c * b + 1);
    Scaled(c * b + 1, a, b);
    Scaled(d, a, b);
  }

  lemma PopsBounded(pb: Problem, s: Search, popped: seq<PathNode>, keys: set<int>, c: nat)
    requires OneEach(pb, s) && OnceEach(s, popped) && Scored(pb, s, keys, c)
    ensures |popped| <= TurnBound(|keys|, c)
  {
    var b := c * |keys| + 1;
    var codes := seq(|popped|, j requires 0 <= j < |popped| => (pb.Key(popped[j]), popped[j].g));
    SubsetIsSmaller(s.g.Keys, keys);
    Scaled(c, |s.g.Keys| - 1, |keys|);
    forall j | 0 <= j < |popped| ensures codes[j] in Pairs(keys, b) {
      assert popped[j] in popped && popped[j] in s.lines;
    }
    forall i, j | 0 <= i < j < |popped| ensures codes[i] != codes[j] {
      assert popped[i] in popped && popped[j] in popped && popped[i] != popped[j];
    }
    DistinctWithin(codes, Pairs(keys, b));
    PairsCount(keys, b);
  }

  /** The step that pushed an entry tells which entry it was. */
  lemma FinalStepTells(pb: Problem, n: PathNode, p: PathNode, n': PathNode, p': PathNode, i: nat)
    requires pb.WellFormed() && FinalStep(pb, n, p, i) && FinalStep(pb, n', p', i) && n.parentKey == n'.parentKey
    ensures n == n'
  {
    assert p.Here() == p'.Here();
    var q :| pb.Reaches(q, p.Here()) && Cost(q) == p.g;
    var q' :| pb.Reaches(q', p'.Here()) && Cost(q') == p'.g;
    assert p.g == p'.g;
  }

  lemma RealisedKey(pb: Problem, p: PathNode, keys: set<int>, c: nat)
    requires pb.WellFormed() && Realised(pb, p) && Bounded(pb, keys, c)
    ensures pb.Key(p) in keys
  {
    var q :| pb.Reaches(q, p.Here()) && Cost(q) == p.g;
    if q != [] {
      var j := |q| - 1;
      RouteSplit(pb.cf, pb.start, q, j);
      RouteStays(pb, pb.start, q[..j]);
      RouteSplit(pb.cf, pb.start, q, |q|);
      assert q[..|q|] == q && q[j..] == [q[j]];
      assert BoundedAt(pb, keys, c, EndOf(pb.start, q[..j]));
    }
  }

  /** The step that pushed an entry, as the key it left and its place among the steps from there. */
  ghost predicate IsCode(pb: Problem, d: nat, n: PathNode, code: (int, int)) {
    if n == StartNode(pb) then code == (pb.key(pb.start), d)
    else 0 <= code.1 < d && code.0 == n.parentKey && exists p :: FinalStep(pb, n, p, code.1)
  }

  lemma CodeTells(pb: Problem, d: nat, n: PathNode, n': PathNode, code: (int, int))
    requires pb.WellFormed() && IsCode(pb, d, n, code) && IsCode(pb, d, n', code)
    ensures n == n'
  {
    if n != StartNode(pb) && n' != StartNode(pb) {
      var p :| FinalStep(pb, n, p, code.1);
      var p' :| FinalStep(pb, n', p', code.1);
      FinalStepTells(pb, n, p, n', p', code.1);
    }
  }

  ghost predicate CodeIn(pb: Problem, d: nat, keys: set<int>, n: PathNode, code: (int, int)) {
    IsCode(pb, d, n, code) && code in Pairs(keys, d) + {(pb.key(pb.start), d)}
  }

  lemma CodeOf(pb: Problem, s: Search, n: PathNode, keys: set<int>, c: nat, d: nat) returns (code: (int, int))
    requires pb.WellFormed() && pb.Weighted(1) && FinalSteps(pb, s) && n in s.lines
    requires Bounded(pb, keys, c) && Degree(pb, d)
    ensures CodeIn(pb, d, keys, n, code)
  {
    if n == StartNode(pb) {
      code := (pb.key(pb.start), d);
    } else {
      assert HasFinalStep(pb, n);
      var p, i: nat :| FinalStep(pb, n, p, i);
      RealisedKey(pb, p, keys, c);
      assert |pb.cf.neighbors(p.Here())| <= d;
      code := (n.parentKey, i);
      assert IsCode(pb, d, n, code);
      IsPair(keys, d, n.parentKey, i);
    }
  }

  lemma IsPair(keys: set<int>, d: nat, k: int, i: nat)
    requires k in keys && i < d
    ensures (k, i) in Pairs(keys, d)
  {
  }

  lemma {:induction false} CodesOf(pb: Problem, s: Search, popped: seq<PathNode>, keys: set<int>, c: nat, d: nat)
    returns (codes: seq<(int, int)>)
    requires pb.WellFormed() && pb.Weighted(1) && FinalSteps(pb, s) && forall n :: n in popped ==> n in s.lines
    requires Bounded(pb, keys, c) && Degree(pb, d)
    ensures |codes| == |popped|
    ensures forall i :: 0 <= i < |popped| ==> CodeIn(pb, d, keys, popped[i], codes[i])
    decreases |popped|
  {
    codes := [];
    if popped != [] {
      var front := CodesOf(pb, s, popped[..|popped| - 1], keys, c, d);
      var last := CodeOf(pb, s, popped[|popped| - 1], keys, c, d);
      codes := front + [last];
    }
  }

  /** With a consistent estimate no step is taken twice. */
  lemma ConsistentPopsBounded(pb: Problem, s: Search, popped: seq<PathNode>, keys: set<int>, c: nat, d: nat)
    requires pb.WellFormed() && pb.Weighted(1) && OnceEach(s, popped) && FinalSteps(pb, s)
    requires Bounded(pb, keys, c) && Degree(pb, d)
    ensures |popped| <= |keys| * d + 1
  {
    var codes := CodesOf(pb, s, popped, keys, c, d);
    var all := Pairs(keys, d) + {(pb.key(pb.start), d)};
    assert forall i :: 0 <= i < |codes| ==> CodeIn(pb, d, keys, popped[i], codes[i]);
    forall i, j | 0 <= i < j < |codes| ensures codes[i] != codes[j] {
      if codes[i] == codes[j] {
        CodeTells(pb, d, popped[i], popped[j], codes[i]);
      }
    }
    DistinctWithin(codes, all);
    PairsCount(keys, d);
  }

  /** So many turns are enough to decide a problem. */
  ghost predicate Enough(pb: Problem, turns: int) {
    || (exists keys, c: nat :: Bounded(pb, keys, c) && turns > TurnBound(|keys|, c))
    || (pb.Weighted(1) && exists keys, c: nat, d: nat :: Bounded(pb, keys, c) && Degree(pb, d) && turns > |keys| * d + 1)
  }

  lemma EnoughIsEnough(pb: Problem, s: Search, popped: seq<PathNode>, turns: int)
    requires pb.WellFormed() && PopInv(pb, s, popped) && ScoredInv(pb, s) && Enough(pb, turns)
    ensures |popped| < turns
  {
    if keys, c: nat :| Bounded(pb, keys, c) && turns > TurnBound(|keys|, c) {
      PopsBounded(pb, s, popped, keys, c);
    } else {
      var keys, c: nat, d: nat :| Bounded(pb, keys, c) && Degree(pb, d) && turns > |keys| * d + 1;
      ConsistentPopsBounded(pb, s, popped, keys, c, d);
    }
  }

  ghost predicate Consistent(pb: Problem) {
    pb.Weighted(1)
  }

  lemma IsEnough(pb: Problem, keys: set<int>, c: nat, d: nat, n: nat, consistent: bool, turns: int)
    requires Bounded(pb, keys, c) && Degree(pb, d) && |keys| <= n && (consistent ==> Consistent(pb))
    requires turns > TurnBound(n, c) || (consistent && turns > d * n + 1)
    ensures Enough(pb, turns)
  {
    TurnBoundGrows(|keys|, n, c, d);
  }
}
