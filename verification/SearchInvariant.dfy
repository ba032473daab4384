/**
  What every loop head of the reopening A* search keeps, and what follows from it about routes.
  The search has no closed set and no decrease-key, so the invariant speaks of each scored key:
  either the heap still holds an entry at its best score, or it is relaxed.
*/
module SearchInvariant {
  import opened Scaling
  import opened PathGraph

  /**
    The search's three collections, and, for the proofs only, the state behind each scored key and
    the line of every entry ever pushed: the popped entries that it was made through.
  */
  datatype Search = Search(open: multiset<PathNode>, g: map<int, int>, from: map<int, PathNode>,
                           at: map<int, State>, lines: map<PathNode, set<PathNode>>) {
    function Line(n: PathNode): set<PathNode> {
      if n in lines then lines[n] else {}
    }
  }

  function StartNode(pb: Problem): PathNode {
    PathNode(pb.H(pb.start.x, pb.start.y), 0, pb.start.x, pb.start.y, pb.start.direction, -1, "start", map[])
  }

  /** A neighbour as the search stamps it before pushing. */
  function Stamp(pb: Problem, m: PathNode, parent: PathNode): PathNode {
    m.(f := parent.g + m.g + pb.H(m.x, m.y), g := parent.g + m.g, parentKey := pb.Key(parent))
  }

  /** `n` is a step out of `parent`, stamped from it: same price, action and details. */
  ghost predicate Stamped(pb: Problem, parent: PathNode, n: PathNode) {
    exists m :: m in pb.cf.neighbors(parent.Here()) && n == Stamp(pb, m, parent)
  }

  ghost predicate Realised(pb: Problem, n: PathNode) {
    exists p :: pb.Reaches(p, n.Here()) && Cost(p) == n.g
  }

  /** No route to this node's state is cheaper than the node. */
  ghost predicate Final(pb: Problem, n: PathNode) {
    forall p :: pb.Reaches(p, n.Here()) ==> n.g <= Cost(p)
  }

  /** Scores, states and parents have the same keys, apart from the start, which has no parent. */
  ghost predicate Keyed(pb: Problem, s: Search) {
    var k0 := pb.key(pb.start);
    && s.at.Keys == s.g.Keys
    && k0 in s.g && s.g[k0] == 0 && s.at[k0] == pb.start
    && s.from.Keys == s.g.Keys - {k0}
    && (forall k :: k in s.g ==> pb.key(s.at[k]) == k && s.at[k] in pb.dom)
    && (forall k :: k in s.g && k != k0 ==> s.g[k] > 0)
  }

  ghost predicate NodeOk(pb: Problem, s: Search, n: PathNode)
    requires Keyed(pb, s)
  {
    var k := pb.Key(n);
    && k in s.g && n.Here() == s.at[k]
    && s.g[k] <= n.g
    && n.f == n.g + pb.H(n.x, n.y)
    && Realised(pb, n)
    && (k == pb.key(pb.start) ==> n == StartNode(pb))
    && (k != pb.key(pb.start) && n.g == s.g[k] ==> Stamped(pb, s.from[k], n))
  }

  /** The recorded parent of `k` has an edge into `k` that explains `k`'s score. */
  ghost predicate Explains(pb: Problem, s: Search, k: int)
    requires Keyed(pb, s) && k in s.from
  {
    exists m :: m in pb.cf.neighbors(s.from[k].Here()) && m.Here() == s.at[k] && s.from[k].g + m.g == s.g[k]
  }

  ghost predicate Queued(pb: Problem, s: Search, k: int)
    requires k in s.g
  {
    exists n :: n in s.open && pb.Key(n) == k && n.g == s.g[k]
  }

  ghost predicate RelaxedFirst(pb: Problem, s: Search, k: int, i: nat)
    requires k in s.g && k in s.at && i <= |pb.cf.neighbors(s.at[k])|
  {
    forall j :: 0 <= j < i ==>
      var m := pb.cf.neighbors(s.at[k])[j]; pb.Key(m) in s.g && s.g[pb.Key(m)] <= s.g[k] + m.g
  }

  /** No neighbour of `k` can be improved from `k`'s score. */
  ghost predicate Relaxed(pb: Problem, s: Search, k: int)
    requires k in s.g && k in s.at
  {
    RelaxedFirst(pb, s, k, |pb.cf.neighbors(s.at[k])|)
  }

  /** The part of the invariant that survives inside an expansion. */
  ghost predicate Sound(pb: Problem, s: Search) {
    && pb.WellFormed()
    && Keyed(pb, s)
    && (forall n :: n in s.open ==> NodeOk(pb, s, n))
    && (forall k :: k in s.from ==> NodeOk(pb, s, s.from[k]) && Explains(pb, s, k))
    && (pb.Weighted(1) ==> forall k :: k in s.from ==> Final(pb, s.from[k]))
  }

  ghost predicate Settled(pb: Problem, s: Search, k: int)
    requires k in s.g && k in s.at
  {
    !pb.AtGoal(s.at[k]) && Relaxed(pb, s, k)
  }

  /** The loop invariant of the search. */
  ghost predicate Inv(pb: Problem, s: Search) {
    && Sound(pb, s)
    && (forall k :: k in s.g ==> Queued(pb, s, k) || Settled(pb, s, k))
  }

  /** The invariant of the inner loop: `cur` has been popped and its first `i` neighbours handled. */
  ghost predicate MidInv(pb: Problem, s: Search, cur: PathNode, i: nat) {
    && Sound(pb, s)
    && NodeOk(pb, s, cur) && !pb.AtGoal(cur.Here())
    && i <= |pb.cf.neighbors(cur.Here())|
    && (forall k :: k in s.g ==>
          Queued(pb, s, k) || Settled(pb, s, k)
          || (k == pb.Key(cur) && s.g[k] == cur.g && RelaxedFirst(pb, s, k, i)))
    && (s.g[pb.Key(cur)] == cur.g || Settled(pb, s, pb.Key(cur)))
    && (pb.Weighted(1) ==> s.g[pb.Key(cur)] == cur.g ==> Final(pb, cur))
  }

  // ---------------------------------------------------------------- keeping the invariant

  function InitialSearch(pb: Problem): Search {
    var k0 := pb.key(pb.start);
    Search(multiset{StartNode(pb)}, map[k0 := 0], map[], map[k0 := pb.start], map[StartNode(pb) := {}])
  }

  lemma InitialInv(pb: Problem)
    requires pb.WellFormed()
    ensures Inv(pb, InitialSearch(pb))
  {
    var s := InitialSearch(pb);
    assert pb.Reaches([], pb.start) && Cost([]) == 0;
    assert Realised(pb, StartNode(pb));
    assert StartNode(pb) in s.open;
    assert Queued(pb, s, pb.key(pb.start));
  }

  /** Two states of the domain with one key are the same state, unless that is the start's key. */
  lemma SameKey(pb: Problem, s: Search, t: State)
    requires Sound(pb, s) && t in pb.dom && pb.key(t) in s.g && pb.key(t) != pb.key(pb.start)
    ensures s.at[pb.key(t)] == t
  {
  }

  /** Replaces a search by what one improving neighbour makes of it. */
  function Improve(pb: Problem, s: Search, cur: PathNode, m: PathNode): Search {
    var n := Stamp(pb, m, cur);
    Search(s.open + multiset{n}, s.g[pb.Key(m) := n.g], s.from[pb.Key(m) := cur], s.at[pb.Key(m) := m.Here()],
           s.lines[n := s.Line(cur) + {cur}])
  }

  lemma KeyedImprove(pb: Problem, s: Search, cur: PathNode, i: nat)
    requires MidInv(pb, s, cur, i) && i < |pb.cf.neighbors(cur.Here())|
    requires var m := pb.cf.neighbors(cur.Here())[i]; pb.Key(m) in s.g ==> cur.g + m.g < s.g[pb.Key(m)]
    ensures var m := pb.cf.neighbors(cur.Here())[i];
            var s' := Improve(pb, s, cur, m);
            && Keyed(pb, s')
            && pb.Key(m) != pb.key(pb.start) && pb.Key(m) != pb.Key(cur)
            && (pb.Key(m) in s.g ==> s.at[pb.Key(m)] == m.Here())
            && s'.g[pb.Key(m)] == cur.g + m.g
  {
    var m := pb.cf.neighbors(cur.Here())[i];
    assert m in pb.cf.neighbors(cur.Here());
    assert cur.Here() in pb.dom;
    assert m.g > 0 && m.Here() in pb.dom;
    assert cur.g >= 0;
    assert pb.Key(m) != pb.key(pb.start);
    if pb.Key(m) in s.g {
      SameKey(pb, s, m.Here());
    }
  }

  lemma RealisedStep(pb: Problem, cur: PathNode, m: PathNode)
    requires Realised(pb, cur) && m in pb.cf.neighbors(cur.Here()) && pb.Key(m) != pb.key(pb.start)
    ensures Realised(pb, Stamp(pb, m, cur))
  {
    var p :| pb.Reaches(p, cur.Here()) && Cost(p) == cur.g;
    RouteAppend(pb.cf, pb.start, p, m);
    assert pb.Reaches(p + [m], m.Here());
    assert Stamp(pb, m, cur).Here() == m.Here();
  }

  lemma NodeOkImprove(pb: Problem, s: Search, cur: PathNode, i: nat, n: PathNode)
    requires MidInv(pb, s, cur, i) && i < |pb.cf.neighbors(cur.Here())|
    requires var m := pb.cf.neighbors(cur.Here())[i]; pb.Key(m) in s.g ==> cur.g + m.g < s.g[pb.Key(m)]
    requires Keyed(pb, Improve(pb, s, cur, pb.cf.neighbors(cur.Here())[i]))
    requires NodeOk(pb, s, n)
    ensures NodeOk(pb, Improve(pb, s, cur, pb.cf.neighbors(cur.Here())[i]), n)
  {
    KeyedImprove(pb, s, cur, i);
  }

  lemma ParentsImprove(pb: Problem, s: Search, cur: PathNode, i: nat, k: int)
    requires MidInv(pb, s, cur, i) && i < |pb.cf.neighbors(cur.Here())|
    requires var m := pb.cf.neighbors(cur.Here())[i]; pb.Key(m) in s.g ==> cur.g + m.g < s.g[pb.Key(m)]
    requires Keyed(pb, Improve(pb, s, cur, pb.cf.neighbors(cur.Here())[i]))
    requires k in Improve(pb, s, cur, pb.cf.neighbors(cur.Here())[i]).from
    ensures var s' := Improve(pb, s, cur, pb.cf.neighbors(cur.Here())[i]);
            NodeOk(pb, s', s'.from[k]) && Explains(pb, s', k)
  {
    var m := pb.cf.neighbors(cur.Here())[i];
    if k == pb.Key(m) {
      NodeOkImprove(pb, s, cur, i, cur);
    } else {
      NodeOkImprove(pb, s, cur, i, s.from[k]);
      assert Explains(pb, s, k);
    }
  }

  lemma SoundImprove(pb: Problem, s: Search, cur: PathNode, i: nat)
    requires MidInv(pb, s, cur, i) && i < |pb.cf.neighbors(cur.Here())|
    requires var m := pb.cf.neighbors(cur.Here())[i]; pb.Key(m) in s.g ==> cur.g + m.g < s.g[pb.Key(m)]
    requires pb.Weighted(1) ==> Final(pb, cur)
    ensures var s' := Improve(pb, s, cur, pb.cf.neighbors(cur.Here())[i]);
            Sound(pb, s') && NodeOk(pb, s', cur)
  {
    var m := pb.cf.neighbors(cur.Here())[i];
    var s' := Improve(pb, s, cur, m);
    KeyedImprove(pb, s, cur, i);
    NodeOkImprove(pb, s, cur, i, cur);
    var n := Stamp(pb, m, cur);
    PushedOk(pb, s, cur, i);
    QueueImprove(pb, s, cur, i);
    forall k | k in s'.from ensures NodeOk(pb, s', s'.from[k]) && Explains(pb, s', k) {
      ParentsImprove(pb, s, cur, i, k);
    }
  }

  lemma QueueImprove(pb: Problem, s: Search, cur: PathNode, i: nat)
    requires MidInv(pb, s, cur, i) && i < |pb.cf.neighbors(cur.Here())|
    requires var m := pb.cf.neighbors(cur.Here())[i]; pb.Key(m) in s.g ==> cur.g + m.g < s.g[pb.Key(m)]
    requires Keyed(pb, Improve(pb, s, cur, pb.cf.neighbors(cur.Here())[i]))
    requires var m := pb.cf.neighbors(cur.Here())[i]; NodeOk(pb, Improve(pb, s, cur, m), Stamp(pb, m, cur))
    ensures var s' := Improve(pb, s, cur, pb.cf.neighbors(cur.Here())[i]);
            forall n :: n in s'.open ==> NodeOk(pb, s', n)
  {
    var s' := Improve(pb, s, cur, pb.cf.neighbors(cur.Here())[i]);
    forall n | n in s'.open ensures NodeOk(pb, s', n) {
      if n in s.open {
        NodeOkImprove(pb, s, cur, i, n);
      }
    }
  }

  lemma PushedOk(pb: Problem, s: Search, cur: PathNode, i: nat)
    requires MidInv(pb, s, cur, i) && i < |pb.cf.neighbors(cur.Here())|
    requires pb.Key(pb.cf.neighbors(cur.Here())[i]) != pb.key(pb.start)
    requires Keyed(pb, Improve(pb, s, cur, pb.cf.neighbors(cur.Here())[i]))
    ensures var m := pb.cf.neighbors(cur.Here())[i];
            NodeOk(pb, Improve(pb, s, cur, m), Stamp(pb, m, cur))
  {
    var m := pb.cf.neighbors(cur.Here())[i];
    RealisedStep(pb, cur, m);
    assert Stamped(pb, cur, Stamp(pb, m, cur));
  }

  lemma StaleNeverImproves(pb: Problem, s: Search, cur: PathNode, i: nat)
    requires MidInv(pb, s, cur, i) && i < |pb.cf.neighbors(cur.Here())|
    requires s.g[pb.Key(cur)] != cur.g
    ensures var m := pb.cf.neighbors(cur.Here())[i]; pb.Key(m) in s.g && s.g[pb.Key(m)] <= cur.g + m.g
  {
    var k := pb.Key(cur);
    assert s.at[k] == cur.Here();
    assert RelaxedFirst(pb, s, k, |pb.cf.neighbors(cur.Here())|);
  }

  lemma RelaxedImprove(pb: Problem, s: Search, cur: PathNode, m: PathNode, k: int, i: nat)
    requires k in s.g && k in s.at && k != pb.Key(m) && i <= |pb.cf.neighbors(s.at[k])|
    requires RelaxedFirst(pb, s, k, i)
    requires pb.Key(m) in s.g ==> cur.g + m.g < s.g[pb.Key(m)]
    ensures RelaxedFirst(pb, Improve(pb, s, cur, m), k, i)
  {
  }

  /** An improving neighbour keeps the inner invariant. */
  lemma MidInvImprove(pb: Problem, s: Search, cur: PathNode, i: nat)
    requires MidInv(pb, s, cur, i) && i < |pb.cf.neighbors(cur.Here())|
    requires var m := pb.cf.neighbors(cur.Here())[i]; pb.Key(m) in s.g ==> cur.g + m.g < s.g[pb.Key(m)]
    ensures MidInv(pb, Improve(pb, s, cur, pb.cf.neighbors(cur.Here())[i]), cur, i + 1)
  {
    var m := pb.cf.neighbors(cur.Here())[i];
    var s' := Improve(pb, s, cur, m);
    KeyedImprove(pb, s, cur, i);
    if s.g[pb.Key(cur)] != cur.g {
      StaleNeverImproves(pb, s, cur, i);
    }
    SoundImprove(pb, s, cur, i);
    forall k | k in s'.g
      ensures Queued(pb, s', k) || Settled(pb, s', k)
              || (k == pb.Key(cur) && s'.g[k] == cur.g && RelaxedFirst(pb, s', k, i + 1))
    {
      assert k in s.g ==> (k == pb.Key(cur) ==> s.at[k] == cur.Here());
      ProgressImprove(pb, s, cur, m, i, k);
    }
  }

  lemma ProgressImprove(pb: Problem, s: Search, cur: PathNode, m: PathNode, i: nat, k: int)
    requires i < |pb.cf.neighbors(cur.Here())| && m == pb.cf.neighbors(cur.Here())[i]
    requires pb.Key(m) in s.g ==> cur.g + m.g < s.g[pb.Key(m)]
    requires pb.Key(m) != pb.Key(cur)
    requires k == pb.Key(m) || (k in s.g && k in s.at
             && (Queued(pb, s, k) || Settled(pb, s, k)
                 || (s.at[k] == cur.Here() && s.g[k] == cur.g && RelaxedFirst(pb, s, k, i))))
    ensures var s' := Improve(pb, s, cur, m);
            Queued(pb, s', k) || Settled(pb, s', k)
            || (s'.at[k] == cur.Here() && s'.g[k] == cur.g && RelaxedFirst(pb, s', k, i + 1))
  {
    var s' := Improve(pb, s, cur, m);
    if k == pb.Key(m) {
      var n := Stamp(pb, m, cur);
      assert n in s'.open && pb.Key(n) == k && n.g == s'.g[k];
    } else if Queued(pb, s, k) {
      var q :| q in s.open && pb.Key(q) == k && q.g == s.g[k];
      assert q in s'.open;
    } else if Settled(pb, s, k) {
      RelaxedImprove(pb, s, cur, m, k, |pb.cf.neighbors(s.at[k])|);
    } else {
      RelaxedImprove(pb, s, cur, m, k, i);
    }
  }

  /** A neighbour that is no improvement is skipped, and that keeps the inner invariant too. */
  lemma MidInvSkip(pb: Problem, s: Search, cur: PathNode, i: nat)
    requires MidInv(pb, s, cur, i) && i < |pb.cf.neighbors(cur.Here())|
    requires var m := pb.cf.neighbors(cur.Here())[i]; pb.Key(m) in s.g && s.g[pb.Key(m)] <= cur.g + m.g
    ensures MidInv(pb, s, cur, i + 1)
  {
    forall k | k in s.g
      ensures Queued(pb, s, k) || Settled(pb, s, k)
              || (k == pb.Key(cur) && s.g[k] == cur.g && RelaxedFirst(pb, s, k, i + 1))
    {
      if k == pb.Key(cur) {
        assert s.at[k] == cur.Here();
      }
    }
  }

  /** After the last neighbour the popped key is settled and the loop invariant is back. */
  lemma MidInvDone(pb: Problem, s: Search, cur: PathNode)
    requires MidInv(pb, s, cur, |pb.cf.neighbors(cur.Here())|)
    ensures Inv(pb, s)
  {
    forall k | k in s.g ensures Queued(pb, s, k) || Settled(pb, s, k) {
      if k == pb.Key(cur) {
        assert s.at[k] == cur.Here();
      }
    }
  }

  // ---------------------------------------------------------------- routes and the frontier

  /** A heap entry at its best score, with a route onward to `t` for `total` in all. */
  ghost predicate InFront(pb: Problem, s: Search, n: PathNode, rest: seq<PathNode>, t: State, total: int) {
    && n in s.open && pb.Key(n) in s.g && n.g == s.g[pb.Key(n)]
    && IsRoute(pb.cf, n.Here(), rest) && EndOf(n.Here(), rest) == t && n.g + Cost(rest) <= total
  }

  /** A settled state scored within `total`. */
  ghost predicate Behind(pb: Problem, s: Search, t: State, total: int) {
    && pb.key(t) in s.g && pb.key(t) in s.at && s.at[pb.key(t)] == t && s.g[pb.key(t)] <= total
    && Settled(pb, s, pb.key(t))
  }

  lemma SettledStep(pb: Problem, s: Search, u: State, m: PathNode)
    requires Sound(pb, s) && pb.key(u) in s.g && s.at[pb.key(u)] == u && Relaxed(pb, s, pb.key(u))
    requires m in pb.cf.neighbors(u) && pb.Key(m) != pb.key(pb.start)
    ensures pb.Key(m) in s.g && s.at[pb.Key(m)] == m.Here() && s.g[pb.Key(m)] <= s.g[pb.key(u)] + m.g
  {
    var j :| 0 <= j < |pb.cf.neighbors(u)| && pb.cf.neighbors(u)[j] == m;
    assert RelaxedFirst(pb, s, pb.key(u), |pb.cf.neighbors(u)|);
    assert u in pb.dom;
    SameKey(pb, s, m.Here());
  }

  /**
    On every route that avoids the start's key, from a state whose score is within `pre`, lies a
    heap entry at its best score whose remaining route is no more than what is left; or else the
    route's end is itself scored within the route's cost, relaxed, and not a goal.
  */
  lemma {:induction false} FrontierOnRoute(pb: Problem, s: Search, u: State, pre: int, p: seq<PathNode>)
    returns (queued: bool, n: PathNode, rest: seq<PathNode>)
    requires Inv(pb, s)
    requires pb.key(u) in s.g && s.at[pb.key(u)] == u && s.g[pb.key(u)] <= pre
    requires IsRoute(pb.cf, u, p) && pb.Avoids(p)
    ensures queued ==> InFront(pb, s, n, rest, EndOf(u, p), pre + Cost(p))
    ensures !queued ==> Behind(pb, s, EndOf(u, p), pre + Cost(p))
    decreases |p|
  {
    n, rest := StartNode(pb), [];
    if Queued(pb, s, pb.key(u)) {
      n :| n in s.open && pb.Key(n) == pb.key(u) && n.g == s.g[pb.key(u)];
      queued, rest := true, p;
    } else if p == [] {
      queued := false;
    } else {
      var m := p[0];
      assert pb.Key(m) != pb.key(pb.start);
      SettledStep(pb, s, u, m);
      assert pb.Avoids(p[1..]);
      queued, n, rest := FrontierOnRoute(pb, s, m.Here(), pre + m.g, p[1..]);
    }
  }

  /** The estimate at a state is within the weight of the cost of any route onward. */
  lemma {:induction false} EstimateWithin(pb: Problem, w: nat, u: State, p: seq<PathNode>)
    requires pb.WellFormed() && pb.Weighted(w) && u in pb.dom && IsRoute(pb.cf, u, p)
    ensures pb.H(u.x, u.y) <= w * Cost(p) + pb.H(EndOf(u, p).x, EndOf(u, p).y)
    decreases |p|
  {
    if p != [] {
      var m := p[0];
      assert m.Here() in pb.dom;
      EstimateWithin(pb, w, m.Here(), p[1..]);
      assert w * Cost(p) == w * m.g + w * Cost(p[1..]);
    }
  }

  ghost predicate IsCheapest(s: Search, n: PathNode) {
    n in s.open && forall q :: q in s.open ==> n.f <= q.f
  }

  /** An entry popped at a goal costs at most `w` times any route to a goal. */
  lemma GoalPopWithin(pb: Problem, s: Search, cur: PathNode, w: nat, p: seq<PathNode>, t: State)
    requires Inv(pb, s) && IsCheapest(s, cur) && pb.AtGoal(cur.Here())
    requires w >= 1 && pb.Weighted(w) && pb.Reaches(p, t) && pb.AtGoal(t)
    ensures cur.g <= w * Cost(p)
  {
    var queued, n, rest := FrontierOnRoute(pb, s, pb.start, 0, p);
    assert NodeOk(pb, s, n);
    FrontWithin(pb, w, n, rest, Cost(p));
  }

  lemma FrontWithin(pb: Problem, w: nat, n: PathNode, rest: seq<PathNode>, total: int)
    requires pb.WellFormed() && pb.Weighted(w) && w >= 1
    requires n.Here() in pb.dom && IsRoute(pb.cf, n.Here(), rest) && pb.AtGoal(EndOf(n.Here(), rest))
    requires 0 <= n.g && n.g + Cost(rest) <= total
    ensures n.g + pb.H(n.x, n.y) <= w * total
  {
    EstimateWithin(pb, w, n.Here(), rest);
    ScaledSum(w, n.g, Cost(rest), total);
  }

  /** With the heap empty, every state a route reaches has been scored, and none is a goal. */
  lemma EmptyHeapScoresAll(pb: Problem, s: Search, p: seq<PathNode>, t: State)
    requires Inv(pb, s) && s.open == multiset{}
    requires pb.Reaches(p, t)
    ensures pb.key(t) in s.g && !pb.AtGoal(t)
  {
    var queued, n, rest := FrontierOnRoute(pb, s, pb.start, 0, p);
  }

  /** With a consistent estimate the popped entry, unless stale, is as cheap as any route to it. */
  lemma PopIsFinal(pb: Problem, s: Search, cur: PathNode)
    requires Inv(pb, s) && IsCheapest(s, cur) && pb.Weighted(1)
    requires s.g[pb.Key(cur)] == cur.g
    ensures Final(pb, cur)
  {
    forall p | pb.Reaches(p, cur.Here()) ensures cur.g <= Cost(p) {
      var queued, n, rest := FrontierOnRoute(pb, s, pb.start, 0, p);
      if queued {
        assert n.Here() in pb.dom;
        EstimateWithin(pb, 1, n.Here(), rest);
        assert cur.f <= n.f;
      }
    }
  }

  /**
    The reopening invariant at work: when the cheapest entry is stale, its key is relaxed at the
    better score already, so expanding the entry improves nothing.
  */
  lemma StalePopIsSettled(pb: Problem, s: Search, cur: PathNode)
    requires Inv(pb, s) && IsCheapest(s, cur) && s.g[pb.Key(cur)] != cur.g
    ensures Settled(pb, s, pb.Key(cur))
    ensures forall m :: m in pb.cf.neighbors(cur.Here()) ==> pb.Key(m) in s.g && s.g[pb.Key(m)] <= cur.g + m.g
  {
    var k := pb.Key(cur);
    forall q | q in s.open && pb.Key(q) == k ensures cur.g <= q.g {
      assert q.Here() == s.at[k] == cur.Here();
    }
    assert !Queued(pb, s, k);
    forall m | m in pb.cf.neighbors(cur.Here()) ensures pb.Key(m) in s.g && s.g[pb.Key(m)] <= cur.g + m.g {
      assert RelaxedFirst(pb, s, k, |pb.cf.neighbors(s.at[k])|);
      var j :| 0 <= j < |pb.cf.neighbors(cur.Here())| && pb.cf.neighbors(cur.Here())[j] == m;
    }
  }

  /** A goal entry, when popped, carries the best score recorded for its key. */
  lemma GoalPopIsBest(pb: Problem, s: Search, cur: PathNode)
    requires Inv(pb, s) && IsCheapest(s, cur) && pb.AtGoal(cur.Here())
    ensures s.g[pb.Key(cur)] == cur.g
  {
    if s.g[pb.Key(cur)] != cur.g {
      StalePopIsSettled(pb, s, cur);
    }
  }

  /** What the heap holds matters to soundness only through its entries. */
  lemma SoundShrink(pb: Problem, s: Search, open: multiset<PathNode>)
    requires Sound(pb, s) && open <= s.open
    ensures Sound(pb, s.(open := open))
    ensures forall n :: NodeOk(pb, s, n) ==> NodeOk(pb, s.(open := open), n)
  {
    var s' := s.(open := open);
    forall k | k in s'.from ensures Explains(pb, s', k) {
      assert Explains(pb, s, k);
    }
  }

  lemma ProgressPop(pb: Problem, s: Search, cur: PathNode, k: int)
    requires k in s.g && k in s.at && (Queued(pb, s, k) || Settled(pb, s, k))
    ensures var s' := s.(open := s.open - multiset{cur});
            Queued(pb, s', k) || Settled(pb, s', k) || (k == pb.Key(cur) && s.g[k] == cur.g)
  {
    var s' := s.(open := s.open - multiset{cur});
    if Settled(pb, s, k) {
      assert RelaxedFirst(pb, s', k, |pb.cf.neighbors(s'.at[k])|);
    } else {
      var q :| q in s.open && pb.Key(q) == k && q.g == s.g[k];
      assert q != cur ==> q in s'.open;
    }
  }

  /** Popping a node that is not at the goal starts an expansion. */
  lemma PopStartsExpansion(pb: Problem, s: Search, cur: PathNode)
    requires Inv(pb, s) && IsCheapest(s, cur) && !pb.AtGoal(cur.Here())
    ensures MidInv(pb, s.(open := s.open - multiset{cur}), cur, 0)
  {
    var s' := s.(open := s.open - multiset{cur});
    SoundShrink(pb, s, s'.open);
    if s.g[pb.Key(cur)] != cur.g {
      StalePopIsSettled(pb, s, cur);
      ProgressPop(pb, s, cur, pb.Key(cur));
    } else if pb.Weighted(1) {
      PopIsFinal(pb, s, cur);
    }
    forall k | k in s'.g
      ensures Queued(pb, s', k) || Settled(pb, s', k) || (k == pb.Key(cur) && s.g[k] == cur.g)
    {
      ProgressPop(pb, s, cur, k);
    }
  }
}
