/**
  The route search itself: a reopening A* over a heap, a score map and a parent map, and the walk
  back along the parents. The heap's own order among equal estimates is left open, so every result
  holds for each way of breaking ties.
*/
module Astar {
  import opened PathGraph
  import opened SearchInvariant
  import opened Lineage
  import opened Sequences
  import opened Popping

  /** One entry of a returned path. */
  datatype PathStep = PathStep(x: int, y: int, action: string, meta: map<string, int>)

  datatype PathResult = PathResult(found: bool, path: seq<PathStep>, totalCost: int,
                                   tilesExplored: nat, iterations: nat)

  function Entry(n: PathNode): PathStep {
    PathStep(n.x, n.y, n.action, n.meta)
  }

  function Entries(ns: seq<PathNode>): seq<PathStep> {
    seq(|ns|, i requires 0 <= i < |ns| => Entry(ns[i]))
  }

  /** The chain of parents from the start to `n`; scores strictly fall along it, so it is finite. */
  ghost function Trail(pb: Problem, s: Search, n: PathNode): (t: seq<PathNode>)
    requires Sound(pb, s) && NodeOk(pb, s, n)
    ensures |t| > 0 && t[|t| - 1] == n
    decreases s.g[pb.Key(n)]
  {
    if pb.Key(n) !in s.from then [n]
    else
      assert Explains(pb, s, pb.Key(n));
      Trail(pb, s, s.from[pb.Key(n)]) + [n]
  }

  // ---------------------------------------------------------------- what a returned path says

  /** The path visits the start and then exactly the tiles of `route`, in order. */
  ghost predicate Visits(pb: Problem, path: seq<PathStep>, route: seq<PathNode>) {
    && |path| == |route| + 1
    && path[0].x == pb.start.x && path[0].y == pb.start.y
    && (forall i :: 0 <= i < |route| ==> path[i + 1].x == route[i].x && path[i + 1].y == route[i].y)
    && path[|route|].action == "end"
    && (|route| > 0 ==> path[0].action == "start")
  }

  /** Every entry carries the details of the step it stands for; all but the last carry its action. */
  ghost predicate SameWork(path: seq<PathStep>, route: seq<PathNode>)
    requires |path| == |route| + 1
  {
    && (forall i :: 0 <= i < |route| ==> path[i + 1].meta == route[i].meta)
    && (forall i :: 0 <= i < |route| - 1 ==> path[i + 1].action == route[i].action)
  }

  ghost predicate Follows(pb: Problem, trail: seq<PathNode>, p: seq<PathNode>) {
    && |trail| == |p| + 1
    && trail[0] == StartNode(pb)
    && (forall i :: 0 <= i < |p| ==> trail[i + 1].Here() == p[i].Here())
  }

  ghost predicate FollowsExactly(trail: seq<PathNode>, p: seq<PathNode>)
    requires |trail| == |p| + 1
  {
    forall i :: 0 <= i < |p| ==> trail[i + 1].action == p[i].action && trail[i + 1].meta == p[i].meta
  }

  /** With a consistent estimate a recorded parent is never improved after it is recorded. */
  lemma ParentIsBest(pb: Problem, s: Search, k: int)
    requires Sound(pb, s) && pb.Weighted(1) && k in s.from
    ensures s.from[k].g == s.g[pb.Key(s.from[k])]
  {
    var p := s.from[k];
    assert NodeOk(pb, s, p) && Final(pb, p);
    ScoreIsRealised(pb, s, pb.Key(p));
  }

  /** A key's score is the cost of some route to its state. */
  lemma ScoreIsRealised(pb: Problem, s: Search, k: int)
    requires Sound(pb, s) && k in s.g
    ensures exists p :: pb.Reaches(p, s.at[k]) && Cost(p) == s.g[k]
  {
    if k == pb.key(pb.start) {
      assert pb.Reaches([], pb.start) && Cost([]) == 0;
    } else {
      assert Explains(pb, s, k);
      var parent := s.from[k];
      var m :| m in pb.cf.neighbors(parent.Here()) && m.Here() == s.at[k] && parent.g + m.g == s.g[k];
      assert NodeOk(pb, s, parent);
      RealisedStep(pb, parent, m);
      assert Stamp(pb, m, parent).Here() == m.Here();
    }
  }

  lemma ReachesStep(pb: Problem, p: seq<PathNode>, t: State, m: PathNode)
    requires pb.Reaches(p, t) && m in pb.cf.neighbors(t) && pb.Key(m) != pb.key(pb.start)
    ensures pb.Reaches(p + [m], m.Here()) && Cost(p + [m]) == Cost(p) + m.g
  {
    RouteAppend(pb.cf, pb.start, p, m);
  }

  lemma TrailParent(pb: Problem, s: Search, n: PathNode)
    requires Sound(pb, s) && NodeOk(pb, s, n) && pb.Key(n) in s.from
    ensures var parent := s.from[pb.Key(n)];
            && NodeOk(pb, s, parent)
            && Trail(pb, s, n) == Trail(pb, s, parent) + [n]
            && 0 <= s.g[pb.Key(parent)] < s.g[pb.Key(n)]
            && pb.Key(n) != pb.key(pb.start)
  {
    assert Explains(pb, s, pb.Key(n));
  }

  /** `trail` is a chain of parents: each element is recorded for the next, the first has none. */
  ghost predicate IsChain(key: State -> int, from: map<int, PathNode>, trail: seq<PathNode>) {
    && |trail| > 0
    && key(trail[0].Here()) !in from
    && (forall i :: 0 < i < |trail| ==> key(trail[i].Here()) in from && from[key(trail[i].Here())] == trail[i - 1])
  }

  lemma {:induction false} TrailIsChain(pb: Problem, s: Search, n: PathNode)
    requires Sound(pb, s) && NodeOk(pb, s, n)
    ensures IsChain(pb.key, s.from, Trail(pb, s, n))
    decreases s.g[pb.Key(n)]
  {
    if pb.Key(n) in s.from {
      TrailParent(pb, s, n);
      TrailIsChain(pb, s, s.from[pb.Key(n)]);
    }
  }

  /** A trail follows a route that costs exactly the trail's last node, step by step as it was taken. */
  ghost predicate FollowedBy(pb: Problem, n: PathNode, trail: seq<PathNode>, p: seq<PathNode>) {
    pb.Reaches(p, n.Here()) && Follows(pb, trail, p) && Cost(p) == n.g && FollowsExactly(trail, p)
  }

  lemma FollowOneMore(pb: Problem, parent: PathNode, trail: seq<PathNode>, q: seq<PathNode>, n: PathNode, m: PathNode)
    requires FollowedBy(pb, parent, trail, q)
    requires m in pb.cf.neighbors(parent.Here()) && pb.Key(n) != pb.key(pb.start) && n == Stamp(pb, m, parent)
    ensures FollowedBy(pb, n, trail + [n], q + [m])
  {
    assert m.Here() == n.Here();
    ReachesStep(pb, q, parent.Here(), m);
  }

  /** The step by which an entry at its key's best score was made. */
  lemma StepInto(pb: Problem, s: Search, n: PathNode) returns (m: PathNode)
    requires Sound(pb, s) && NodeOk(pb, s, n) && pb.Key(n) in s.from && n.g == s.g[pb.Key(n)]
    ensures m in pb.cf.neighbors(s.from[pb.Key(n)].Here()) && n == Stamp(pb, m, s.from[pb.Key(n)])
  {
    var parent := s.from[pb.Key(n)];
    assert Stamped(pb, parent, n);
    m :| m in pb.cf.neighbors(parent.Here()) && n == Stamp(pb, m, parent);
  }

  /**
    The chain of parents from the popped goal follows a route of the neighbour graph that costs
    exactly what the goal was popped with, and its entries are the steps of that route.
  */
  lemma {:induction false} TrailFollowsRoute(pb: Problem, s: Search, goal: PathNode, n: PathNode) returns (p: seq<PathNode>)
    requires Inv(pb, s) && LineInv(pb, s) && IsCheapest(s, goal) && OnLine(pb, s, goal, n) && NodeOk(pb, s, n)
    ensures FollowedBy(pb, n, Trail(pb, s, n), p)
    decreases s.g[pb.Key(n)]
  {
    if pb.Key(n) !in s.from {
      p := [];
      TrailOfStart(pb, s, n);
    } else {
      TrailParent(pb, s, n);
      ParentIsOnLine(pb, s, goal, n);
      var q := TrailFollowsRoute(pb, s, goal, s.from[pb.Key(n)]);
      p := TrailGrows(pb, s, n, q);
    }
  }

  lemma TrailOfStart(pb: Problem, s: Search, n: PathNode)
    requires Sound(pb, s) && NodeOk(pb, s, n) && pb.Key(n) !in s.from
    ensures FollowedBy(pb, n, Trail(pb, s, n), [])
  {
  }

  lemma TrailGrows(pb: Problem, s: Search, n: PathNode, q: seq<PathNode>) returns (p: seq<PathNode>)
    requires Sound(pb, s) && NodeOk(pb, s, n) && pb.Key(n) in s.from && n.g == s.g[pb.Key(n)]
    requires var parent := s.from[pb.Key(n)];
             NodeOk(pb, s, parent) && FollowedBy(pb, parent, Trail(pb, s, parent), q)
    ensures FollowedBy(pb, n, Trail(pb, s, n), p)
  {
    TrailParent(pb, s, n);
    var m := StepInto(pb, s, n);
    p := q + [m];
    FollowOneMore(pb, s.from[pb.Key(n)], Trail(pb, s, s.from[pb.Key(n)]), q, n, m);
  }

  /** The entries of a chain that follows a route visit the route; its marked end aside, exactly. */
  lemma EntriesVisit(pb: Problem, trail: seq<PathNode>, p: seq<PathNode>, path: seq<PathStep>)
    requires Follows(pb, trail, p)
    requires path == Entries(trail)[|p| := Entry(trail[|p|]).(action := "end")]
    ensures Visits(pb, path, p)
    ensures FollowsExactly(trail, p) ==> SameWork(path, p)
  {
    forall i | 0 <= i < |p| ensures path[i + 1].x == p[i].x && path[i + 1].y == p[i].y {
      assert trail[i + 1].Here() == p[i].Here();
    }
  }

  // ---------------------------------------------------------------- the methods

  lemma GoalPopWithinAll(pb: Problem, s: Search, cur: PathNode)
    requires Inv(pb, s) && IsCheapest(s, cur) && pb.AtGoal(cur.Here())
    ensures forall w: nat, p, t :: w >= 1 && pb.Weighted(w) && pb.Reaches(p, t) && pb.AtGoal(t)
                                   ==> cur.g <= w * Cost(p)
  {
    forall w: nat, p, t | w >= 1 && pb.Weighted(w) && pb.Reaches(p, t) && pb.AtGoal(t)
      ensures cur.g <= w * Cost(p)
    {
      GoalPopWithin(pb, s, cur, w, p, t);
    }
  }

  ghost predicate ReachableKey(pb: Problem, k: int) {
    exists p, t :: pb.Reaches(p, t) && pb.key(t) == k
  }

  lemma ScoredAreReachable(pb: Problem, s: Search)
    requires Sound(pb, s)
    ensures forall k :: k in s.g.Keys ==> ReachableKey(pb, k)
  {
    forall k | k in s.g ensures ReachableKey(pb, k) {
      ScoreIsRealised(pb, s, k);
    }
  }

  lemma EmptyHeapMeansExhausted(pb: Problem, s: Search)
    requires Inv(pb, s) && s.open == multiset{}
    ensures forall p, t :: pb.AtGoal(t) ==> !pb.Reaches(p, t)
    ensures forall k :: ReachableKey(pb, k) ==> k in s.g.Keys
  {
    forall p, t | pb.Reaches(p, t) ensures pb.key(t) in s.g && !pb.AtGoal(t) {
      EmptyHeapScoresAll(pb, s, p, t);
    }
  }

  /** Takes an entry with the smallest estimate off the heap; any such entry may come out. */
  method HeapPop(open: multiset<PathNode>) returns (least: PathNode, rest: multiset<PathNode>)
    requires open != multiset{}
    ensures least in open && rest == open - multiset{least}
    ensures forall n :: n in open ==> least.f <= n.f
  {
    LeastExists(open);
    least :| least in open && forall n :: n in open ==> least.f <= n.f;
    rest := open - multiset{least};
  }

  lemma {:induction false} LeastExists(open: multiset<PathNode>)
    requires open != multiset{}
    ensures exists n :: n in open && forall q :: q in open ==> n.f <= q.f
    decreases |open|
  {
    var a :| a in open;
    var rest := open - multiset{a};
    if rest != multiset{} {
      LeastExists(rest);
      var b :| b in rest && forall q :: q in rest ==> b.f <= q.f;
      var least := if a.f <= b.f then a else b;
      assert least in open && forall q :: q in open ==> least.f <= q.f;
    } else {
      assert open == multiset{a};
    }
  }

  /** Walks the parents back from `last` and reverses what it collected. */
  method Reconstruct(last: PathNode, from: map<int, PathNode>, key: State -> int, ghost trail: seq<PathNode>)
    returns (path: seq<PathStep>)
    requires IsChain(key, from, trail) && trail[|trail| - 1] == last
    ensures path == Entries(trail)
  {
    var collected: seq<PathStep> := [];
    var current := last;
    ghost var j := |trail| - 1;
    assert trail[j + 1..] == [];
    while key(current.Here()) in from
      invariant 0 <= j < |trail| && current == trail[j]
      invariant Reversed(collected) == Entries(trail[j + 1..])
      decreases j
    {
      ReversedSnoc(collected, Entry(current));
      collected := collected + [Entry(current)];
      current := from[key(current.Here())];
      j := j - 1;
    }
    ReversedSnoc(collected, Entry(current));
    collected := collected + [Entry(current)];
    assert trail[0..] == trail;
    path := Reversed(collected);
  }

  function Reversed<T>(xs: seq<T>): (r: seq<T>)
    ensures |r| == |xs|
  {
    if xs == [] then [] else Reversed(xs[1..]) + [xs[0]]
  }

  lemma {:induction false} ReversedSnoc<T>(xs: seq<T>, x: T)
    ensures Reversed(xs + [x]) == [x] + Reversed(xs)
    decreases |xs|
  {
    if xs == [] {
      assert ([] + [x])[1..] == [];
    } else {
      ReversedSnoc(xs[1..], x);
      assert (xs + [x])[1..] == xs[1..] + [x];
    }
  }

  function Relaxing(pb: Problem, s: Search, cur: PathNode, m: PathNode): Search {
    if pb.Key(m) in s.g && cur.g + m.g >= s.g[pb.Key(m)] then s else Improve(pb, s, cur, m)
  }

  /** The search after the neighbours from the `i`th on have been handled as well. */
  function Expanding(pb: Problem, s: Search, cur: PathNode, i: nat): Search
    requires i <= |pb.cf.neighbors(cur.Here())|
    decreases |pb.cf.neighbors(cur.Here())| - i
  {
    if i == |pb.cf.neighbors(cur.Here())| then s
    else Expanding(pb, Relaxing(pb, s, cur, pb.cf.neighbors(cur.Here())[i]), cur, i + 1)
  }

  lemma RelaxingKeepsMidInv(pb: Problem, s: Search, cur: PathNode, i: nat)
    requires MidInv(pb, s, cur, i) && i < |pb.cf.neighbors(cur.Here())|
    ensures MidInv(pb, Relaxing(pb, s, cur, pb.cf.neighbors(cur.Here())[i]), cur, i + 1)
  {
    var m := pb.cf.neighbors(cur.Here())[i];
    if pb.Key(m) in s.g && cur.g + m.g >= s.g[pb.Key(m)] {
      MidInvSkip(pb, s, cur, i);
    } else {
      MidInvImprove(pb, s, cur, i);
    }
  }

  /** A whole expansion turns the invariant of a popped heap back into the loop invariant. */
  lemma {:induction false} ExpansionKeepsInv(pb: Problem, s: Search, cur: PathNode, i: nat)
    requires MidInv(pb, s, cur, i)
    ensures Inv(pb, Expanding(pb, s, cur, i))
    decreases |pb.cf.neighbors(cur.Here())| - i
  {
    if i == |pb.cf.neighbors(cur.Here())| {
      MidInvDone(pb, s, cur);
    } else {
      RelaxingKeepsMidInv(pb, s, cur, i);
      ExpansionKeepsInv(pb, Relaxing(pb, s, cur, pb.cf.neighbors(cur.Here())[i]), cur, i + 1);
    }
  }

  /** It also keeps the lines of the entries. */
  lemma {:induction false} ExpansionKeepsLines(pb: Problem, s: Search, cur: PathNode, i: nat)
    requires MidInv(pb, s, cur, i) && LineMid(pb, s, cur)
    ensures LineInv(pb, Expanding(pb, s, cur, i))
    decreases |pb.cf.neighbors(cur.Here())| - i
  {
    if i == |pb.cf.neighbors(cur.Here())| {
      ExpandedIsOvertaken(s, s.Line(cur) + {cur});
    } else {
      RelaxingKeepsMidInv(pb, s, cur, i);
      RelaxingKeepsLines(pb, s, cur, i);
      ExpansionKeepsLines(pb, Relaxing(pb, s, cur, pb.cf.neighbors(cur.Here())[i]), cur, i + 1);
    }
  }

  lemma RelaxingKeepsLines(pb: Problem, s: Search, cur: PathNode, i: nat)
    requires MidInv(pb, s, cur, i) && i < |pb.cf.neighbors(cur.Here())| && LineMid(pb, s, cur)
    ensures LineMid(pb, Relaxing(pb, s, cur, pb.cf.neighbors(cur.Here())[i]), cur)
  {
    var m := pb.cf.neighbors(cur.Here())[i];
    if !(pb.Key(m) in s.g && cur.g + m.g >= s.g[pb.Key(m)]) {
      ImproveExpands(pb, s, cur, i);
    }
  }

  /** It pushes nothing that was pushed before, and scores every neighbour. */
  lemma {:induction false} ExpansionKeepsPops(pb: Problem, s: Search, cur: PathNode, i: nat, popped: seq<PathNode>)
    requires MidInv(pb, s, cur, i) && LineMid(pb, s, cur) && PopInv(pb, s, popped) && ScoredInv(pb, s)
    ensures PopInv(pb, Expanding(pb, s, cur, i), popped) && ScoredInv(pb, Expanding(pb, s, cur, i))
    decreases |pb.cf.neighbors(cur.Here())| - i
  {
    if i < |pb.cf.neighbors(cur.Here())| {
      RelaxingKeepsMidInv(pb, s, cur, i);
      RelaxingKeepsLines(pb, s, cur, i);
      RelaxingKeepsPops(pb, s, cur, i, popped);
      ExpansionKeepsPops(pb, Relaxing(pb, s, cur, pb.cf.neighbors(cur.Here())[i]), cur, i + 1, popped);
    }
  }

  lemma RelaxingKeepsPops(pb: Problem, s: Search, cur: PathNode, i: nat, popped: seq<PathNode>)
    requires MidInv(pb, s, cur, i) && i < |pb.cf.neighbors(cur.Here())| && LineMid(pb, s, cur)
    requires PopInv(pb, s, popped) && ScoredInv(pb, s)
    ensures var s' := Relaxing(pb, s, cur, pb.cf.neighbors(cur.Here())[i]); PopInv(pb, s', popped) && ScoredInv(pb, s')
  {
    var m := pb.cf.neighbors(cur.Here())[i];
    if !(pb.Key(m) in s.g && cur.g + m.g >= s.g[pb.Key(m)]) {
      PushIsNew(pb, s, popped, cur, i);
      PushIsScored(pb, s, cur, i);
    }
  }

  lemma {:induction false} ExpansionTouches(pb: Problem, s: Search, cur: PathNode, i: nat, before: set<int>)
    requires i <= |pb.cf.neighbors(cur.Here())| && s.g.Keys == before + NeighborKeys(pb, cur, i)
    ensures Expanding(pb, s, cur, i).g.Keys == before + NeighborKeys(pb, cur, |pb.cf.neighbors(cur.Here())|)
    decreases |pb.cf.neighbors(cur.Here())| - i
  {
    if i < |pb.cf.neighbors(cur.Here())| {
      var m := pb.cf.neighbors(cur.Here())[i];
      NeighborIsTouched(pb, cur, i);
      RelaxingTouches(pb, s, cur, m);
      ExpansionTouches(pb, Relaxing(pb, s, cur, m), cur, i + 1, before);
    }
  }

  lemma RelaxingTouches(pb: Problem, s: Search, cur: PathNode, m: PathNode)
    ensures Relaxing(pb, s, cur, m).g.Keys == s.g.Keys + {pb.Key(m)}
  {
  }

  /** The real collections are those of the search. */
  ghost predicate IsSearch(s: Search, open: multiset<PathNode>, gScores: map<int, int>, cameFrom: map<int, PathNode>) {
    s.open == open && s.g == gScores && s.from == cameFrom
  }

  /** The inner loop: scores, parents and pushes every neighbour that the popped node improves. */
  method Expand(pb: Problem, current: PathNode, open0: multiset<PathNode>, g0: map<int, int>,
                from0: map<int, PathNode>, ghost s: Search)
    returns (open: multiset<PathNode>, gScores: map<int, int>, cameFrom: map<int, PathNode>)
    requires IsSearch(s, open0, g0, from0)
    ensures IsSearch(Expanding(pb, s, current, 0), open, gScores, cameFrom)
  {
    open, gScores, cameFrom := open0, g0, from0;
    ghost var now := s;
    var neighbors := pb.cf.neighbors(current.Here());
    for i := 0 to |neighbors|
      invariant IsSearch(now, open, gScores, cameFrom)
      invariant Expanding(pb, now, current, i) == Expanding(pb, s, current, 0)
    {
      var neighbor := neighbors[i];
      now := Relaxing(pb, now, current, neighbor);
      var tentativeG := current.g + neighbor.g;
      var key := pb.Key(neighbor);
      if key in gScores && tentativeG >= gScores[key] {
        continue;
      }
      gScores := gScores[key := tentativeG];
      var estimate := pb.H(neighbor.x, neighbor.y);
      var pushed := neighbor.(f := tentativeG + estimate, g := tentativeG, parentKey := pb.Key(current));
      cameFrom := cameFrom[key := current];
      open := open + multiset{pushed};
    }
  }

  /**
    The entries a search popped, in order: as many as it took turns, no two the same, each at the
    cost of a route, and none at the goal but the last of a search that found it.
  */
  ghost predicate Popped(pb: Problem, r: PathResult, popped: seq<PathNode>) {
    && |popped| == r.iterations && Distinct(popped)
    && (forall n :: n in popped ==> Realised(pb, n))
    && (forall n :: n in Expanded(r, popped) ==> !pb.AtGoal(n.Here()))
    && (r.found ==> popped != [] && pb.AtGoal(popped[|popped| - 1].Here()) && popped[|popped| - 1].g == r.totalCost)
  }

  /** All that was popped but the goal. */
  function Expanded(r: PathResult, popped: seq<PathNode>): seq<PathNode> {
    if r.found && popped != [] then popped[..|popped| - 1] else popped
  }

  /** The invariants of the search together. */
  ghost predicate Invariants(pb: Problem, s: Search, popped: seq<PathNode>) {
    Inv(pb, s) && LineInv(pb, s) && PopInv(pb, s, popped) && ScoredInv(pb, s)
  }

  /** What was popped before the goal, and what that scored. */
  ghost predicate Visited(pb: Problem, scored: set<int>, popped: seq<PathNode>) {
    && scored == Touched(pb, popped)
    && (forall n :: n in popped ==> Realised(pb, n) && !pb.AtGoal(n.Here()))
  }

  /** What holds at the head of the search's loop. */
  ghost predicate AtHead(pb: Problem, s: Search, popped: seq<PathNode>) {
    Invariants(pb, s, popped) && Visited(pb, s.g.Keys, popped)
  }

  /** What holds before the neighbours of the popped entry are handled. */
  ghost predicate AtPop(pb: Problem, s: Search, popped: seq<PathNode>, cur: PathNode) {
    MidInv(pb, s, cur, 0) && LineMid(pb, s, cur) && PopInv(pb, s, popped) && ScoredInv(pb, s)
  }

  lemma PopTurn(pb: Problem, s: Search, popped: seq<PathNode>, cur: PathNode, open: multiset<PathNode>)
    requires AtHead(pb, s, popped) && IsCheapest(s, cur) && !pb.AtGoal(cur.Here()) && open == s.open - multiset{cur}
    ensures AtPop(pb, s.(open := open), popped + [cur], cur) && Realised(pb, cur)
  {
    PopStartsExpansion(pb, s, cur);
    PopExpands(pb, s, cur);
    PopIsNew(pb, s, popped, cur);
    PopIsScored(pb, s, open);
    assert NodeOk(pb, s, cur);
  }

  lemma ExpansionKeepsInvariants(pb: Problem, s: Search, popped: seq<PathNode>, cur: PathNode)
    requires AtPop(pb, s, popped, cur)
    ensures Invariants(pb, Expanding(pb, s, cur, 0), popped)
  {
    ExpansionKeepsInv(pb, s, cur, 0);
    ExpansionKeepsLines(pb, s, cur, 0);
    ExpansionKeepsPops(pb, s, cur, 0, popped);
  }

  lemma VisitedOneMore(pb: Problem, s: Search, popped: seq<PathNode>, cur: PathNode)
    requires Visited(pb, s.g.Keys, popped) && Realised(pb, cur) && !pb.AtGoal(cur.Here())
    ensures Visited(pb, Expanding(pb, s, cur, 0).g.Keys, popped + [cur])
  {
    ExpansionTouches(pb, s, cur, 0, s.g.Keys);
    TouchedOneMore(pb, popped, cur);
  }

  /** One turn that does not end the search. */
  lemma TurnKeeps(pb: Problem, s: Search, popped: seq<PathNode>, cur: PathNode, open: multiset<PathNode>)
    requires AtHead(pb, s, popped) && IsCheapest(s, cur) && !pb.AtGoal(cur.Here()) && open == s.open - multiset{cur}
    ensures AtHead(pb, Expanding(pb, s.(open := open), cur, 0), popped + [cur])
  {
    PopTurn(pb, s, popped, cur, open);
    ExpansionKeepsInvariants(pb, s.(open := open), popped + [cur], cur);
    VisitedOneMore(pb, s.(open := open), popped, cur);
  }

  /** The rest of such a turn: the neighbours of what was popped are handled. */
  method Proceed(pb: Problem, current: PathNode, open0: multiset<PathNode>, g0: map<int, int>, from0: map<int, PathNode>,
                 ghost s: Search, ghost popped: seq<PathNode>)
    returns (open: multiset<PathNode>, gScores: map<int, int>, cameFrom: map<int, PathNode>, ghost after: Search)
    requires AtHead(pb, s, popped) && IsCheapest(s, current) && !pb.AtGoal(current.Here())
    requires IsSearch(s, s.open, g0, from0) && open0 == s.open - multiset{current}
    ensures IsSearch(after, open, gScores, cameFrom) && AtHead(pb, after, popped + [current])
  {
    TurnKeeps(pb, s, popped, current, open0);
    after := s.(open := open0);
    open, gScores, cameFrom := Expand(pb, current, open0, g0, from0, after);
    after := Expanding(pb, after, current, 0);
  }

  lemma InitialHead(pb: Problem)
    requires pb.WellFormed()
    ensures AtHead(pb, InitialSearch(pb), [])
  {
    InitialInv(pb);
    InitialLineInv(pb);
    InitialPopInv(pb);
    InitialScoredInv(pb);
  }

  /** The last turn: what was popped before, and the goal. */
  lemma GoalTurn(pb: Problem, s: Search, popped: seq<PathNode>, cur: PathNode, r: PathResult)
    requires AtHead(pb, s, popped) && IsCheapest(s, cur) && pb.AtGoal(cur.Here())
    requires r.found && r.iterations == |popped| + 1 && r.totalCost == cur.g && r.tilesExplored == |s.g.Keys|
    ensures Popped(pb, r, popped + [cur]) && Explored(pb, r, popped + [cur])
  {
    PopIsNew(pb, s, popped, cur);
    assert NodeOk(pb, s, cur);
    ScoredAreReachable(pb, s);
    PoppedWithGoal(pb, s.g.Keys, popped, cur, r);
  }

  lemma PoppedWithGoal(pb: Problem, scored: set<int>, popped: seq<PathNode>, cur: PathNode, r: PathResult)
    requires Visited(pb, scored, popped) && Realised(pb, cur) && pb.AtGoal(cur.Here()) && Distinct(popped + [cur])
    requires forall k :: k in scored ==> ReachableKey(pb, k)
    requires r.found && r.iterations == |popped| + 1 && r.totalCost == cur.g && r.tilesExplored == |scored|
    ensures Popped(pb, r, popped + [cur]) && Explored(pb, r, popped + [cur])
  {
    assert (popped + [cur])[..|popped|] == popped;
  }

  /** No route to the goal is cheaper than the estimate's weight allows. */
  ghost predicate WithinWeights(pb: Problem, cost: int) {
    forall w: nat, p, t :: w >= 1 && pb.Weighted(w) && pb.Reaches(p, t) && pb.AtGoal(t) ==> cost <= w * Cost(p)
  }

  /** A found path is a route to the goal, step by step, at exactly its cost, which is within the estimate's weight. */
  ghost predicate IsAnswer(pb: Problem, r: PathResult, route: seq<PathNode>) {
    && pb.Reaches(route, EndOf(pb.start, route)) && pb.AtGoal(EndOf(pb.start, route))
    && Visits(pb, r.path, route) && SameWork(r.path, route) && Cost(route) == r.totalCost
    && WithinWeights(pb, r.totalCost)
  }

  lemma GoalIsBest(pb: Problem, s: Search, popped: seq<PathNode>, cur: PathNode)
    requires AtHead(pb, s, popped) && IsCheapest(s, cur) && pb.AtGoal(cur.Here())
    ensures Inv(pb, s) && LineInv(pb, s) && s.g[pb.Key(cur)] == cur.g && WithinWeights(pb, cur.g)
  {
    GoalPopIsBest(pb, s, cur);
    GoalPopWithinAll(pb, s, cur);
  }

  /** The found branch: rebuild the path and mark its last entry. */
  method Finish(pb: Problem, ghost s: Search, ghost popped: seq<PathNode>, current: PathNode, cameFrom: map<int, PathNode>,
                explored: nat, iterations: nat)
    returns (r: PathResult, ghost route: seq<PathNode>)
    requires AtHead(pb, s, popped) && IsCheapest(s, current) && pb.AtGoal(current.Here()) && cameFrom == s.from
    requires explored == |s.g.Keys| && iterations == |popped| + 1
    ensures r.found && r.iterations == iterations && IsAnswer(pb, r, route)
    ensures Popped(pb, r, popped + [current]) && Explored(pb, r, popped + [current])
  {
    GoalIsBest(pb, s, popped, current);
    TrailIsChain(pb, s, current);
    ghost var trail := Trail(pb, s, current);
    var path := Reconstruct(current, cameFrom, pb.key, trail);
    route := TrailFollowsRoute(pb, s, current, current);
    path := path[|path| - 1 := path[|path| - 1].(action := "end")];
    EntriesVisit(pb, trail, route, path);
    r := PathResult(true, path, current.g, explored, iterations);
    GoalTurn(pb, s, popped, current, r);
  }

  /** A search that ends without the goal: out of entries, or out of turns. */
  lemma GiveUp(pb: Problem, s: Search, popped: seq<PathNode>, r: PathResult, maxIterations: int)
    requires AtHead(pb, s, popped) && (s.open == multiset{} || r.iterations >= maxIterations)
    requires !r.found && r.iterations == |popped| && r.tilesExplored == |s.g.Keys|
    ensures Popped(pb, r, popped) && Explored(pb, r, popped)
    ensures r.iterations < maxIterations ==> Exhausted(pb, popped)
    ensures Enough(pb, maxIterations) ==> r.iterations < maxIterations
  {
    if Enough(pb, maxIterations) {
      EnoughIsEnough(pb, s, popped, maxIterations);
    }
    if s.open == multiset{} {
      EmptyHeapMeansExhausted(pb, s);
    }
    ScoredAreReachable(pb, s);
    PoppedWithoutGoal(pb, s.g.Keys, popped, r);
  }

  lemma PoppedWithoutGoal(pb: Problem, scored: set<int>, popped: seq<PathNode>, r: PathResult)
    requires Visited(pb, scored, popped) && Distinct(popped) && forall k :: k in scored ==> ReachableKey(pb, k)
    requires !r.found && r.iterations == |popped| && r.tilesExplored == |scored|
    ensures Popped(pb, r, popped) && Explored(pb, r, popped)
  {
  }

  /** There is no route to the goal, and every reachable key was scored. */
  ghost predicate Exhausted(pb: Problem, popped: seq<PathNode>) {
    && (forall p, t :: pb.AtGoal(t) ==> !pb.Reaches(p, t))
    && (forall k :: ReachableKey(pb, k) ==> k in Touched(pb, popped))
  }

  /** The keys scored are the start's and those of all neighbours of what was expanded, and they are reachable. */
  ghost predicate Explored(pb: Problem, r: PathResult, popped: seq<PathNode>) {
    && r.tilesExplored == |Touched(pb, Expanded(r, popped))|
    && forall k :: k in Touched(pb, Expanded(r, popped)) ==> ReachableKey(pb, k)
  }

  /**
    Searches from the start to the goal tile. For every well-formed problem, every estimate and
    every way the heap breaks ties: a found path is a route of the graph, step by step, and its
    reported cost is the sum of those steps; that cost is within the estimate's weight of every
    route; and giving up before the limit means that there is no route and that every reachable key
    has been explored. The turns counted are pops of entries that are all different, so that with
    enough of them the search does not give up. The tiles explored are the start and all neighbours
    of what was popped before the goal.
  */
  method FindPath(pb: Problem, maxIterations: int)
    returns (r: PathResult, ghost route: seq<PathNode>, ghost popped: seq<PathNode>)
    requires pb.WellFormed()
    ensures r.found ==> IsAnswer(pb, r, route)
    ensures !r.found && r.iterations < maxIterations ==> Exhausted(pb, popped)
    ensures Popped(pb, r, popped)
    ensures Enough(pb, maxIterations) ==> r.found || r.iterations < maxIterations
    ensures Explored(pb, r, popped)
    ensures !r.found ==> r.path == [] && r.totalCost == 0
    ensures r.iterations <= maxIterations || r.iterations == 0
    ensures r.found ==> r.iterations > 0
  {
    var h := pb.H(pb.start.x, pb.start.y);
    var start := PathNode(h, 0, pb.start.x, pb.start.y, pb.start.direction, -1, "start", map[]);
    var open := multiset{start};
    var cameFrom: map<int, PathNode> := map[];
    var gScores := map[pb.key(pb.start) := 0];
    var iterations := 0;
    route, popped := [], [];
    InitialHead(pb);
    ghost var s := InitialSearch(pb);

    while open != multiset{} && iterations < maxIterations
      invariant 0 <= iterations == |popped| && (iterations <= maxIterations || iterations == 0)
      invariant IsSearch(s, open, gScores, cameFrom) && AtHead(pb, s, popped)
      decreases maxIterations - iterations
    {
      iterations := iterations + 1;
      var current;
      current, open := HeapPop(open);

      if current.x == pb.ex && current.y == pb.ey {
        r, route := Finish(pb, s, popped, current, cameFrom, |gScores|, iterations);
        popped := popped + [current];
        return;
      }

      open, gScores, cameFrom, s := Proceed(pb, current, open, gScores, cameFrom, s, popped);
      popped := popped + [current];
    }

    r := PathResult(false, [], 0, |gScores|, iterations);
    GiveUp(pb, s, popped, r, maxIterations);
  }
}
