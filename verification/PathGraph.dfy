/**
  The graph that a route search walks: states, the nodes a cost function hands out as
  neighbours, state keys, and routes with their costs.
*/
module PathGraph {
  /** A search state. `direction` is the heading the tile was entered with, or -1 for none. */
  datatype State = State(x: int, y: int, direction: int)

  /** A heap entry. Coming from a cost function, `g` is the price of the one step into it. */
  datatype PathNode = PathNode(f: int, g: int, x: int, y: int, direction: int, parentKey: int,
                               action: string, meta: map<string, int>) {
    function Here(): State {
      State(x, y, direction)
    }
  }

  /** The node a cost function returns for a step: no estimate and no parent yet. */
  function Step(cost: int, x: int, y: int, direction: int, action: string, meta: map<string, int>): PathNode {
    PathNode(0, cost, x, y, direction, -1, action, meta)
  }

  datatype CostFunction = CostFunction(heuristic: (int, int, int, int) -> int,
                                       neighbors: State -> seq<PathNode>)

  /** `p` is a walk in the neighbour graph starting from `s`. */
  ghost predicate IsRoute(cf: CostFunction, s: State, p: seq<PathNode>)
    decreases |p|
  {
    p == [] || (p[0] in cf.neighbors(s) && IsRoute(cf, p[0].Here(), p[1..]))
  }

  ghost function EndOf(s: State, p: seq<PathNode>): State
    decreases |p|
  {
    if p == [] then s else EndOf(p[0].Here(), p[1..])
  }

  ghost function Cost(p: seq<PathNode>): int {
    if p == [] then 0 else p[0].g + Cost(p[1..])
  }

  /** A search instance: cost function, state keys, start, goal, and a set of states to reason in. */
  datatype Problem = Problem(cf: CostFunction, key: State -> int, start: State, ex: int, ey: int,
                             ghost dom: iset<State>) {
    function Key(n: PathNode): int {
      key(n.Here())
    }

    function H(x: int, y: int): int {
      cf.heuristic(x, y, ex, ey)
    }

    predicate AtGoal(s: State) {
      s.x == ex && s.y == ey
    }

    /** Steps cost something and stay in the domain; away from the start, keys identify states. */
    ghost predicate WellFormed() {
      && start in dom
      && (forall s, n :: s in dom && n in cf.neighbors(s) ==> n.g > 0 && n.Here() in dom)
      && (forall s, t :: s in dom && t in dom && s != start && t != start && key(s) == key(t) ==> s == t)
    }

    /** `p` never enters a state carrying the start's key. */
    ghost predicate Avoids(p: seq<PathNode>) {
      forall i :: 0 <= i < |p| ==> Key(p[i]) != key(start)
    }

    /**
      A route from the start to `t` that never enters a state carrying the start's own key.
      The start is scored 0, so the search can never improve such a state.
    */
    ghost predicate Reaches(p: seq<PathNode>, t: State) {
      IsRoute(cf, start, p) && Avoids(p) && EndOf(start, p) == t
    }

    /** The estimate falls by at most `w` times the price of any step, to zero at the goal. */
    ghost predicate Weighted(w: nat) {
      && H(ex, ey) == 0
      && (forall s, n :: s in dom && n in cf.neighbors(s) ==> H(s.x, s.y) <= w * n.g + H(n.x, n.y))
    }
  }

  lemma {:induction false} RouteAppend(cf: CostFunction, s: State, p: seq<PathNode>, m: PathNode)
    requires IsRoute(cf, s, p) && m in cf.neighbors(EndOf(s, p))
    ensures IsRoute(cf, s, p + [m])
    ensures EndOf(s, p + [m]) == m.Here()
    ensures Cost(p + [m]) == Cost(p) + m.g
    decreases |p|
  {
    if p == [] {
      assert (p + [m])[1..] == [];
    } else {
      RouteAppend(cf, p[0].Here(), p[1..], m);
      assert (p + [m])[1..] == p[1..] + [m];
    }
  }

  /** A route through states of one kind is a route wherever steps between such states are the same. */
  lemma {:induction false} RouteCarries(cf: CostFunction, other: CostFunction, kind: iset<State>, s: State, p: seq<PathNode>)
    requires forall u: State, n: PathNode :: u in kind && n.Here() in kind && n in cf.neighbors(u) ==> n in other.neighbors(u)
    requires IsRoute(cf, s, p) && s in kind && forall i :: 0 <= i < |p| ==> p[i].Here() in kind
    ensures IsRoute(other, s, p)
    decreases |p|
  {
    if p != [] {
      assert p[0].Here() in kind;
      RouteCarries(cf, other, kind, p[0].Here(), p[1..]);
    }
  }

  lemma {:induction false} RouteEnters(cf: CostFunction, kind: iset<State>, s: State, p: seq<PathNode>)
    requires forall u: State, n: PathNode :: n in cf.neighbors(u) ==> n.Here() in kind
    requires IsRoute(cf, s, p)
    ensures forall i :: 0 <= i < |p| ==> p[i].Here() in kind
    decreases |p|
  {
    if p != [] {
      RouteEnters(cf, kind, p[0].Here(), p[1..]);
      assert p == [p[0]] + p[1..];
    }
  }

  lemma {:induction false} RouteSplit(cf: CostFunction, s: State, p: seq<PathNode>, j: nat)
    requires IsRoute(cf, s, p) && j <= |p|
    ensures IsRoute(cf, s, p[..j]) && IsRoute(cf, EndOf(s, p[..j]), p[j..])
    ensures EndOf(EndOf(s, p[..j]), p[j..]) == EndOf(s, p)
    ensures j > 0 ==> EndOf(s, p[..j]) == p[j - 1].Here()
    ensures Cost(p) == Cost(p[..j]) + Cost(p[j..])
    decreases |p|
  {
    if j > 0 {
      RouteSplit(cf, p[0].Here(), p[1..], j - 1);
      assert p[..j][1..] == p[1..][..j - 1];
      assert p[1..][j - 1..] == p[j..];
    } else {
      assert p[..j] == [] && p[j..] == p;
    }
  }

  /** The state from which the `i`th step of a route is taken. */
  ghost function Before(s: State, p: seq<PathNode>, i: nat): State
    requires i < |p|
  {
    if i == 0 then s else p[i - 1].Here()
  }

  lemma {:induction false} StepAt(cf: CostFunction, s: State, p: seq<PathNode>, i: nat)
    requires IsRoute(cf, s, p) && i < |p|
    ensures p[i] in cf.neighbors(Before(s, p, i))
    decreases |p|
  {
    if i > 0 {
      StepAt(cf, p[0].Here(), p[1..], i - 1);
    }
  }

  /** Steps from inside a well-formed domain stay inside it, and costs are non-negative. */
  lemma {:induction false} RouteStays(pb: Problem, s: State, p: seq<PathNode>)
    requires pb.WellFormed() && s in pb.dom && IsRoute(pb.cf, s, p)
    ensures EndOf(s, p) in pb.dom && Cost(p) >= |p|
    decreases |p|
  {
    if p != [] {
      RouteStays(pb, p[0].Here(), p[1..]);
    }
  }
}
