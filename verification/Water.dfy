/** Water routes: existing water, coasts, and canals over buildable land. */
module Water {
  import opened Options
  import opened PathGraph
  import opened Itineraries
  import opened StateKeys
  import opened Tiles
  import opened TileCaches
  import opened Astar
  import opened RoutePlanning
  import opened Popping

  const COST_WATER := 50
  const COST_CANAL := 500
  const COST_COAST := 100
  const COST_LOCK := 800

  function Heuristic(x1: int, y1: int, x2: int, y2: int): int {
    (Abs(x1 - x2) + Abs(y1 - y2)) * COST_WATER
  }

  /** The estimate is nothing at the goal, and a step changes it by the price of a plain tile. */
  lemma EstimateIsPerTile(x: int, y: int, ex: int, ey: int, d: int)
    requires 0 <= d < 4
    ensures Heuristic(ex, ey, ex, ey) == 0
    ensures var nx, ny := x + Dx(d), y + Dy(d);
            Heuristic(nx, ny, ex, ey) - Heuristic(x, y, ex, ey)
            == if Manhattan(nx, ny, ex, ey) < Manhattan(x, y, ex, ey) then -50 else 50
  {
  }

  /** The price of moving onto `t` from a tile that may not be loaded, or -1 for an impassable one. */
  function TileCost(from: Option<TileData>, t: TileData): int {
    if t.water then
      if from.Some? && from.value.height != t.height then COST_LOCK else COST_WATER
    else if t.coast then COST_COAST
    else if t.buildable then COST_CANAL
    else -1
  }

  function MoveToward(g: Grid, s: State, d: int): seq<PathNode> {
    match g.Get(s.x + Dx(d), s.y + Dy(d))
    case None => []
    case Some(t) =>
      var cost := TileCost(g.Get(s.x, s.y), t);
      if cost < 0 then []
      else [Step(cost, s.x + Dx(d), s.y + Dy(d), -1, if !t.water && t.buildable then "build_canal" else "move", map[])]
  }

  function Neighbors(g: Grid, s: State): seq<PathNode> {
    MoveToward(g, s, 0) + MoveToward(g, s, 1) + MoveToward(g, s, 2) + MoveToward(g, s, 3)
  }

  class WaterCostFunction {
    const cache: TileCache

    constructor (cache: TileCache)
      ensures this.cache == cache
    {
      this.cache := cache;
    }

    method NeighborsOf(node: PathNode) returns (result: seq<PathNode>)
      requires cache.Valid()
      ensures result == Neighbors(cache.view, node.Here())
    {
      result := [];
      ghost var g, s := cache.view, node.Here();
      for d := 0 to 4
        invariant d == 0 ==> result == []
        invariant d == 1 ==> result == MoveToward(g, s, 0)
        invariant d == 2 ==> result == MoveToward(g, s, 0) + MoveToward(g, s, 1)
        invariant d == 3 ==> result == MoveToward(g, s, 0) + MoveToward(g, s, 1) + MoveToward(g, s, 2)
        invariant d == 4 ==> result == Neighbors(g, s)
      {
        var nx, ny := node.x + Dx(d), node.y + Dy(d);
        var tile := cache.Get(nx, ny);
        if tile == None {
          continue;
        }
        var from := cache.Get(node.x, node.y);
        var cost := TileCost(from, tile.value);
        if cost < 0 {
          continue;
        }
        var action := "move";
        if !tile.value.water && tile.value.buildable {
          action := "build_canal";
        }
        result := result + [Step(cost, nx, ny, -1, action, map[])];
      }
    }
  }

  /** What a price says about the move: nothing else costs the same. */
  lemma PriceTellsTheMove(from: Option<TileData>, t: TileData)
    ensures TileCost(from, t) == 50 <==> t.water && (from.Some? ==> from.value.height == t.height)
    ensures TileCost(from, t) == 800 <==> t.water && from.Some? && from.value.height != t.height
    ensures TileCost(from, t) == 100 <==> !t.water && t.coast
    ensures TileCost(from, t) == 500 <==> !t.water && !t.coast && t.buildable
    ensures TileCost(from, t) < 0 <==> !t.water && !t.coast && !t.buildable
  {
  }

  lemma MovePrice(g: Grid, s: State, d: int, n: PathNode)
    requires 0 <= d < 4 && n in MoveToward(g, s, d)
    ensures g.InMap(n.x, n.y) && g.Get(n.x, n.y).Some? && n.direction == -1
    ensures n.x == s.x + Dx(d) && n.y == s.y + Dy(d) && COST_WATER <= n.g <= COST_LOCK
  {
  }

  lemma StepPrice(g: Grid, s: State, n: PathNode)
    requires n in Neighbors(g, s)
    ensures g.InMap(n.x, n.y) && g.Get(n.x, n.y).Some? && n.direction == -1
    ensures Manhattan(s.x, s.y, n.x, n.y) == 1 && COST_WATER <= n.g <= COST_LOCK
  {
    var d :| 0 <= d < 4 && n in MoveToward(g, s, d);
    MovePrice(g, s, d, n);
  }

  /** A step that a cache shows is there wherever the two tiles are the same. */
  lemma StepCarries(g: Grid, h: Grid, s: State, n: PathNode)
    requires n in Neighbors(g, s) && g.Get(n.x, n.y) == h.Get(n.x, n.y) && g.Get(s.x, s.y) == h.Get(s.x, s.y)
    ensures n in Neighbors(h, s)
  {
    var d :| 0 <= d < 4 && n in MoveToward(g, s, d);
    MoveCarries(g, h, s, d, n);
  }

  lemma MoveCarries(g: Grid, h: Grid, s: State, d: int, n: PathNode)
    requires 0 <= d < 4 && n in MoveToward(g, s, d)
    requires g.Get(n.x, n.y) == h.Get(n.x, n.y) && g.Get(s.x, s.y) == h.Get(s.x, s.y)
    ensures n in MoveToward(h, s, d)
  {
    assert n.x == s.x + Dx(d) && n.y == s.y + Dy(d);
  }

  function ProblemOf(g: Grid, sx: int, sy: int, ex: int, ey: int): Problem {
    Problem(
      CostFunction((x1, y1, x2, y2) => Heuristic(x1, y1, x2, y2), s => Neighbors(g, s)),
      s => StateKey(s), State(sx, sy, -1), ex, ey, UndirectedStates(g, sx, sy))
  }

  /** The water estimate is consistent, so the problem's weight is 1. */
  lemma ProblemIsSound(g: Grid, sx: int, sy: int, ex: int, ey: int)
    requires g.height <= 0x1_0000 && sy < 0x1_0000
    ensures var pb := ProblemOf(g, sx, sy, ex, ey);
            pb.WellFormed() && Cuttable(pb) && pb.Weighted(1)
  {
    var pb := ProblemOf(g, sx, sy, ex, ey);
    forall s, n | s in pb.dom && n in pb.cf.neighbors(s)
      ensures n.g > 0 && n.Here() in pb.dom && pb.H(s.x, s.y) <= 1 * n.g + pb.H(n.x, n.y)
    {
      StepPrice(g, s, n);
    }
    forall s, t | s in pb.dom && t in pb.dom && t != pb.start && pb.key(s) == pb.key(t) ensures s == t {
      DistinctUndirectedKeys(g, sx, sy, s, t);
    }
    UniqueKeyIsCuttable(pb);
  }

  lemma FewMoves(g: Grid, s: State, d: int)
    ensures |MoveToward(g, s, d)| <= 1
  {
  }

  lemma FewNeighbors(g: Grid, s: State)
    ensures |Neighbors(g, s)| <= 4
  {
    FewMoves(g, s, 0);
    FewMoves(g, s, 1);
    FewMoves(g, s, 2);
    FewMoves(g, s, 3);
  }

  lemma StepsAreBoundedAt(g: Grid, pb: Problem, keys: set<int>, s: State)
    requires pb == ProblemOf(g, pb.start.x, pb.start.y, pb.ex, pb.ey) && keys == UndirectedKeys(g, pb.start.x, pb.start.y)
    ensures BoundedAt(pb, keys, 800, s)
  {
    forall n | n in pb.cf.neighbors(s) ensures pb.Key(n) in keys && n.g <= 800 {
      StepPrice(g, s, n);
      UndirectedKeyIn(g, pb.start.x, pb.start.y, n.Here());
    }
  }

  lemma StepsAreBounded(g: Grid, pb: Problem, keys: set<int>)
    requires pb == ProblemOf(g, pb.start.x, pb.start.y, pb.ex, pb.ey) && keys == UndirectedKeys(g, pb.start.x, pb.start.y)
    requires pb.start.direction == -1
    ensures Bounded(pb, keys, 800) && Degree(pb, 4)
  {
    UndirectedKeyIn(g, pb.start.x, pb.start.y, pb.start);
    forall s | s in pb.dom ensures BoundedAt(pb, keys, 800, s) {
      StepsAreBoundedAt(g, pb, keys, s);
    }
    forall s | s in pb.dom ensures |pb.cf.neighbors(s)| <= 4 {
      FewNeighbors(g, s);
    }
  }

  /** One turn for each step of the map decides every water search. */
  lemma EnoughTurns(g: Grid, sx: int, sy: int, ex: int, ey: int, turns: int)
    requires g.height <= 0x1_0000 && sy < 0x1_0000 && turns > 4 * UndirectedLimit(g) + 1
    ensures Enough(ProblemOf(g, sx, sy, ex, ey), turns)
  {
    var pb, keys := ProblemOf(g, sx, sy, ex, ey), UndirectedKeys(g, sx, sy);
    StepsAreBounded(g, pb, keys);
    ProblemIsSound(g, sx, sy, ex, ey);
    UndirectedKeysCount(g, sx, sy);
    IsEnough(pb, keys, 800, 4, UndirectedLimit(g), true, turns);
  }

  /** Ground for a ship: water, coast, or land for a canal, which is dug where there is free land and no water. */
  const WATERWAYS := Ground((t: TileData) => t.water || t.coast || t.buildable,
                            (t: TileData) => if t.buildable && !t.water then "build_canal" else "move")

  /** A tile next to one can be entered exactly when it is loaded and a waterway. */
  lemma StepsOntoIff(g: Grid, s: State, d: int)
    requires 0 <= d < 4
    ensures var ahead := g.Get(s.x + Dx(d), s.y + Dy(d));
            (exists n :: n in Neighbors(g, s) && n.x == s.x + Dx(d) && n.y == s.y + Dy(d))
            <==> ahead.Some? && WATERWAYS.free(ahead.value)
  {
    var x, y := s.x + Dx(d), s.y + Dy(d);
    if n :| n in Neighbors(g, s) && n.x == x && n.y == y {
      OntoIsFree(g, s, x, y, n);
    }
    if g.Get(x, y).Some? && WATERWAYS.free(g.Get(x, y).value) {
      OntoIsMove(g, s, d, g.Get(x, y).value);
    }
  }

  lemma OntoIsMove(g: Grid, s: State, d: int, t: TileData)
    requires 0 <= d < 4 && g.Get(s.x + Dx(d), s.y + Dy(d)) == Some(t) && WATERWAYS.free(t)
    ensures exists n :: n in Neighbors(g, s) && n.x == s.x + Dx(d) && n.y == s.y + Dy(d)
  {
    var n := MoveToward(g, s, d)[0];
    assert n in MoveToward(g, s, d);
    assert n in Neighbors(g, s);
  }

  lemma OntoIsFree(g: Grid, s: State, x: int, y: int, n: PathNode)
    requires n in Neighbors(g, s) && n.x == x && n.y == y && Manhattan(s.x, s.y, x, y) == 1
    ensures g.Get(x, y).Some? && WATERWAYS.free(g.Get(x, y).value)
  {
    StepTells(g, s, n);
  }

  lemma StepTells(g: Grid, s: State, n: PathNode)
    requires n in Neighbors(g, s)
    ensures StepIsTold(g, WATERWAYS, s, n) && Manhattan(s.x, s.y, n.x, n.y) == 1
  {
    var d :| 0 <= d < 4 && n in MoveToward(g, s, d);
    MoveTells(g, s, d, n);
  }

  lemma MoveTells(g: Grid, s: State, d: int, n: PathNode)
    requires 0 <= d < 4 && n in MoveToward(g, s, d)
    ensures StepIsTold(g, WATERWAYS, s, n) && Manhattan(s.x, s.y, n.x, n.y) == 1
  {
  }

  lemma WaterPathIsTold(g: Grid, pb: Problem, path: seq<PathStep>, route: seq<PathNode>)
    requires pb == ProblemOf(g, pb.start.x, pb.start.y, pb.ex, pb.ey) && pb.WellFormed()
    requires IsRoute(pb.cf, pb.start, route) && Visits(pb, path, route) && SameWork(path, route)
    ensures PathIsTold(g, WATERWAYS, path)
  {
    forall s, n | s in pb.dom && n in pb.cf.neighbors(s) ensures StepIsTold(g, WATERWAYS, s, n) {
      StepTells(g, s, n);
    }
    RouteIsTold(g, WATERWAYS, pb, path, route);
  }

  /**
    A water route, when found, is a cheapest route of the neighbour graph, its reported cost is the
    sum of its steps, and its entries carry those steps' actions.
  */
  method PlanWater(g: Grid, sx: int, sy: int, ex: int, ey: int, maxIterations: int)
    returns (r: PathResult, ghost route: seq<PathNode>)
    requires g.height <= 0x1_0000 && sy < 0x1_0000
    ensures var pb := ProblemOf(g, sx, sy, ex, ey);
      r.found ==> RouteTo(pb, route) && Visits(pb, r.path, route) && SameWork(r.path, route) && Cost(route) == r.totalCost
    ensures r.found ==> PathIsTold(g, WATERWAYS, r.path)
    ensures r.found ==> WithinOfAll(ProblemOf(g, sx, sy, ex, ey), r.totalCost, 1)
    ensures !r.found && r.iterations < maxIterations ==> forall p :: !RouteTo(ProblemOf(g, sx, sy, ex, ey), p)
    ensures Enough(ProblemOf(g, sx, sy, ex, ey), maxIterations) ==> r.found || r.iterations < maxIterations
  {
    var pb := ProblemOf(g, sx, sy, ex, ey);
    ProblemIsSound(g, sx, sy, ex, ey);
    r, route := FindRoute(pb, maxIterations);
    if r.found {
      WaterPathIsTold(g, pb, r.path, route);
    }
  }
}
