/** Road routes: four-way movement over buildable tiles, with bridges and tunnels over the rest. */
module Road {
  import opened Options
  import opened PathGraph
  import opened Itineraries
  import opened StateKeys
  import opened Tiles
  import opened TileCaches
  import opened Crossings
  import opened Astar
  import opened RoutePlanning
  import opened Popping

  const COST_FLAT := 100
  const COST_SLOPE := 200
  const COST_DEMOLISH := 500
  const COST_CROSSING := 300
  const MAX_BRIDGE_LENGTH := 10
  const MAX_TUNNEL_LENGTH := 20

  datatype Rules = Rules(avoidDemolish: bool, companyId: int)

  function Heuristic(x1: int, y1: int, x2: int, y2: int): int {
    (Abs(x1 - x2) + Abs(y1 - y2)) * COST_FLAT
  }

  /** The estimate is nothing at the goal, and a step changes it by the price of a plain tile. */
  lemma EstimateIsPerTile(x: int, y: int, ex: int, ey: int, d: int)
    requires 0 <= d < 4
    ensures Heuristic(ex, ey, ex, ey) == 0
    ensures var nx, ny := x + Dx(d), y + Dy(d);
            Heuristic(nx, ny, ex, ey) - Heuristic(x, y, ex, ey)
            == if Manhattan(nx, ny, ex, ey) < Manhattan(x, y, ex, ey) then -100 else 100
  {
  }

  /** The price of building onto or using a tile, or -1 for an impassable one. */
  function TileCost(rules: Rules, t: TileData): int {
    if t.isStation || (t.water && !t.coast) then -1
    else
      var cost := COST_FLAT + (if t.slope != 0 then COST_SLOPE else 0);
      if t.hasRoad then
        if t.owner >= 0 && t.owner != rules.companyId then -1 else cost / 2
      else
        var crossing := cost + (if t.hasRail then COST_CROSSING else 0);
        if t.buildable then crossing
        else if rules.avoidDemolish then -1
        else crossing + COST_DEMOLISH
  }

  /** The neighbours in one heading: the next tile, or crossings over it when it is impassable. */
  function MovesToward(g: Grid, rules: Rules, s: State, d: int): seq<PathNode> {
    match g.Get(s.x + Dx(d), s.y + Dy(d))
    case None => []
    case Some(t) =>
      var cost := TileCost(rules, t);
      if cost >= 0 then
        [Step(cost, s.x + Dx(d), s.y + Dy(d), -1, if t.hasRoad then "move" else "build_road", map[])]
      else
        AsSeq(Bridge(g, RoadNetwork, s.x, s.y, d, MAX_BRIDGE_LENGTH))
        + AsSeq(Tunnel(g, RoadNetwork, s.x, s.y, d, MAX_TUNNEL_LENGTH))
  }

  function Neighbors(g: Grid, rules: Rules, s: State): seq<PathNode> {
    MovesToward(g, rules, s, 0) + MovesToward(g, rules, s, 1) + MovesToward(g, rules, s, 2) + MovesToward(g, rules, s, 3)
  }

  class RoadCostFunction {
    const cache: TileCache
    const rules: Rules

    constructor (cache: TileCache, avoidDemolish: bool, companyId: int)
      ensures this.cache == cache && rules == Rules(avoidDemolish, companyId)
    {
      this.cache := cache;
      this.rules := Rules(avoidDemolish, companyId);
    }

    method TileCostOf(t: TileData) returns (cost: int)
      ensures cost == TileCost(rules, t)
    {
      if t.isStation || (t.water && !t.coast) {
        return -1;
      }
      cost := COST_FLAT;
      if t.slope != 0 {
        cost := cost + COST_SLOPE;
      }
      if t.hasRoad {
        if t.owner >= 0 && t.owner != rules.companyId {
          return -1;
        }
        return cost / 2;
      }
      if t.hasRail {
        cost := cost + COST_CROSSING;
      }
      if !t.buildable && !t.hasRoad {
        if rules.avoidDemolish {
          return -1;
        }
        cost := cost + COST_DEMOLISH;
      }
    }

    method NeighborsOf(node: PathNode) returns (result: seq<PathNode>)
      requires cache.Valid()
      ensures result == Neighbors(cache.view, rules, node.Here())
    {
      result := [];
      ghost var s := node.Here();
      for d := 0 to 4
        invariant d == 0 ==> result == []
        invariant d == 1 ==> result == MovesToward(cache.view, rules, s, 0)
        invariant d == 2 ==> result == MovesToward(cache.view, rules, s, 0) + MovesToward(cache.view, rules, s, 1)
        invariant d == 3 ==> result == MovesToward(cache.view, rules, s, 0) + MovesToward(cache.view, rules, s, 1)
                                       + MovesToward(cache.view, rules, s, 2)
        invariant d == 4 ==> result == Neighbors(cache.view, rules, s)
      {
        var found := NeighborsToward(node, d);
        result := result + found;
      }
    }

    method NeighborsToward(node: PathNode, d: int) returns (result: seq<PathNode>)
      requires cache.Valid()
      ensures result == MovesToward(cache.view, rules, node.Here(), d)
    {
      result := [];
      var nx, ny := node.x + Dx(d), node.y + Dy(d);
      var tile := cache.Get(nx, ny);
      if tile == None {
        return;
      }
      var cost := TileCostOf(tile.value);
      if cost >= 0 {
        result := [Step(cost, nx, ny, -1, if tile.value.hasRoad then "move" else "build_road", map[])];
      } else {
        var bridge := TryBridge(cache, RoadNetwork, node.x, node.y, d, MAX_BRIDGE_LENGTH);
        var tunnel := TryTunnel(cache, RoadNetwork, node.x, node.y, d, MAX_TUNNEL_LENGTH);
        result := AsSeq(bridge) + AsSeq(tunnel);
      }
    }
  }

  // ---------------------------------------------------------------- every step is priced by its length

  /** Ground for a road: no station, no open water, no road of another company, and where there is no
      road yet either free ground or leave to demolish. */
  predicate IsFree(rules: Rules, t: TileData) {
    && !t.isStation && (t.water ==> t.coast)
    && if t.hasRoad then t.owner < 0 || t.owner == rules.companyId else t.buildable || !rules.avoidDemolish
  }

  function Work(t: TileData): string {
    if t.hasRoad then "move" else "build_road"
  }

  /** Building a road: 100, a slope 200, a level crossing 300, demolition 500. */
  function BuildingPrice(t: TileData): int {
    100 + (if t.slope == 0 then 0 else 200) + (if t.hasRail then 300 else 0) + (if t.buildable then 0 else 500)
  }

  /** An existing road costs half of building it on the same ground cleared. */
  function Price(t: TileData): int {
    if t.hasRoad then BuildingPrice(t.(hasRail := false, buildable := true)) / 2 else BuildingPrice(t)
  }

  lemma FreeIsPriced(rules: Rules, t: TileData)
    ensures TileCost(rules, t) >= 0 <==> IsFree(rules, t)
    ensures IsFree(rules, t) ==> TileCost(rules, t) == Price(t)
  {
  }

  function GroundOf(rules: Rules): Ground {
    Ground(t => IsFree(rules, t), t => Work(t))
  }

  /** A tile next to one can be stepped on exactly when it is loaded and free. */
  lemma StepsOntoIff(g: Grid, rules: Rules, s: State, d: int)
    requires 0 <= d < 4
    ensures var ahead := g.Get(s.x + Dx(d), s.y + Dy(d));
            StepsOnto(g, rules, s, s.x + Dx(d), s.y + Dy(d)) <==> ahead.Some? && IsFree(rules, ahead.value)
  {
    var x, y := s.x + Dx(d), s.y + Dy(d);
    if StepsOnto(g, rules, s, x, y) {
      var n :| n in Neighbors(g, rules, s) && n.x == x && n.y == y;
      OntoIsFree(g, rules, s, x, y, n);
    }
    if g.Get(x, y).Some? && IsFree(rules, g.Get(x, y).value) {
      FreeIsPriced(rules, g.Get(x, y).value);
      OntoIsMove(g, rules, s, d, g.Get(x, y).value);
    }
  }

  ghost predicate StepsOnto(g: Grid, rules: Rules, s: State, x: int, y: int) {
    exists n :: n in Neighbors(g, rules, s) && n.x == x && n.y == y
  }

  lemma OntoIsFree(g: Grid, rules: Rules, s: State, x: int, y: int, n: PathNode)
    requires n in Neighbors(g, rules, s) && n.x == x && n.y == y && Manhattan(s.x, s.y, x, y) == 1
    ensures g.Get(x, y).Some? && IsFree(rules, g.Get(x, y).value)
  {
    StepTells(g, rules, s, n);
  }

  lemma OntoIsMove(g: Grid, rules: Rules, s: State, d: int, t: TileData)
    requires 0 <= d < 4 && g.Get(s.x + Dx(d), s.y + Dy(d)) == Some(t) && TileCost(rules, t) >= 0
    ensures StepsOnto(g, rules, s, s.x + Dx(d), s.y + Dy(d))
  {
    var n := Step(TileCost(rules, t), s.x + Dx(d), s.y + Dy(d), -1, if t.hasRoad then "move" else "build_road", map[]);
    KindsMove(g, rules, s, d, n, t);
  }

  /** A step of one tile goes onto free ground at its price, any other is a crossing. */
  lemma StepTells(g: Grid, rules: Rules, s: State, n: PathNode)
    requires n in Neighbors(g, rules, s)
    ensures StepIsTold(g, GroundOf(rules), s, n)
    ensures Manhattan(s.x, s.y, n.x, n.y) == 1 ==> n.g == Price(g.Get(n.x, n.y).value)
  {
    var d :| 0 <= d < 4 && n in MovesToward(g, rules, s, d);
    var t := MoveKinds(g, rules, s, d, n);
    MoveTells(g, rules, s, d, n, t);
  }

  lemma MoveTells(g: Grid, rules: Rules, s: State, d: int, n: PathNode, t: TileData)
    requires 0 <= d < 4 && IsMove(g, rules, s, d, n, t)
    ensures StepIsTold(g, GroundOf(rules), s, n)
    ensures Manhattan(s.x, s.y, n.x, n.y) == 1 ==> n.g == Price(g.Get(n.x, n.y).value)
  {
    FreeIsPriced(rules, t);
    if TileCost(rules, t) < 0 {
      CrossingTells(g, RoadNetwork, s.x, s.y, d, MAX_BRIDGE_LENGTH, MAX_TUNNEL_LENGTH, n);
    }
  }

  /** Using a road that is there costs half of building one on open ground. */
  lemma RoadIsHalfPrice(rules: Rules, t: TileData, onRails: bool, buildable: bool)
    requires IsOpenGround(t)
    ensures 2 * TileCost(rules, t.(hasRoad := true, owner := rules.companyId, hasRail := onRails, buildable := buildable))
            == TileCost(rules, t)
  {
  }

  /** A passable tile costs at least 50, as existing road is half price, and at most 1100. */
  lemma TileCostAtLeast(rules: Rules, t: TileData)
    ensures TileCost(rules, t) == -1 || 50 <= TileCost(rules, t) <= 1100
  {
  }

  /** No loaded tile has a road yet, so nothing is half price. */
  ghost predicate Roadless(g: Grid) {
    forall x, y :: g.Get(x, y).Some? ==> !g.Get(x, y).value.hasRoad
  }

  /** The two kinds of step in one heading: onto a passable tile, or over an impassable one. */
  predicate IsMove(g: Grid, rules: Rules, s: State, d: int, n: PathNode, t: TileData) {
    && g.Get(s.x + Dx(d), s.y + Dy(d)) == Some(t)
    && if TileCost(rules, t) >= 0 then
         n == Step(TileCost(rules, t), s.x + Dx(d), s.y + Dy(d), -1, if t.hasRoad then "move" else "build_road", map[])
       else
         || Bridge(g, RoadNetwork, s.x, s.y, d, MAX_BRIDGE_LENGTH) == Some(n)
         || Tunnel(g, RoadNetwork, s.x, s.y, d, MAX_TUNNEL_LENGTH) == Some(n)
  }

  lemma MoveKinds(g: Grid, rules: Rules, s: State, d: int, n: PathNode) returns (t: TileData)
    requires n in MovesToward(g, rules, s, d)
    ensures IsMove(g, rules, s, d, n, t)
  {
    t := g.Get(s.x + Dx(d), s.y + Dy(d)).value;
  }

  lemma MovePrice(g: Grid, rules: Rules, s: State, d: int, n: PathNode, t: TileData)
    requires 0 <= d < 4 && IsMove(g, rules, s, d, n, t)
    ensures g.InMap(n.x, n.y) && g.Get(n.x, n.y).Some? && n.direction == -1
    ensures 3000 >= n.g >= (if Roadless(g) then 100 else 50) * Manhattan(s.x, s.y, n.x, n.y) > 0
  {
    if TileCost(rules, t) < 0 {
      var length := CrossingSpans(g, RoadNetwork, s.x, s.y, d, MAX_BRIDGE_LENGTH, MAX_TUNNEL_LENGTH, n);
      SpanLength(g, RoadNetwork, s.x, s.y, d, MAX_TUNNEL_LENGTH, n, length);
    } else {
      TileCostAtLeast(rules, t);
    }
  }

  /**
    Every edge lands on a loaded tile of the map and costs at least 50 per tile of its length, or
    100 where there is no road yet.
  */
  lemma StepPrice(g: Grid, rules: Rules, s: State, n: PathNode)
    requires n in Neighbors(g, rules, s)
    ensures g.InMap(n.x, n.y) && g.Get(n.x, n.y).Some? && n.direction == -1
    ensures 3000 >= n.g >= (if Roadless(g) then 100 else 50) * Manhattan(s.x, s.y, n.x, n.y) > 0
  {
    var d :| 0 <= d < 4 && n in MovesToward(g, rules, s, d);
    var t := MoveKinds(g, rules, s, d, n);
    MovePrice(g, rules, s, d, n, t);
  }

  lemma KindsMove(g: Grid, rules: Rules, s: State, d: int, n: PathNode, t: TileData)
    requires 0 <= d < 4 && IsMove(g, rules, s, d, n, t)
    ensures n in Neighbors(g, rules, s)
  {
    assert n in MovesToward(g, rules, s, d);
  }

  lemma OverCarries(g: Grid, h: Grid, rules: Rules, s: State, d: int, n: PathNode, t: TileData)
    requires 0 <= d < 4 && IsMove(g, rules, s, d, n, t) && SameBetween(g, h, s.x, s.y, n.x, n.y)
    requires TileCost(rules, t) < 0
    ensures IsMove(h, rules, s, d, n, t)
  {
    CrossingCarries(g, h, RoadNetwork, s.x, s.y, d, MAX_BRIDGE_LENGTH, MAX_TUNNEL_LENGTH, n);
    assert h.Get(s.x + Dx(d), s.y + Dy(d)) == Some(t);
  }

  lemma OntoCarries(g: Grid, h: Grid, rules: Rules, s: State, d: int, n: PathNode, t: TileData)
    requires 0 <= d < 4 && IsMove(g, rules, s, d, n, t) && SameBetween(g, h, s.x, s.y, n.x, n.y)
    requires TileCost(rules, t) >= 0
    ensures IsMove(h, rules, s, d, n, t)
  {
    SameNext(g, h, s.x, s.y, n.x, n.y);
  }

  lemma MoveCarries(g: Grid, h: Grid, rules: Rules, s: State, d: int, n: PathNode, t: TileData)
    requires 0 <= d < 4 && IsMove(g, rules, s, d, n, t) && SameBetween(g, h, s.x, s.y, n.x, n.y)
    ensures IsMove(h, rules, s, d, n, t)
  {
    if TileCost(rules, t) < 0 {
      OverCarries(g, h, rules, s, d, n, t);
    } else {
      OntoCarries(g, h, rules, s, d, n, t);
    }
  }

  /** A step that a cache shows is there wherever the tiles between its ends are the same. */
  lemma StepCarries(g: Grid, h: Grid, rules: Rules, s: State, n: PathNode)
    requires n in Neighbors(g, rules, s) && SameBetween(g, h, s.x, s.y, n.x, n.y)
    ensures n in Neighbors(h, rules, s)
  {
    var d :| 0 <= d < 4 && n in MovesToward(g, rules, s, d);
    var t := MoveKinds(g, rules, s, d, n);
    MoveCarries(g, h, rules, s, d, n, t);
    KindsMove(h, rules, s, d, n, t);
  }

  // ---------------------------------------------------------------- the road problem

  function ProblemOf(g: Grid, rules: Rules, sx: int, sy: int, ex: int, ey: int): Problem {
    Problem(
      CostFunction((x1, y1, x2, y2) => Heuristic(x1, y1, x2, y2), s => Neighbors(g, rules, s)),
      s => StateKey(s), State(sx, sy, -1), ex, ey, UndirectedStates(g, sx, sy))
  }

  lemma ProblemIsSound(g: Grid, rules: Rules, sx: int, sy: int, ex: int, ey: int)
    requires g.height <= 0x1_0000 && sy < 0x1_0000
    ensures var pb := ProblemOf(g, rules, sx, sy, ex, ey);
            pb.WellFormed() && Cuttable(pb) && pb.Weighted(if Roadless(g) then 1 else 2)
  {
    var pb := ProblemOf(g, rules, sx, sy, ex, ey);
    forall s, n | s in pb.dom && n in pb.cf.neighbors(s)
      ensures n.g > 0 && n.Here() in pb.dom
      ensures pb.H(s.x, s.y) <= (if Roadless(g) then 1 else 2) * n.g + pb.H(n.x, n.y)
    {
      StepPrice(g, rules, s, n);
    }
    forall s, t | s in pb.dom && t in pb.dom && t != pb.start && pb.key(s) == pb.key(t) ensures s == t {
      DistinctUndirectedKeys(g, sx, sy, s, t);
    }
    UniqueKeyIsCuttable(pb);
  }

  /** At most two steps lead on in each heading. */
  lemma FewMoves(g: Grid, rules: Rules, s: State, d: int)
    ensures |MovesToward(g, rules, s, d)| <= 2
  {
  }

  lemma FewNeighbors(g: Grid, rules: Rules, s: State)
    ensures |Neighbors(g, rules, s)| <= 8
  {
    FewMoves(g, rules, s, 0);
    FewMoves(g, rules, s, 1);
    FewMoves(g, rules, s, 2);
    FewMoves(g, rules, s, 3);
  }

  /**
    So many turns decide every road search: with a consistent estimate one for each step of the
    map, otherwise one for each price a tile can be reached at.
  */
  lemma EnoughTurns(g: Grid, rules: Rules, sx: int, sy: int, ex: int, ey: int, turns: int)
    requires g.height <= 0x1_0000 && sy < 0x1_0000
    requires turns > TurnBound(UndirectedLimit(g), 3000) || (Roadless(g) && turns > 8 * UndirectedLimit(g) + 1)
    ensures Enough(ProblemOf(g, rules, sx, sy, ex, ey), turns)
  {
    var pb, keys := ProblemOf(g, rules, sx, sy, ex, ey), UndirectedKeys(g, sx, sy);
    StepsAreBounded(g, rules, pb, keys);
    DegreeIsEight(g, rules, sx, sy, ex, ey);
    ConsistentIf(g, rules, sx, sy, ex, ey);
    UndirectedKeysCount(g, sx, sy);
    KeysAreEnough(g, pb, keys, UndirectedLimit(g), turns);
  }

  lemma ConsistentIf(g: Grid, rules: Rules, sx: int, sy: int, ex: int, ey: int)
    requires g.height <= 0x1_0000 && sy < 0x1_0000
    ensures Roadless(g) ==> Consistent(ProblemOf(g, rules, sx, sy, ex, ey))
  {
    ProblemIsSound(g, rules, sx, sy, ex, ey);
  }

  lemma KeysAreEnough(g: Grid, pb: Problem, keys: set<int>, n: nat, turns: int)
    requires Bounded(pb, keys, 3000) && Degree(pb, 8) && |keys| <= n && (Roadless(g) ==> Consistent(pb))
    requires turns > TurnBound(n, 3000) || (Roadless(g) && turns > 8 * n + 1)
    ensures Enough(pb, turns)
  {
    IsEnough(pb, keys, 3000, 8, n, Roadless(g), turns);
  }

  lemma StepIsBounded(g: Grid, rules: Rules, sx: int, sy: int, s: State, n: PathNode)
    requires n in Neighbors(g, rules, s)
    ensures StateKey(n.Here()) in UndirectedKeys(g, sx, sy) && n.g <= 3000
  {
    StepPrice(g, rules, s, n);
    UndirectedKeyIn(g, sx, sy, n.Here());
  }

  lemma StepsAreBoundedAt(g: Grid, rules: Rules, pb: Problem, keys: set<int>, s: State)
    requires pb == ProblemOf(g, rules, pb.start.x, pb.start.y, pb.ex, pb.ey) && keys == UndirectedKeys(g, pb.start.x, pb.start.y)
    ensures BoundedAt(pb, keys, 3000, s)
  {
    forall n | n in pb.cf.neighbors(s) ensures pb.Key(n) in keys && n.g <= 3000 {
      StepIsBounded(g, rules, pb.start.x, pb.start.y, s, n);
    }
  }

  lemma StepsAreBounded(g: Grid, rules: Rules, pb: Problem, keys: set<int>)
    requires pb == ProblemOf(g, rules, pb.start.x, pb.start.y, pb.ex, pb.ey) && keys == UndirectedKeys(g, pb.start.x, pb.start.y)
    requires pb.start.direction == -1
    ensures Bounded(pb, keys, 3000)
  {
    UndirectedKeyIn(g, pb.start.x, pb.start.y, pb.start);
    forall s | s in pb.dom ensures BoundedAt(pb, keys, 3000, s) {
      StepsAreBoundedAt(g, rules, pb, keys, s);
    }
  }

  lemma DegreeIsEight(g: Grid, rules: Rules, sx: int, sy: int, ex: int, ey: int)
    ensures Degree(ProblemOf(g, rules, sx, sy, ex, ey), 8)
  {
    var pb := ProblemOf(g, rules, sx, sy, ex, ey);
    forall s | s in pb.dom ensures |pb.cf.neighbors(s)| <= 8 {
      FewNeighbors(g, rules, s);
    }
  }

  lemma RoadPathIsTold(g: Grid, rules: Rules, pb: Problem, path: seq<PathStep>, route: seq<PathNode>)
    requires pb == ProblemOf(g, rules, pb.start.x, pb.start.y, pb.ex, pb.ey) && pb.WellFormed()
    requires IsRoute(pb.cf, pb.start, route) && Visits(pb, path, route) && SameWork(path, route)
    ensures PathIsTold(g, GroundOf(rules), path)
  {
    forall s, n | s in pb.dom && n in pb.cf.neighbors(s) ensures StepIsTold(g, GroundOf(rules), s, n) {
      StepTells(g, rules, s, n);
    }
    RouteIsTold(g, GroundOf(rules), pb, path, route);
  }

  /**
    A road route, when found, is a route of the neighbour graph reported step by step, and its cost
    is at most twice the cost of every route, or the least where there is no road yet. Giving up
    before the limit means that there is no route.
  */
  method PlanRoad(g: Grid, rules: Rules, sx: int, sy: int, ex: int, ey: int, maxIterations: int)
    returns (r: PathResult, ghost route: seq<PathNode>)
    requires g.height <= 0x1_0000 && sy < 0x1_0000
    ensures var pb := ProblemOf(g, rules, sx, sy, ex, ey);
      r.found ==> RouteTo(pb, route) && Visits(pb, r.path, route) && SameWork(r.path, route) && Cost(route) == r.totalCost
    ensures r.found ==> PathIsTold(g, GroundOf(rules), r.path)
    ensures r.found ==> WithinOfAll(ProblemOf(g, rules, sx, sy, ex, ey), r.totalCost, if Roadless(g) then 1 else 2)
    ensures !r.found && r.iterations < maxIterations ==> forall p :: !RouteTo(ProblemOf(g, rules, sx, sy, ex, ey), p)
    ensures Enough(ProblemOf(g, rules, sx, sy, ex, ey), maxIterations) ==> r.found || r.iterations < maxIterations
  {
    var pb := ProblemOf(g, rules, sx, sy, ex, ey);
    ProblemIsSound(g, rules, sx, sy, ex, ey);
    r, route := FindRoute(pb, maxIterations);
    if r.found {
      RoadPathIsTold(g, rules, pb, r.path, route);
    }
  }
}
