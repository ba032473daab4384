/**
  Rail routes: movement with a heading, which cannot turn back on itself, pays for turns, and may
  cross impassable tiles only straight ahead.
*/
module Rail {
  import opened Options
  import opened PathGraph
  import opened Itineraries
  import opened Popping
  import opened StateKeys
  import opened Tiles
  import opened TileCaches
  import opened Crossings

  const COST_FLAT := 100
  const COST_SLOPE := 200
  const COST_CURVE_45 := 100
  const COST_CROSSING := 300
  const COST_DEMOLISH := 500
  const MAX_BRIDGE_LENGTH := 6
  const MAX_TUNNEL_LENGTH := 6

  datatype Rules = Rules(avoidDemolish: bool, companyId: int)

  function Heuristic(x1: int, y1: int, x2: int, y2: int): int {
    var dx, dy := Abs(x1 - x2), Abs(y1 - y2);
    var dMin, dMax := if dx < dy then dx else dy, if dx < dy then dy else dx;
    dMin * 71 + (dMax - dMin) * COST_FLAT
  }

  /** What turning from one heading to another adds, or -1 for turning back; -1 enters from nowhere. */
  function TurnCost(entry: int, d: int): int {
    if entry < 0 then 0
    else
      var turn := Abs(d - entry) % 4;
      if turn == 0 then 0 else if turn == 2 then -1 else COST_CURVE_45
  }

  function TileCost(rules: Rules, t: TileData, entry: int, d: int): int {
    if t.isStation || t.water || TurnCost(entry, d) < 0 then -1
    else
      var cost := COST_FLAT + (if t.slope != 0 then COST_SLOPE else 0) + TurnCost(entry, d);
      if t.hasRail then
        if t.owner >= 0 && t.owner != rules.companyId then -1 else cost / 2
      else
        var crossing := cost + (if t.hasRoad then COST_CROSSING else 0);
        if t.buildable then crossing
        else if rules.avoidDemolish then -1
        else crossing + COST_DEMOLISH
  }

  predicate Reverses(entry: int, d: int) {
    entry >= 0 && (d + 2) % 4 == entry
  }

  function TileStep(rules: Rules, s: State, d: int, t: TileData): PathNode {
    Step(TileCost(rules, t, s.direction, d), s.x + Dx(d), s.y + Dy(d), d, if t.hasRail then "move" else "build_rail", map[])
  }

  /** The neighbours in one heading: the next tile, or crossings over it when it is impassable ahead. */
  function MovesToward(g: Grid, rules: Rules, s: State, d: int): seq<PathNode> {
    if Reverses(s.direction, d) then []
    else
      match g.Get(s.x + Dx(d), s.y + Dy(d))
      case None => []
      case Some(t) =>
        if TileCost(rules, t, s.direction, d) >= 0 then [TileStep(rules, s, d, t)]
        else if s.direction < 0 || d == s.direction then
          AsSeq(Bridge(g, RailNetwork, s.x, s.y, d, MAX_BRIDGE_LENGTH))
          + AsSeq(Tunnel(g, RailNetwork, s.x, s.y, d, MAX_TUNNEL_LENGTH))
        else []
  }

  function Neighbors(g: Grid, rules: Rules, s: State): seq<PathNode> {
    MovesToward(g, rules, s, 0) + MovesToward(g, rules, s, 1) + MovesToward(g, rules, s, 2) + MovesToward(g, rules, s, 3)
  }

  class RailCostFunction {
    const cache: TileCache
    const rules: Rules

    constructor (cache: TileCache, avoidDemolish: bool, companyId: int)
      ensures this.cache == cache && rules == Rules(avoidDemolish, companyId)
    {
      this.cache := cache;
      this.rules := Rules(avoidDemolish, companyId);
    }

    method TileCostOf(t: TileData, entry: int, d: int) returns (cost: int)
      ensures cost == TileCost(rules, t, entry, d)
    {
      if t.isStation || t.water {
        return -1;
      }
      cost := COST_FLAT;
      if t.slope != 0 {
        cost := cost + COST_SLOPE;
      }
      if entry >= 0 {
        var turn := Abs(d - entry) % 4;
        if turn == 1 || turn == 3 {
          cost := cost + COST_CURVE_45;
        } else if turn == 2 {
          return -1;
        }
      }
      if t.hasRail {
        if t.owner >= 0 && t.owner != rules.companyId {
          return -1;
        }
        return cost / 2;
      }
      if t.hasRoad {
        cost := cost + COST_CROSSING;
      }
      if !t.buildable && !t.hasRail {
        if rules.avoidDemolish {
          return -1;
        }
        cost := cost + COST_DEMOLISH;
      }
    }

    method NeighborsOf(node: PathNode) returns (result: seq<PathNode>)
      requires cache.Valid()
      ensures result == Neighbors(cache.view, rules, node.Here())
    {
      result := [];
      ghost var g, s := cache.view, node.Here();
      for d := 0 to 4
        invariant d == 0 ==> result == []
        invariant d == 1 ==> result == MovesToward(g, rules, s, 0)
        invariant d == 2 ==> result == MovesToward(g, rules, s, 0) + MovesToward(g, rules, s, 1)
        invariant d == 3 ==> result == MovesToward(g, rules, s, 0) + MovesToward(g, rules, s, 1) + MovesToward(g, rules, s, 2)
        invariant d == 4 ==> result == Neighbors(g, rules, s)
      {
        var found := NeighborsToward(node, d);
        result := result + found;
      }
    }

    method NeighborsToward(node: PathNode, d: int) returns (result: seq<PathNode>)
      requires cache.Valid()
      ensures result == MovesToward(cache.view, rules, node.Here(), d)
    {
      result := [];
      var entry := node.direction;
      if entry >= 0 && (d + 2) % 4 == entry {
        return;
      }
      var tile := cache.Get(node.x + Dx(d), node.y + Dy(d));
      if tile == None {
        return;
      }
      var cost := TileCostOf(tile.value, entry, d);
      if cost >= 0 {
        result := [TileStep(rules, node.Here(), d, tile.value)];
      } else if entry < 0 || d == entry {
        var bridge := TryBridge(cache, RailNetwork, node.x, node.y, d, MAX_BRIDGE_LENGTH);
        var tunnel := TryTunnel(cache, RailNetwork, node.x, node.y, d, MAX_TUNNEL_LENGTH);
        result := AsSeq(bridge) + AsSeq(tunnel);
      }
    }
  }

  // ---------------------------------------------------------------- the shape of one step

  /** No loaded tile has rail yet, so nothing is half price. */
  ghost predicate Railless(g: Grid) {
    forall x, y :: g.Get(x, y).Some? ==> !g.Get(x, y).value.hasRail
  }

  /** Each feature has its own price, whatever the others: a turn 100, a slope 200, a crossing 300,
      demolition 500. */
  lemma FeaturesAddUp(rules: Rules, t: TileData, entry: int, d: int)
    requires 0 <= d < 4 && -1 <= entry < 4 && !Reverses(entry, d) && IsOpenGround(t)
    ensures var turn := if entry < 0 || entry == d then 0 else 100;
      TileCost(rules, t, entry, d) == turn + if t.slope == 0 then 100 else 100 + 200
    ensures TileCost(rules, t.(hasRoad := true), entry, d) == TileCost(rules, t, entry, d) + 300
    ensures !rules.avoidDemolish ==>
              TileCost(rules, t.(hasRoad := true, buildable := false), entry, d) == TileCost(rules, t, entry, d) + 300 + 500
  {
  }

  /** Ground for a track: no station, no water, no rail of another company, and where there is no
      rail yet either free ground or leave to demolish. */
  predicate IsFree(rules: Rules, t: TileData) {
    && !t.isStation && !t.water
    && if t.hasRail then t.owner < 0 || t.owner == rules.companyId else t.buildable || !rules.avoidDemolish
  }

  function Work(t: TileData): string {
    if t.hasRail then "move" else "build_rail"
  }

  /** Laying track: 100, a turn 100, a slope 200, a level crossing 300, demolition 500. */
  function LayingPrice(t: TileData, turns: bool): int {
    100 + (if turns then 100 else 0) + (if t.slope == 0 then 0 else 200)
    + (if t.hasRoad then 300 else 0) + (if t.buildable then 0 else 500)
  }

  /** Existing track costs half of laying it on the same ground cleared. */
  function Price(t: TileData, turns: bool): int {
    if t.hasRail then LayingPrice(t.(hasRoad := false, buildable := true), turns) / 2 else LayingPrice(t, turns)
  }

  lemma FreeIsPriced(rules: Rules, t: TileData, entry: int, d: int)
    requires 0 <= d < 4 && -1 <= entry < 4 && !Reverses(entry, d)
    ensures TileCost(rules, t, entry, d) >= 0 <==> IsFree(rules, t)
    ensures IsFree(rules, t) ==> TileCost(rules, t, entry, d) == Price(t, entry >= 0 && entry != d)
  {
  }

  /** Using a track that is there, the company's own or nobody's, costs half of laying it on open ground. */
  lemma TrackIsHalfPrice(rules: Rules, t: TileData, owner: int, onRoad: bool, buildable: bool, entry: int, d: int)
    requires 0 <= d < 4 && -1 <= entry < 4 && !Reverses(entry, d) && IsOpenGround(t)
    ensures var track := t.(hasRail := true, owner := owner, hasRoad := onRoad, buildable := buildable);
            if owner < 0 || owner == rules.companyId then 2 * TileCost(rules, track, entry, d) == TileCost(rules, t, entry, d)
            else TileCost(rules, track, entry, d) == -1
  {
  }

  /** A tile ahead can be stepped on exactly when it is loaded and free and not behind, and at its price. */
  lemma StepsOntoIff(g: Grid, rules: Rules, s: State, d: int)
    requires 0 <= d < 4 && -1 <= s.direction < 4
    ensures var ahead := g.Get(s.x + Dx(d), s.y + Dy(d));
            (exists n :: n in Neighbors(g, rules, s) && n.Here() == State(s.x + Dx(d), s.y + Dy(d), d))
            <==> !Reverses(s.direction, d) && ahead.Some? && IsFree(rules, ahead.value)
  {
    var x, y := s.x + Dx(d), s.y + Dy(d);
    if n :| n in Neighbors(g, rules, s) && n.Here() == State(x, y, d) {
      OntoIsFree(g, rules, s, x, y, n);
    }
    if !Reverses(s.direction, d) && g.Get(x, y).Some? && IsFree(rules, g.Get(x, y).value) {
      FreeIsPriced(rules, g.Get(x, y).value, s.direction, d);
      OntoIsMove(g, rules, s, d, g.Get(x, y).value);
    }
  }

  lemma OntoIsFree(g: Grid, rules: Rules, s: State, x: int, y: int, n: PathNode)
    requires -1 <= s.direction < 4 && n in Neighbors(g, rules, s) && n.x == x && n.y == y && Manhattan(s.x, s.y, x, y) == 1
    ensures !Reverses(s.direction, n.direction) && g.Get(x, y).Some? && IsFree(rules, g.Get(x, y).value)
  {
    StepTells(g, rules, s, n);
  }

  lemma OntoIsMove(g: Grid, rules: Rules, s: State, d: int, t: TileData)
    requires 0 <= d < 4 && !Reverses(s.direction, d)
    requires g.Get(s.x + Dx(d), s.y + Dy(d)) == Some(t) && TileCost(rules, t, s.direction, d) >= 0
    ensures exists n :: n in Neighbors(g, rules, s) && n.Here() == State(s.x + Dx(d), s.y + Dy(d), d)
  {
    var n := TileStep(rules, s, d, t);
    KindsMove(g, rules, s, d, n, t);
    assert n.Here() == State(s.x + Dx(d), s.y + Dy(d), d);
  }

  /** A step of one tile goes onto free ground at its price, any other is a crossing. */
  lemma StepTells(g: Grid, rules: Rules, s: State, n: PathNode)
    requires n in Neighbors(g, rules, s) && -1 <= s.direction < 4
    ensures StepIsTold(g, GroundOf(rules), s, n) && 0 <= n.direction < 4 && !Reverses(s.direction, n.direction)
    ensures Manhattan(s.x, s.y, n.x, n.y) == 1 ==>
              n.g == Price(g.Get(n.x, n.y).value, s.direction >= 0 && s.direction != n.direction)
  {
    var d :| 0 <= d < 4 && n in MovesToward(g, rules, s, d);
    var t := MoveKinds(g, rules, s, d, n);
    MoveTells(g, rules, s, d, n, t);
  }

  lemma MoveTells(g: Grid, rules: Rules, s: State, d: int, n: PathNode, t: TileData)
    requires 0 <= d < 4 && -1 <= s.direction < 4 && IsMove(g, rules, s, d, n, t)
    ensures StepIsTold(g, GroundOf(rules), s, n) && n.direction == d && !Reverses(s.direction, d)
    ensures Manhattan(s.x, s.y, n.x, n.y) == 1 ==> n.g == Price(g.Get(n.x, n.y).value, s.direction >= 0 && s.direction != d)
  {
    FreeIsPriced(rules, t, s.direction, d);
    if TileCost(rules, t, s.direction, d) < 0 {
      CrossingTells(g, RailNetwork, s.x, s.y, d, MAX_BRIDGE_LENGTH, MAX_TUNNEL_LENGTH, n);
      var length := CrossingSpans(g, RailNetwork, s.x, s.y, d, MAX_BRIDGE_LENGTH, MAX_TUNNEL_LENGTH, n);
    }
  }

  function GroundOf(rules: Rules): Ground {
    Ground(t => IsFree(rules, t), t => Work(t))
  }

  /**
    A step goes one tile in a heading that does not reverse, or jumps 2 to 6 tiles straight ahead
    between two tiles of equal height, the last of them over a loaded tile. It never ends on level
    water or a level station.
  */
  ghost predicate Hop(g: Grid, s: State, n: PathNode, length: int) {
    && 0 <= n.direction < 4 && !Reverses(s.direction, n.direction)
    && n.x == s.x + Dx(n.direction) * length && n.y == s.y + Dy(n.direction) * length
    && 1 <= length <= 6
    && (length > 1 ==>
          && (s.direction < 0 || s.direction == n.direction)
          && g.Get(s.x, s.y).Some? && g.Get(n.x, n.y).Some? && g.Get(n.x - Dx(n.direction), n.y - Dy(n.direction)).Some?
          && g.Get(s.x, s.y).value.height == g.Get(n.x, n.y).value.height)
    && g.Get(n.x, n.y).Some?
    && (g.Get(n.x, n.y).value.slope == 0 ==> IsDry(g.Get(n.x, n.y).value))
    && (if Railless(g) then 100 else 50) * length <= n.g <= 1200
  }

  lemma TileStepIsHop(g: Grid, rules: Rules, s: State, d: int, t: TileData)
    requires 0 <= d < 4 && !Reverses(s.direction, d) && g.Get(s.x + Dx(d), s.y + Dy(d)) == Some(t)
    requires TileCost(rules, t, s.direction, d) >= 0
    ensures Hop(g, s, TileStep(rules, s, d, t), 1)
  {
  }

  lemma CrossingIsHop(g: Grid, s: State, d: int, n: PathNode, length: int)
    requires 0 <= d < 4 && !Reverses(s.direction, d) && (s.direction < 0 || s.direction == d)
    requires Spans(g, RailNetwork, s.x, s.y, d, 6, n, length) && g.Get(s.x + Dx(d), s.y + Dy(d)).Some?
    ensures Hop(g, s, n, length)
  {
    if length > 2 {
      assert Ahead(g, s.x, s.y, d, length - 1).Some?;
    }
    assert Dx(d) * (length - 1) == Dx(d) * length - Dx(d) && Dy(d) * (length - 1) == Dy(d) * length - Dy(d);
  }

  /** The two kinds of step in one heading: onto a passable tile, or over an impassable one. */
  predicate IsMove(g: Grid, rules: Rules, s: State, d: int, n: PathNode, t: TileData) {
    && !Reverses(s.direction, d) && g.Get(s.x + Dx(d), s.y + Dy(d)) == Some(t)
    && if TileCost(rules, t, s.direction, d) >= 0 then n == TileStep(rules, s, d, t)
       else && (s.direction < 0 || s.direction == d)
            && (Bridge(g, RailNetwork, s.x, s.y, d, MAX_BRIDGE_LENGTH) == Some(n)
                || Tunnel(g, RailNetwork, s.x, s.y, d, MAX_TUNNEL_LENGTH) == Some(n))
  }

  lemma MoveKinds(g: Grid, rules: Rules, s: State, d: int, n: PathNode) returns (t: TileData)
    requires n in MovesToward(g, rules, s, d)
    ensures IsMove(g, rules, s, d, n, t)
  {
    t := g.Get(s.x + Dx(d), s.y + Dy(d)).value;
  }

  lemma KindsMove(g: Grid, rules: Rules, s: State, d: int, n: PathNode, t: TileData)
    requires 0 <= d < 4 && IsMove(g, rules, s, d, n, t)
    ensures n in Neighbors(g, rules, s)
  {
    assert n in MovesToward(g, rules, s, d);
  }

  lemma StepIsHopToward(g: Grid, rules: Rules, s: State, d: int, n: PathNode) returns (length: int)
    requires 0 <= d < 4 && n in MovesToward(g, rules, s, d)
    ensures Hop(g, s, n, length)
  {
    var t := MoveKinds(g, rules, s, d, n);
    if TileCost(rules, t, s.direction, d) < 0 {
      length := CrossingSpans(g, RailNetwork, s.x, s.y, d, MAX_BRIDGE_LENGTH, MAX_TUNNEL_LENGTH, n);
      CrossingIsHop(g, s, d, n, length);
    } else {
      length := 1;
      TileStepIsHop(g, rules, s, d, t);
    }
  }

  lemma StepIsHop(g: Grid, rules: Rules, s: State, n: PathNode) returns (length: int)
    requires n in Neighbors(g, rules, s)
    ensures Hop(g, s, n, length)
  {
    var d :| 0 <= d < 4 && n in MovesToward(g, rules, s, d);
    length := StepIsHopToward(g, rules, s, d, n);
  }

  lemma OverCarries(g: Grid, h: Grid, rules: Rules, s: State, d: int, n: PathNode, t: TileData)
    requires 0 <= d < 4 && IsMove(g, rules, s, d, n, t) && SameBetween(g, h, s.x, s.y, n.x, n.y)
    requires TileCost(rules, t, s.direction, d) < 0
    ensures IsMove(h, rules, s, d, n, t)
  {
    CrossingCarries(g, h, RailNetwork, s.x, s.y, d, MAX_BRIDGE_LENGTH, MAX_TUNNEL_LENGTH, n);
    assert h.Get(s.x + Dx(d), s.y + Dy(d)) == Some(t);
  }

  lemma OntoCarries(g: Grid, h: Grid, rules: Rules, s: State, d: int, n: PathNode, t: TileData)
    requires 0 <= d < 4 && IsMove(g, rules, s, d, n, t) && SameBetween(g, h, s.x, s.y, n.x, n.y)
    requires TileCost(rules, t, s.direction, d) >= 0
    ensures IsMove(h, rules, s, d, n, t)
  {
    SameNext(g, h, s.x, s.y, n.x, n.y);
  }

  lemma MoveCarries(g: Grid, h: Grid, rules: Rules, s: State, d: int, n: PathNode, t: TileData)
    requires 0 <= d < 4 && IsMove(g, rules, s, d, n, t) && SameBetween(g, h, s.x, s.y, n.x, n.y)
    ensures IsMove(h, rules, s, d, n, t)
  {
    if TileCost(rules, t, s.direction, d) < 0 {
      OverCarries(g, h, rules, s, d, n, t);
    } else {
      OntoCarries(g, h, rules, s, d, n, t);
    }
  }

  /** A step that a cache shows is there wherever the tiles between its ends are the same. */
  lemma StepCarries(g: Grid, h: Grid, rules: Rules, s: State, n: PathNode)
    requires n in Neighbors(g, rules, s) && SameBetween(g, h, s.x, s.y, n.x, n.y)
    ensures n in Neighbors(h, rules, s)
  {
    var d :| 0 <= d < 4 && n in MovesToward(g, rules, s, d);
    var t := MoveKinds(g, rules, s, d, n);
    MoveCarries(g, h, rules, s, d, n, t);
    KindsMove(h, rules, s, d, n, t);
  }

  lemma HopLength(g: Grid, s: State, n: PathNode, length: int)
    requires Hop(g, s, n, length)
    ensures Manhattan(s.x, s.y, n.x, n.y) == length
  {
    if n.direction == 0 || n.direction == 2 {
      assert Dx(n.direction) * length == 0;
    } else {
      assert Dy(n.direction) * length == 0;
    }
  }

  /** The estimate counts 100 a tile along a row or column, and 71 for one tile further off in both at once. */
  lemma EstimateIsOctile(x: int, y: int, ex: int, ey: int, east: bool, south: bool)
    requires (if east then x >= ex else x <= ex) && (if south then y >= ey else y <= ey)
    ensures Heuristic(x, ey, ex, ey) == 100 * Manhattan(x, ey, ex, ey) && Heuristic(ex, y, ex, ey) == 100 * Manhattan(ex, y, ex, ey)
    ensures Heuristic(if east then x + 1 else x - 1, if south then y + 1 else y - 1, ex, ey) == Heuristic(x, y, ex, ey) + 71
  {
  }

  /** The octile estimate changes by at most 100 per tile. */
  lemma HeuristicFalls(x1: int, y1: int, x2: int, y2: int, ex: int, ey: int)
    ensures Heuristic(x1, y1, ex, ey) <= 100 * Manhattan(x1, y1, x2, y2) + Heuristic(x2, y2, ex, ey)
  {
  }

  // ---------------------------------------------------------------- the rail problem

  /** A state that some step of the map could enter: the tile behind it is on the map, or is the start's. */
  ghost predicate Enterable(g: Grid, sx: int, sy: int, s: State) {
    var bx, ay := s.x - Dx(s.direction), s.y - Dy(s.direction);
    && 0 <= s.direction < 4 && g.InMap(s.x, s.y)
    && (g.InMap(bx, ay) || (bx == sx && ay == sy))
  }

  ghost function DirectedStates(g: Grid, sx: int, sy: int): iset<State> {
    iset s: State | s == State(sx, sy, -1) || Enterable(g, sx, sy, s)
  }

  function ProblemOf(g: Grid, rules: Rules, sx: int, sy: int, ex: int, ey: int): Problem {
    Problem(
      CostFunction((x1, y1, x2, y2) => Heuristic(x1, y1, x2, y2), s => Neighbors(g, rules, s)),
      s => StateKey(s), State(sx, sy, -1), ex, ey, DirectedStates(g, sx, sy))
  }

  lemma HopStaysEnterable(g: Grid, sx: int, sy: int, s: State, n: PathNode, length: int)
    requires s in DirectedStates(g, sx, sy) && Hop(g, s, n, length)
    ensures Enterable(g, sx, sy, n.Here())
  {
    if length > 1 {
      assert g.InMap(s.x, s.y) && g.InMap(n.x, n.y);
      BetweenInMap(g, s.x, s.y, n.direction, length);
    }
  }

  lemma BetweenInMap(g: Grid, x: int, y: int, d: int, length: int)
    requires 0 <= d < 4 && length > 1 && g.InMap(x, y) && g.InMap(x + Dx(d) * length, y + Dy(d) * length)
    ensures g.InMap(x + Dx(d) * length - Dx(d), y + Dy(d) * length - Dy(d))
  {
    if d == 0 || d == 2 {
      assert Dx(d) * length == 0;
    } else {
      assert Dy(d) * length == 0;
    }
  }

  /** Below row 2^14 directed keys are all different. */
  lemma DistinctDirectedKeys(g: Grid, sx: int, sy: int, s: State, t: State)
    requires g.height <= 0x4000
    requires Enterable(g, sx, sy, s) && Enterable(g, sx, sy, t) && StateKey(s) == StateKey(t)
    ensures s == t
  {
    DirectedKey(s);
    DirectedKey(t);
  }

  lemma ProblemIsSound(g: Grid, rules: Rules, sx: int, sy: int, ex: int, ey: int)
    requires g.height <= 0x4000
    ensures var pb := ProblemOf(g, rules, sx, sy, ex, ey);
            pb.WellFormed() && pb.Weighted(if Railless(g) then 1 else 2)
  {
    var pb := ProblemOf(g, rules, sx, sy, ex, ey);
    forall s, n | s in pb.dom && n in pb.cf.neighbors(s)
      ensures n.g > 0 && n.Here() in pb.dom
      ensures pb.H(s.x, s.y) <= (if Railless(g) then 1 else 2) * n.g + pb.H(n.x, n.y)
    {
      var length := StepIsHop(g, rules, s, n);
      HopStaysEnterable(g, sx, sy, s, n, length);
      HopLength(g, s, n, length);
      HeuristicFalls(s.x, s.y, n.x, n.y, ex, ey);
    }
    forall s, t | s in pb.dom && t in pb.dom && s != pb.start && t != pb.start && pb.key(s) == pb.key(t) ensures s == t {
      DistinctDirectedKeys(g, sx, sy, s, t);
    }
  }

  // ---------------------------------------------------------------- how long a search can take

  /** At most two steps lead on in each heading. */
  lemma FewMoves(g: Grid, rules: Rules, s: State, d: int)
    ensures |MovesToward(g, rules, s, d)| <= 2
  {
  }

  lemma FewNeighbors(g: Grid, rules: Rules, s: State)
    ensures |Neighbors(g, rules, s)| <= 8
  {
    FewMoves(g, rules, s, 0);
    FewMoves(g, rules, s, 1);
    FewMoves(g, rules, s, 2);
    FewMoves(g, rules, s, 3);
  }

  /**
    So many turns decide every rail search: with a consistent estimate one for each step of the
    map, otherwise one for each price a tile can be reached at.
  */
  lemma EnoughTurns(g: Grid, rules: Rules, sx: int, sy: int, ex: int, ey: int, turns: int)
    requires g.height <= 0x4000
    requires turns > TurnBound(DirectedLimit(g), 1200) || (Railless(g) && turns > 8 * DirectedLimit(g) + 1)
    ensures Enough(ProblemOf(g, rules, sx, sy, ex, ey), turns)
  {
    var pb, keys := ProblemOf(g, rules, sx, sy, ex, ey), DirectedKeys(g, sx, sy);
    StepsAreBounded(g, rules, pb, keys);
    DegreeIsEight(g, rules, sx, sy, ex, ey);
    ConsistentIf(g, rules, sx, sy, ex, ey);
    DirectedKeysCount(g, sx, sy);
    KeysAreEnough(g, pb, keys, DirectedLimit(g), turns);
  }

  lemma ConsistentIf(g: Grid, rules: Rules, sx: int, sy: int, ex: int, ey: int)
    requires g.height <= 0x4000
    ensures Railless(g) ==> Consistent(ProblemOf(g, rules, sx, sy, ex, ey))
  {
    ProblemIsSound(g, rules, sx, sy, ex, ey);
  }

  lemma KeysAreEnough(g: Grid, pb: Problem, keys: set<int>, n: nat, turns: int)
    requires Bounded(pb, keys, 1200) && Degree(pb, 8) && |keys| <= n && (Railless(g) ==> Consistent(pb))
    requires turns > TurnBound(n, 1200) || (Railless(g) && turns > 8 * n + 1)
    ensures Enough(pb, turns)
  {
    IsEnough(pb, keys, 1200, 8, n, Railless(g), turns);
  }

  lemma StepIsBounded(g: Grid, rules: Rules, sx: int, sy: int, s: State, n: PathNode)
    requires n in Neighbors(g, rules, s)
    ensures StateKey(n.Here()) in DirectedKeys(g, sx, sy) && n.g <= 1200
  {
    var length := StepIsHop(g, rules, s, n);
    HopIsBounded(g, sx, sy, s, n, length);
  }

  lemma HopIsBounded(g: Grid, sx: int, sy: int, s: State, n: PathNode, length: int)
    requires Hop(g, s, n, length)
    ensures StateKey(n.Here()) in DirectedKeys(g, sx, sy) && n.g <= 1200
  {
    DirectedKeyIn(g, sx, sy, n.Here());
  }

  lemma StepsAreBoundedAt(g: Grid, rules: Rules, pb: Problem, keys: set<int>, s: State)
    requires pb == ProblemOf(g, rules, pb.start.x, pb.start.y, pb.ex, pb.ey) && keys == DirectedKeys(g, pb.start.x, pb.start.y)
    ensures BoundedAt(pb, keys, 1200, s)
  {
    forall n | n in pb.cf.neighbors(s) ensures pb.Key(n) in keys && n.g <= 1200 {
      StepIsBounded(g, rules, pb.start.x, pb.start.y, s, n);
    }
  }

  lemma StepsAreBounded(g: Grid, rules: Rules, pb: Problem, keys: set<int>)
    requires pb == ProblemOf(g, rules, pb.start.x, pb.start.y, pb.ex, pb.ey) && keys == DirectedKeys(g, pb.start.x, pb.start.y)
    requires pb.start.direction == -1
    ensures Bounded(pb, keys, 1200)
  {
    DirectedKeyIn(g, pb.start.x, pb.start.y, pb.start);
    forall s | s in pb.dom ensures BoundedAt(pb, keys, 1200, s) {
      StepsAreBoundedAt(g, rules, pb, keys, s);
    }
  }

  lemma DegreeIsEight(g: Grid, rules: Rules, sx: int, sy: int, ex: int, ey: int)
    ensures Degree(ProblemOf(g, rules, sx, sy, ex, ey), 8)
  {
    var pb := ProblemOf(g, rules, sx, sy, ex, ey);
    forall s | s in pb.dom ensures |pb.cf.neighbors(s)| <= 8 {
      FewNeighbors(g, rules, s);
    }
  }
}
