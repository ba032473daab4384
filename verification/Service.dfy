/**
  The route service: it loads the corridor between two points into the session's cache and searches
  what the cache then shows. What its answer says of the world depends on where a route runs.
*/
module Service {
  import opened Options
  import opened PathGraph
  import opened Popping
  import opened Tiles
  import opened TileCaches
  import opened Astar
  import opened RoutePlanning
  import opened Itineraries
  import Road
  import Rail
  import Water
  import RailRoutes
  import RailBlindness

  datatype Request = Request(fromX: int, fromY: int, toX: int, toY: int, transport: string, companyId: int,
                             avoidDemolish: bool, maxIterations: int, margin: int) {
    function Area(width: int, height: int): Rect {
      Corridor(width, height, fromX, fromY, toX, toY, margin)
    }
  }

  datatype Transport = OverRoad | OverRail | OverWater

  datatype Reply = Refused(error: string) | Answered(result: PathResult)

  function TransportOf(name: string): Option<Transport> {
    if name == "road" then Some(OverRoad) else if name == "rail" then Some(OverRail)
    else if name == "water" then Some(OverWater) else None
  }

  // ---------------------------------------------------------------- docks

  predicate IsWater(t: Option<TileData>) {
    t.Some? && t.value.water
  }

  /** The first heading, from `d` on, with water ahead. */
  function WaterAhead(g: Grid, x: int, y: int, d: nat): Option<int>
    decreases 4 - d
  {
    if d >= 4 then None else if IsWater(g.Get(x + Dx(d), y + Dy(d))) then Some(d) else WaterAhead(g, x, y, d + 1)
  }

  /** The tile itself when it is water, or else the water next to it, as beside a dock. */
  function WaterBeside(g: Grid, x: int, y: int): (int, int) {
    if IsWater(g.Get(x, y)) then (x, y)
    else
      match WaterAhead(g, x, y, 0)
      case None => (x, y)
      case Some(d) => (x + Dx(d), y + Dy(d))
  }

  /** The tile that a search by water starts or ends on: the one asked for when it is water or has none beside it. */
  ghost predicate StandsIn(g: Grid, x: int, y: int, at: (int, int)) {
    if IsWater(g.Get(x, y)) || forall d :: 0 <= d < 4 ==> !IsWater(g.Get(x + Dx(d), y + Dy(d))) then at == (x, y)
    else
      exists d :: 0 <= d < 4 && at == (x + Dx(d), y + Dy(d)) && IsWater(g.Get(at.0, at.1))
             && forall before :: 0 <= before < d ==> !IsWater(g.Get(x + Dx(before), y + Dy(before)))
  }

  lemma {:induction false} WaterAheadIsFirst(g: Grid, x: int, y: int, d: nat)
    ensures WaterAhead(g, x, y, d).None? <==> forall k :: d <= k < 4 ==> !IsWater(g.Get(x + Dx(k), y + Dy(k)))
    ensures var a := WaterAhead(g, x, y, d);
            a.Some? ==> d <= a.value < 4 && IsWater(g.Get(x + Dx(a.value), y + Dy(a.value)))
                        && forall before :: d <= before < a.value ==> !IsWater(g.Get(x + Dx(before), y + Dy(before)))
    decreases 4 - d
  {
    if d < 4 && !IsWater(g.Get(x + Dx(d), y + Dy(d))) {
      WaterAheadIsFirst(g, x, y, d + 1);
    }
  }

  lemma WaterBesideStandsIn(g: Grid, x: int, y: int)
    ensures StandsIn(g, x, y, WaterBeside(g, x, y))
  {
    WaterAheadIsFirst(g, x, y, 0);
  }

  method FindWaterBeside(cache: TileCache, x: int, y: int) returns (nx: int, ny: int)
    requires cache.Valid()
    ensures (nx, ny) == WaterBeside(cache.view, x, y)
  {
    var tile := cache.Get(x, y);
    if tile.Some? && tile.value.water {
      return x, y;
    }
    for d := 0 to 4
      invariant WaterAhead(cache.view, x, y, 0) == WaterAhead(cache.view, x, y, d)
    {
      var neighbour := cache.Get(x + Dx(d), y + Dy(d));
      if neighbour.Some? && neighbour.value.water {
        return x + Dx(d), y + Dy(d);
      }
    }
    return x, y;
  }

  // ---------------------------------------------------------------- the search

  function RailRules(q: Request): Rail.Rules {
    Rail.Rules(q.avoidDemolish, q.companyId)
  }

  /** The search problem that a grid poses; the ends are those asked for, or the water beside them. */
  function ProblemOf(g: Grid, t: Transport, q: Request, from: (int, int), to: (int, int)): Problem {
    match t
    case OverRoad => Road.ProblemOf(g, Road.Rules(q.avoidDemolish, q.companyId), from.0, from.1, to.0, to.1)
    case OverRail => Rail.ProblemOf(g, RailRules(q), from.0, from.1, to.0, to.1)
    case OverWater => Water.ProblemOf(g, from.0, from.1, to.0, to.1)
  }

  function FromOf(g: Grid, t: Transport, q: Request): (int, int) {
    if t.OverWater? then WaterBeside(g, q.fromX, q.fromY) else (q.fromX, q.fromY)
  }

  function ToOf(g: Grid, t: Transport, q: Request): (int, int) {
    if t.OverWater? then WaterBeside(g, q.toX, q.toY) else (q.toX, q.toY)
  }

  ghost function Weight(g: Grid, t: Transport): nat {
    match t
    case OverRoad => if Road.Roadless(g) then 1 else 2
    case OverRail => if Rail.Railless(g) then 1 else 2
    case OverWater => 1
  }

  /** The search takes every route into account, except by rail those through the hidden state, if any. */
  ghost predicate Counts(g: Grid, t: Transport, q: Request, pb: Problem, p: seq<PathNode>) {
    t.OverRail? ==> RailRoutes.Sighted(g, RailRules(q), pb.start.x, pb.start.y) || pb.Avoids(p)
  }

  /** A path found is a route, exactly as priced; it is within the weight of the routes of this kind, and giving up means there is none. */
  ghost predicate Answers(pb: Problem, kind: iset<seq<PathNode>>, w: nat, r: PathResult, route: seq<PathNode>, maxIterations: int) {
    && (r.found ==> RouteTo(pb, route) && Visits(pb, r.path, route) && SameWork(r.path, route) && Cost(route) == r.totalCost)
    && (r.found ==> forall p :: p in kind && RouteTo(pb, p) ==> r.totalCost <= w * Cost(p))
    && (!r.found && r.iterations < maxIterations ==> forall p :: p in kind ==> !RouteTo(pb, p))
  }

  ghost function Counting(g: Grid, t: Transport, q: Request, pb: Problem): iset<seq<PathNode>> {
    iset p: seq<PathNode> | Counts(g, t, q, pb, p)
  }

  lemma AllAreAnswered(pb: Problem, kind: iset<seq<PathNode>>, w: nat, r: PathResult, route: seq<PathNode>, maxIterations: int)
    requires r.found ==> RouteTo(pb, route) && Visits(pb, r.path, route) && SameWork(r.path, route) && Cost(route) == r.totalCost
    requires r.found ==> WithinOfAll(pb, r.totalCost, w)
    requires !r.found && r.iterations < maxIterations ==> forall p :: !RouteTo(pb, p)
    ensures Answers(pb, kind, w, r, route, maxIterations)
  {
  }

  lemma RailIsAnswered(pb: Problem, sighted: bool, kind: iset<seq<PathNode>>, w: nat, r: PathResult, route: seq<PathNode>,
                       maxIterations: int)
    requires r.found ==> RouteTo(pb, route) && Visits(pb, r.path, route) && SameWork(r.path, route) && Cost(route) == r.totalCost
    requires sighted && r.found ==> WithinOfAll(pb, r.totalCost, w)
    requires sighted && !r.found && r.iterations < maxIterations ==> forall p :: !RouteTo(pb, p)
    requires r.found ==> forall p, t :: pb.Reaches(p, t) && pb.AtGoal(t) ==> r.totalCost <= w * Cost(p)
    requires !r.found && r.iterations < maxIterations ==> forall p, t :: pb.AtGoal(t) ==> !pb.Reaches(p, t)
    requires forall p :: p in kind ==> sighted || pb.Avoids(p)
    ensures Answers(pb, kind, w, r, route, maxIterations)
  {
    forall p | p in kind && RouteTo(pb, p) && !sighted ensures pb.Reaches(p, EndOf(pb.start, p)) {
    }
  }

  /** Which tiles a transport can use, and what using them takes. */
  function GroundOf(t: Transport, q: Request): Ground {
    match t
    case OverRoad => Road.GroundOf(Road.Rules(q.avoidDemolish, q.companyId))
    case OverRail => Rail.GroundOf(RailRules(q))
    case OverWater => Water.WATERWAYS
  }

  /** Searches what a grid shows. */
  method Search(g: Grid, t: Transport, q: Request, from: (int, int), to: (int, int)) returns (r: PathResult, ghost route: seq<PathNode>)
    requires g.height <= 0x4000 && from.1 < 0x1_0000
    ensures var pb := ProblemOf(g, t, q, from, to);
            Answers(pb, Counting(g, t, q, pb), Weight(g, t), r, route, q.maxIterations)
    ensures r.found ==> PathIsTold(g, GroundOf(t, q), r.path)
    ensures Enough(ProblemOf(g, t, q, from, to), q.maxIterations) ==> r.found || r.iterations < q.maxIterations
  {
    ghost var pb, w := ProblemOf(g, t, q, from, to), Weight(g, t);
    ghost var kind := Counting(g, t, q, pb);
    match t {
      case OverRoad =>
        r, route := Road.PlanRoad(g, Road.Rules(q.avoidDemolish, q.companyId), from.0, from.1, to.0, to.1, q.maxIterations);
        AllAreAnswered(pb, kind, w, r, route, q.maxIterations);
      case OverRail =>
        r, route := RailRoutes.PlanRail(g, RailRules(q), from.0, from.1, to.0, to.1, q.maxIterations);
        RailIsAnswered(pb, RailRoutes.Sighted(g, RailRules(q), from.0, from.1), kind, w, r, route, q.maxIterations);
      case OverWater =>
        r, route := Water.PlanWater(g, from.0, from.1, to.0, to.1, q.maxIterations);
        AllAreAnswered(pb, kind, w, r, route, q.maxIterations);
    }
  }

  // ---------------------------------------------------------------- what a load tells of the world

  /** On the area the cache shows what the world has. */
  ghost predicate ShowsAll(g: Grid, world: Grid, area: Rect) {
    forall x, y :: area.Has(x, y) ==> g.Get(x, y) == world.Get(x, y)
  }

  /** A load that is answered faithfully leaves nothing false in the cache, and nothing out on its area. */
  lemma LoadTellsTheWorld(g: Grid, world: Grid, game: Game, area: Rect)
    requires PartOf(g, world) && HoldsMapTiles(g) && AllScan(world, game, Batches(area))
    ensures var loaded := ApplyAll(g, Received(game, Batches(area)));
            PartOf(loaded, world) && ShowsAll(loaded, world, area)
  {
    var loaded := ApplyAll(g, Received(game, Batches(area)));
    ApplyAllHoldsMapTiles(g, Received(game, Batches(area)));
    forall x, y | g.InMap(x, y)
      ensures loaded.Get(x, y) == if area.Has(x, y) && world.Get(x, y).Some? then world.Get(x, y) else g.Get(x, y)
    {
      LoadAgreesWithWorld(g, world, game, area, x, y);
    }
  }

  /** A step of one grid is a step of another that has the same tiles between its ends. */
  lemma StepCarries(g: Grid, h: Grid, t: Transport, q: Request, from: (int, int), to: (int, int), u: State, n: PathNode)
    requires n in ProblemOf(g, t, q, from, to).cf.neighbors(u)
    requires SameBetween(g, h, u.x, u.y, n.x, n.y) && g.Get(u.x, u.y) == h.Get(u.x, u.y)
    ensures n in ProblemOf(h, t, q, from, to).cf.neighbors(u)
  {
    match t
    case OverRoad => Road.StepCarries(g, h, Road.Rules(q.avoidDemolish, q.companyId), u, n);
    case OverRail => Rail.StepCarries(g, h, RailRules(q), u, n);
    case OverWater => Water.StepPrice(g, u, n); Water.StepCarries(g, h, u, n);
  }

  lemma StepIsLoaded(g: Grid, t: Transport, q: Request, from: (int, int), to: (int, int), u: State, n: PathNode)
    requires n in ProblemOf(g, t, q, from, to).cf.neighbors(u)
    ensures g.Get(n.x, n.y).Some?
  {
    match t
    case OverRoad => Road.StepPrice(g, Road.Rules(q.avoidDemolish, q.companyId), u, n);
    case OverRail => var length := Rail.StepIsHop(g, RailRules(q), u, n);
    case OverWater => Water.StepPrice(g, u, n);
  }

  ghost function Agreed(g: Grid, world: Grid): iset<State> {
    iset u: State | g.Get(u.x, u.y) == world.Get(u.x, u.y)
  }

  /** A route through the cache is a route through the world. */
  lemma RouteIsReal(g: Grid, world: Grid, t: Transport, q: Request, from: (int, int), to: (int, int), p: seq<PathNode>)
    requires PartOf(g, world) && g.Get(from.0, from.1) == world.Get(from.0, from.1)
    requires RouteTo(ProblemOf(g, t, q, from, to), p)
    ensures RouteTo(ProblemOf(world, t, q, from, to), p)
  {
    var pb, whole, kind := ProblemOf(g, t, q, from, to), ProblemOf(world, t, q, from, to), Agreed(g, world);
    forall u: State, n: PathNode | n in pb.cf.neighbors(u) ensures n.Here() in kind {
      StepIsLoaded(g, t, q, from, to, u, n);
    }
    forall u: State, n: PathNode | u in kind && n.Here() in kind && n in pb.cf.neighbors(u) ensures n in whole.cf.neighbors(u) {
      StepCarries(g, world, t, q, from, to, u, n);
    }
    RouteEnters(pb.cf, kind, pb.start, p);
    RouteCarries(pb.cf, whole.cf, kind, pb.start, p);
  }

  /** The route leaves its start inside the area and enters no tile outside. */
  ghost predicate StaysIn(area: Rect, start: State, p: seq<PathNode>) {
    area.Has(start.x, start.y) && forall i :: 0 <= i < |p| ==> area.Has(p[i].x, p[i].y)
  }

  ghost function Within(area: Rect): iset<State> {
    iset u: State | area.Has(u.x, u.y)
  }

  /** A route through the world that stays in the area is a route through the cache. */
  lemma RouteIsShown(g: Grid, world: Grid, area: Rect, t: Transport, q: Request, from: (int, int), to: (int, int), p: seq<PathNode>)
    requires ShowsAll(g, world, area) && StaysIn(area, State(from.0, from.1, -1), p)
    requires RouteTo(ProblemOf(world, t, q, from, to), p)
    ensures RouteTo(ProblemOf(g, t, q, from, to), p)
  {
    var pb, whole, kind := ProblemOf(g, t, q, from, to), ProblemOf(world, t, q, from, to), Within(area);
    forall u: State, n: PathNode | u in kind && n.Here() in kind && n in whole.cf.neighbors(u) ensures n in pb.cf.neighbors(u) {
      StepCarries(world, g, t, q, from, to, u, n);
    }
    RouteCarries(whole.cf, pb.cf, kind, pb.start, p);
  }

  /** The routes taken into account that stay in the area. */
  ghost function CountingIn(g: Grid, area: Rect, t: Transport, q: Request, pb: Problem): iset<seq<PathNode>> {
    iset p: seq<PathNode> | Counts(g, t, q, pb, p) && StaysIn(area, pb.start, p)
  }

  /** What the search says of the cache it says of the world, as far as the area goes. */
  lemma AnswersForTheWorld(g: Grid, world: Grid, area: Rect, t: Transport, q: Request, from: (int, int), to: (int, int),
                           r: PathResult, route: seq<PathNode>)
    requires PartOf(g, world) && ShowsAll(g, world, area) && g.Get(from.0, from.1) == world.Get(from.0, from.1)
    requires var pb := ProblemOf(g, t, q, from, to);
             Answers(pb, Counting(g, t, q, pb), Weight(g, t), r, route, q.maxIterations)
    ensures var whole := ProblemOf(world, t, q, from, to);
            Answers(whole, CountingIn(g, area, t, q, whole), Weight(g, t), r, route, q.maxIterations)
  {
    var pb, whole := ProblemOf(g, t, q, from, to), ProblemOf(world, t, q, from, to);
    if r.found {
      RouteIsReal(g, world, t, q, from, to, route);
    }
    forall p | p in CountingIn(g, area, t, q, whole) && RouteTo(whole, p) ensures p in Counting(g, t, q, pb) && RouteTo(pb, p) {
      RouteIsShown(g, world, area, t, q, from, to, p);
    }
  }

  // ---------------------------------------------------------------- the request

  /** The cache is right so far, the world is a whole one, and the corridor's batches are answered faithfully. */
  ghost predicate IsTold(g: Grid, world: Grid, game: Game, q: Request) {
    && PartOf(g, world) && IsWorld(world) && q.margin >= 0
    && AllScan(world, game, Batches(q.Area(world.width, world.height)))
  }

  function Loaded(g: Grid, game: Game, q: Request): Grid {
    ApplyAll(g, Received(game, Batches(q.Area(g.width, g.height))))
  }

  /** The cache knows the tile that the search starts on as the world has it, if only as missing. */
  lemma StartIsKnown(g: Grid, world: Grid, game: Game, q: Request, t: Transport)
    requires IsTold(g, world, game, q) && HoldsMapTiles(g)
    ensures var from := FromOf(Loaded(g, game, q), t, q); Loaded(g, game, q).Get(from.0, from.1) == world.Get(from.0, from.1)
  {
    LoadTellsTheWorld(g, world, game, q.Area(g.width, g.height));
    CorridorHasEndpoints(g.width, g.height, q.fromX, q.fromY, q.toX, q.toY, q.margin);
    BesideIsLoaded(Loaded(g, game, q), q.fromX, q.fromY);
  }

  /** A tile is left for another only when that is loaded. */
  lemma BesideIsLoaded(g: Grid, x: int, y: int)
    ensures var at := WaterBeside(g, x, y); at == (x, y) || g.Get(at.0, at.1).Some?
  {
    WaterAheadIsFirst(g, x, y, 0);
  }

  /** In a fresh cache nothing is hidden by rail when the hidden row lies above the corridor. */
  lemma FreshCorridorIsSighted(world: Grid, game: Game, q: Request)
    requires IsTold(Grid(world.width, world.height, map[]), world, game, q)
    requires world.height <= 0x4000 && q.fromY < 0x1_0000 && q.fromY / 4 < Max(1, Min(q.fromY, q.toY) - q.margin)
    ensures RailRoutes.Sighted(Loaded(Grid(world.width, world.height, map[]), game, q), RailRules(q), q.fromX, q.fromY)
  {
    FreshLoadIsSeen(world, game, q.Area(world.width, world.height));
    RailBlindness.CorridorBelowHiddenRow(world, RailRules(q), q.fromX, q.fromY, q.toX, q.toY, q.margin);
  }

  /** The answer is for what the cache shows after the load; and for the world, as far as the corridor goes. */
  ghost predicate AnswersRequest(g: Grid, world: Grid, told: bool, t: Transport, q: Request, r: PathResult, route: seq<PathNode>) {
    var from, to, area := FromOf(g, t, q), ToOf(g, t, q), q.Area(g.width, g.height);
    var pb, whole := ProblemOf(g, t, q, from, to), ProblemOf(world, t, q, from, to);
    && Answers(pb, Counting(g, t, q, pb), Weight(g, t), r, route, q.maxIterations)
    && (told ==> Answers(whole, CountingIn(g, area, t, q, whole), Weight(g, t), r, route, q.maxIterations))
  }

  lemma RequestIsAnswered(before: Grid, world: Grid, game: Game, q: Request, t: Transport, r: PathResult, route: seq<PathNode>)
    requires HoldsMapTiles(before) && Loaded(before, game, q).width == before.width && Loaded(before, game, q).height == before.height
    requires var g := Loaded(before, game, q);
             var pb := ProblemOf(g, t, q, FromOf(g, t, q), ToOf(g, t, q));
             Answers(pb, Counting(g, t, q, pb), Weight(g, t), r, route, q.maxIterations)
    ensures AnswersRequest(Loaded(before, game, q), world, IsTold(before, world, game, q), t, q, r, route)
  {
    var g := Loaded(before, game, q);
    if IsTold(before, world, game, q) {
      LoadTellsTheWorld(before, world, game, q.Area(g.width, g.height));
      StartIsKnown(before, world, game, q, t);
      AnswersForTheWorld(g, world, q.Area(g.width, g.height), t, q, FromOf(g, t, q), ToOf(g, t, q), r, route);
    }
  }

  /** A route asked for by name, over what the cache shows: the search spends enough turns or tells that it did not. */
  ghost predicate Serves(g: Grid, ground: Ground, pb: Problem, kind: iset<seq<PathNode>>, w: nat, q: Request, r: PathResult,
                         route: seq<PathNode>) {
    && Answers(pb, kind, w, r, route, q.maxIterations)
    && (r.found ==> PathIsTold(g, ground, r.path))
    && (Enough(pb, q.maxIterations) ==> r.found || r.iterations < q.maxIterations)
  }

  ghost function AllRoutes(): iset<seq<PathNode>> {
    iset p: seq<PathNode> | |p| >= 0
  }

  /** The routes by rail that the search takes into account. */
  ghost function RailRoutesOf(g: Grid, q: Request): iset<seq<PathNode>> {
    iset p: seq<PathNode> |
      RailRoutes.Sighted(g, RailRules(q), q.fromX, q.fromY)
      || Rail.ProblemOf(g, RailRules(q), q.fromX, q.fromY, q.toX, q.toY).Avoids(p)
  }

  /** By water the ends may be docks. */
  ghost predicate ServesByWater(g: Grid, q: Request, r: PathResult, route: seq<PathNode>) {
    exists from, to :: StandsIn(g, q.fromX, q.fromY, from) && StandsIn(g, q.toX, q.toY, to)
      && Serves(g, Water.WATERWAYS, Water.ProblemOf(g, from.0, from.1, to.0, to.1), AllRoutes(), 1, q, r, route)
  }

  /** What each name asks for. */
  ghost predicate ServesByName(g: Grid, q: Request, r: PathResult, route: seq<PathNode>) {
    var road, rail := Road.Rules(q.avoidDemolish, q.companyId), Rail.Rules(q.avoidDemolish, q.companyId);
    && (q.transport == "road" ==>
          Serves(g, Road.GroundOf(road), Road.ProblemOf(g, road, q.fromX, q.fromY, q.toX, q.toY), AllRoutes(),
                 if Road.Roadless(g) then 1 else 2, q, r, route))
    && (q.transport == "rail" ==>
          Serves(g, Rail.GroundOf(rail), Rail.ProblemOf(g, rail, q.fromX, q.fromY, q.toX, q.toY), RailRoutesOf(g, q),
                 if Rail.Railless(g) then 1 else 2, q, r, route))
    && (q.transport == "water" ==> ServesByWater(g, q, r, route))
  }

  /** Three names are known, and each gets its own kind of route. */
  lemma NameIsServed(g: Grid, q: Request, r: PathResult, route: seq<PathNode>)
    requires TransportOf(q.transport).Some?
    requires var t := TransportOf(q.transport).value;
             var pb := ProblemOf(g, t, q, FromOf(g, t, q), ToOf(g, t, q));
             Serves(g, GroundOf(t, q), pb, Counting(g, t, q, pb), Weight(g, t), q, r, route)
    ensures q.transport in {"road", "rail", "water"} && ServesByName(g, q, r, route)
  {
    var t := TransportOf(q.transport).value;
    var from, to := FromOf(g, t, q), ToOf(g, t, q);
    var pb := ProblemOf(g, t, q, from, to);
    var kind := Counting(g, t, q, pb);
    if t.OverWater? {
      WaterBesideStandsIn(g, q.fromX, q.fromY);
      WaterBesideStandsIn(g, q.toX, q.toY);
      assert kind == AllRoutes();
    } else if t.OverRoad? {
      assert kind == AllRoutes();
    } else {
      assert kind == RailRoutesOf(g, q);
    }
  }

  method Pathfind(cache: TileCache, game: Game, q: Request, ghost world: Grid) returns (reply: Reply, ghost route: seq<PathNode>)
    requires cache.Valid() && cache.mapHeight <= 0x4000 && q.fromY < 0x1_0000
    modifies cache`view, cache`version, cache.tiles
    ensures cache.Valid() && cache.version == old(cache.version) + 1 && cache.view == Loaded(old(cache.view), game, q)
    ensures reply.Answered? <==> q.transport in {"road", "rail", "water"}
    ensures reply.Answered? <==> TransportOf(q.transport).Some?
    ensures reply.Refused? ==> reply.error == "Unknown transport_type: " + q.transport
    ensures reply.Answered? ==> ServesByName(cache.view, q, reply.result, route)
    ensures reply.Answered? ==>
              AnswersRequest(cache.view, world, IsTold(old(cache.view), world, game, q), TransportOf(q.transport).value, q,
                             reply.result, route)
  {
    var count := cache.LoadCorridor(game, q.fromX, q.fromY, q.toX, q.toY, q.margin);
    route := [];
    match TransportOf(q.transport)
    case None => reply := Refused("Unknown transport_type: " + q.transport);
    case Some(t) =>
      var from, to := (q.fromX, q.fromY), (q.toX, q.toY);
      if t == OverWater {
        var x, y := FindWaterBeside(cache, q.fromX, q.fromY);
        from := (x, y);
        x, y := FindWaterBeside(cache, q.toX, q.toY);
        to := (x, y);
      }
      var g := cache.Snapshot();
      WaterAheadIsFirst(g, q.fromX, q.fromY, 0);
      var r;
      r, route := Search(g, t, q, from, to);
      reply := Answered(r);
      NameIsServed(g, q, r, route);
      RequestIsAnswered(old(cache.view), world, game, q, t, r, route);
  }

  // ---------------------------------------------------------------- a route that leaves the corridor

  const SEA := TileData(0, 0, false, true, false, false, false, -1, false, false)
  const ROCK := TileData(0, 0, false, false, false, false, false, -1, false, false)

  /** Two channels down from row 1, joined in row `low`. */
  function ChannelTile(low: int, x: int, y: int): TileData {
    if ((x == 1 || x == 3) && y <= low) || (x == 2 && y == low) then SEA else ROCK
  }

  /** The tile lies straight ahead. */
  predicate IsAhead(s: State, d: int, x: int, y: int) {
    match d
    case 0 => x == s.x && y <= s.y
    case 1 => y == s.y && x >= s.x
    case 2 => x == s.x && y >= s.y
    case _ => y == s.y && x <= s.x
  }

  ghost predicate CanSail(cf: CostFunction, u: State, x: int, y: int) {
    exists n :: n in cf.neighbors(u) && n.Here() == State(x, y, -1)
  }

  /** Water next to a tile can be sailed to. */
  ghost predicate Navigable(cf: CostFunction, g: Grid) {
    forall u: State, x, y :: Manhattan(u.x, u.y, x, y) == 1 && IsWater(g.Get(x, y)) ==> CanSail(cf, u, x, y)
  }

  /** Extends a route by a straight passage over water. */
  lemma {:induction false} Sail(g: Grid, cf: CostFunction, start: State, p: seq<PathNode>, s: State, d: int, x: int, y: int)
    returns (q: seq<PathNode>)
    requires 0 <= d < 4 && Navigable(cf, g) && s.direction == -1
    requires IsRoute(cf, start, p) && EndOf(start, p) == s && IsAhead(s, d, x, y)
    requires forall a, b :: Between(s.x, x, a) && Between(s.y, y, b) ==> IsWater(g.Get(a, b))
    ensures IsRoute(cf, start, q) && EndOf(start, q) == State(x, y, -1)
    decreases Manhattan(s.x, s.y, x, y)
  {
    if s.x == x && s.y == y {
      q := p;
    } else {
      var front := Sail(g, cf, start, p, s, d, x - Dx(d), y - Dy(d));
      assert IsWater(g.Get(x, y)) && CanSail(cf, State(x - Dx(d), y - Dy(d), -1), x, y);
      var n :| n in cf.neighbors(State(x - Dx(d), y - Dy(d), -1)) && n.Here() == State(x, y, -1);
      RouteAppend(cf, start, front, n);
      q := front + [n];
    }
  }

  lemma WaterIsNavigable(g: Grid, sx: int, sy: int, ex: int, ey: int)
    ensures Navigable(Water.ProblemOf(g, sx, sy, ex, ey).cf, g)
  {
    var cf := Water.ProblemOf(g, sx, sy, ex, ey).cf;
    forall u: State, x, y | Manhattan(u.x, u.y, x, y) == 1 && IsWater(g.Get(x, y)) ensures CanSail(cf, u, x, y) {
      var n := SailOne(g, u, x, y);
    }
  }

  lemma SailOne(g: Grid, u: State, x: int, y: int) returns (n: PathNode)
    requires Manhattan(u.x, u.y, x, y) == 1 && IsWater(g.Get(x, y))
    ensures n in Water.Neighbors(g, u) && n.Here() == State(x, y, -1)
  {
    var d := if y < u.y then 0 else if x > u.x then 1 else if y > u.y then 2 else 3;
    n := Water.MoveToward(g, u, d)[0];
    assert n in Water.MoveToward(g, u, d);
  }

  /** From the western channel no step leads out of it above row `low`. */
  lemma {:induction false} StaysWest(g: Grid, cf: CostFunction, low: int, s: State, p: seq<PathNode>)
    requires forall u :: cf.neighbors(u) == Water.Neighbors(g, u)
    requires forall x, y :: g.Get(x, y).Some? ==> 1 <= x && y < low && g.Get(x, y).value == ChannelTile(low, x, y)
    requires IsRoute(cf, s, p) && s.x == 1
    ensures EndOf(s, p).x == 1
    decreases |p|
  {
    if p != [] {
      var d :| 0 <= d < 4 && p[0] in Water.MoveToward(g, s, d);
      StaysWest(g, cf, low, p[0].Here(), p[1..]);
    }
  }

  /** A world of two channels: a route from one to the other leads through row `low`. */
  ghost predicate IsChannels(world: Grid, low: int) {
    && IsWorld(world) && 4 <= world.width && 2 <= low < world.height
    && forall x, y :: world.Get(x, y).Some? ==> world.Get(x, y) == Some(ChannelTile(low, x, y))
  }

  lemma ChannelLeads(world: Grid, pb: Problem, low: int) returns (p: seq<PathNode>)
    requires IsChannels(world, low) && pb == Water.ProblemOf(world, 1, 1, 3, 1)
    ensures RouteTo(pb, p)
  {
    var start := State(1, 1, -1);
    WaterIsNavigable(world, 1, 1, 3, 1);
    var down := Sail(world, pb.cf, start, [], start, 2, 1, low);
    var across := Sail(world, pb.cf, start, down, State(1, low, -1), 1, 3, low);
    p := Sail(world, pb.cf, start, across, State(3, low, -1), 0, 3, 1);
  }

  /** What is seen of them above row `low` does not lead across. */
  lemma ChannelIsCut(world: Grid, low: int, g: Grid, pb: Problem, p: seq<PathNode>)
    requires IsChannels(world, low) && pb == Water.ProblemOf(g, 1, 1, 3, 1)
    requires forall x, y :: g.Get(x, y).Some? ==> y < low && world.Get(x, y) == g.Get(x, y)
    ensures !RouteTo(pb, p)
  {
    if IsRoute(pb.cf, pb.start, p) {
      StaysWest(g, pb.cf, low, pb.start, p);
    }
  }

  /** The request between the heads of the channels. */
  function Across(margin: int): Request {
    Request(1, 1, 3, 1, "water", 0, false, 0, margin)
  }

  lemma ChannelLeavesTheCorridor(world: Grid, margin: nat, game: Game, p: seq<PathNode>)
    requires IsChannels(world, margin + 2) && AllScan(world, game, Batches(Across(margin).Area(world.width, world.height)))
    ensures !RouteTo(ProblemOf(Loaded(Grid(world.width, world.height, map[]), game, Across(margin)), OverWater, Across(margin), (1, 1), (3, 1)), p)
  {
    var area := Across(margin).Area(world.width, world.height);
    FreshLoadIsSeen(world, game, area);
    var g := Seen(world, area);
    ChannelIsCut(world, margin + 2, g, Water.ProblemOf(g, 1, 1, 3, 1), p);
  }

  /** However wide the corridor: in some world there is a route, and none in what a fresh cache shows. */
  lemma SomeRouteLeavesTheCorridor(width: int, height: int, margin: nat) returns (world: Grid)
    requires 4 <= width && margin + 3 <= height
    ensures world.width == width && world.height == height && IsWorld(world)
    ensures exists p :: RouteTo(ProblemOf(world, OverWater, Across(margin), (1, 1), (3, 1)), p)
    ensures forall game: Game, p :: AllScan(world, game, Batches(Across(margin).Area(width, height))) ==>
              !RouteTo(ProblemOf(Loaded(Grid(width, height, map[]), game, Across(margin)), OverWater, Across(margin), (1, 1), (3, 1)), p)
  {
    world := World(width, height, (x, y) => ChannelTile(margin + 2, x, y));
    var p := ChannelLeads(world, ProblemOf(world, OverWater, Across(margin), (1, 1), (3, 1)), margin + 2);
    forall game: Game, p | AllScan(world, game, Batches(Across(margin).Area(width, height)))
      ensures !RouteTo(ProblemOf(Loaded(Grid(width, height, map[]), game, Across(margin)), OverWater, Across(margin), (1, 1), (3, 1)), p)
    {
      ChannelLeavesTheCorridor(world, margin, game, p);
    }
  }
}
