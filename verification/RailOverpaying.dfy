/**
  The starts from which the search can exceed the promised bound: again exactly those whose hidden
  state is on the map. For each of them there is a world in which the search can reach the goal, yet
  every route it can follow costs more than twice the cheapest one.
*/
module RailOverpaying {
  import opened Options
  import opened PathGraph
  import opened Tiles
  import opened TileCaches
  import opened RoutePlanning
  import opened Rail
  import opened RailRoutes
  import opened RailWorlds

  /** The search can reach the goal, but only for more than twice what some route costs. */
  ghost predicate Overpays(g: Grid, rules: Rules, sx: int, sy: int, ex: int, ey: int) {
    var pb := ProblemOf(g, rules, sx, sy, ex, ey);
    && (exists q, t :: pb.Reaches(q, t) && pb.AtGoal(t))
    && (exists p :: RouteTo(pb, p) && TwiceIsLess(pb, p))
  }

  /** Every route to the goal that the search can follow costs more than twice as much as `p`. */
  ghost predicate TwiceIsLess(pb: Problem, p: seq<PathNode>) {
    forall q, t :: pb.Reaches(q, t) && pb.AtGoal(t) ==> 2 * Cost(p) < Cost(q)
  }

  /** Some world of this size and some goal: the corridor that is loaded to it is overpaid in. */
  ghost predicate SomeCorridorIsOverpaid(width: int, height: int, sx: int, sy: int, margin: int) {
    exists world: Grid, rules: Rules, ex: int, ey: int ::
      && world.width == width && world.height == height && IsWorld(world)
      && Overpays(Seen(world, Corridor(width, height, sx, sy, ex, ey, margin)), rules, sx, sy, ex, ey)
  }

  ghost predicate SomeWorldIsOverpaid(width: int, height: int, sx: int, sy: int) {
    exists world: Grid, rules: Rules, ex: int, ey: int ::
      && world.width == width && world.height == height && IsWorld(world)
      && Overpays(Seen(world, Interior(width, height)), rules, sx, sy, ex, ey)
  }

  // ---------------------------------------------------------------- a height that costs bound

  /** A step that stays off the hidden state climbs no higher than it costs. */
  ghost predicate ClimbsAtCost(g: Grid, start: State, hidden: State, rise: (int, int) -> int) {
    forall s, n :: (s == start || (Arrived(g, s) && s != hidden)) && n in Neighbors(g, RULES, s) && n.Here() != hidden ==>
      rise(n.x, n.y) <= rise(s.x, s.y) + n.g
  }

  /** A route that stays off the hidden state costs at least its climb. */
  lemma {:induction false} RouteClimbs(g: Grid, cf: CostFunction, start: State, hidden: State, rise: (int, int) -> int,
                                       s: State, q: seq<PathNode>)
    requires ClimbsAtCost(g, start, hidden, rise) && forall u :: cf.neighbors(u) == Neighbors(g, RULES, u)
    requires s == start || (Arrived(g, s) && s != hidden)
    requires IsRoute(cf, s, q) && forall i :: 0 <= i < |q| ==> q[i].Here() != hidden
    ensures rise(EndOf(s, q).x, EndOf(s, q).y) <= rise(s.x, s.y) + Cost(q)
    decreases |q|
  {
    if q != [] {
      StepArrives(g, RULES, s, q[0]);
      assert q[0].Here() != hidden;
      RouteClimbs(g, cf, start, hidden, rise, q[0].Here(), q[1..]);
    }
  }

  /** The search keeps off exactly one state, the one that carries the start's key. */
  lemma OffTheHiddenState(g: Grid, pb: Problem, q: seq<PathNode>)
    requires pb == ProblemOf(g, RULES, pb.start.x, pb.start.y, pb.ex, pb.ey) && pb.start.direction == -1
    requires g.height <= 0x4000 && 0 <= pb.start.x && 0 <= pb.start.y < g.height && IsRoute(pb.cf, pb.start, q)
    ensures pb.Avoids(q) <==> forall i :: 0 <= i < |q| ==> q[i].Here() != Hidden(pb.start.x, pb.start.y)
  {
    ProblemIsSound(g, RULES, pb.start.x, pb.start.y, pb.ex, pb.ey);
    forall i | 0 <= i < |q|
      ensures pb.Key(q[i]) != pb.key(pb.start) <==> q[i].Here() != Hidden(pb.start.x, pb.start.y)
    {
      StepEnters(g, RULES, pb, q, i);
      StartKeyShared(g, pb.start.x, pb.start.y, q[i].Here());
    }
  }

  /** Every route to the goal that the search can follow costs this much. */
  ghost predicate CostsAtLeast(pb: Problem, least: int) {
    forall q, t :: pb.Reaches(q, t) && pb.AtGoal(t) ==> least <= Cost(q)
  }

  lemma ClimbIsPaid(g: Grid, pb: Problem, sx: int, sy: int, hidden: State, rise: (int, int) -> int, least: int)
    requires pb == ProblemOf(g, RULES, sx, sy, pb.ex, pb.ey) && hidden == Hidden(sx, sy)
    requires g.height <= 0x4000 && 0 <= sx && 0 <= sy < g.height && ClimbsAtCost(g, State(sx, sy, -1), hidden, rise)
    requires least == rise(pb.ex, pb.ey) - rise(sx, sy)
    ensures CostsAtLeast(pb, least)
  {
    forall q, t | pb.Reaches(q, t) && pb.AtGoal(t) ensures least <= Cost(q) {
      OffTheHiddenState(g, pb, q);
      RouteClimbs(g, pb.cf, pb.start, hidden, rise, pb.start, q);
    }
  }

  lemma SearchFollows(g: Grid, pb: Problem, sx: int, sy: int, hidden: State, q: seq<PathNode>, t: State)
    requires pb == ProblemOf(g, RULES, sx, sy, pb.ex, pb.ey) && hidden == Hidden(sx, sy)
    requires g.height <= 0x4000 && 0 <= sx && 0 <= sy < g.height && Leads(pb.cf, State(sx, sy, -1), q, t, hidden)
    ensures pb.Reaches(q, t)
  {
    OffTheHiddenState(g, pb, q);
  }

  /** A cheap route, one that the search can follow, and a price of more than twice the cheap one. */
  lemma DearIsOverpaid(g: Grid, pb: Problem, sx: int, sy: int, p: seq<PathNode>, q: seq<PathNode>, t: State, least: int)
    requires pb == ProblemOf(g, RULES, sx, sy, pb.ex, pb.ey)
    requires RouteTo(pb, p) && pb.Reaches(q, t) && pb.AtGoal(t) && CostsAtLeast(pb, least) && 2 * Cost(p) < least
    ensures Overpays(g, RULES, sx, sy, pb.ex, pb.ey)
  {
    assert TwiceIsLess(pb, p);
  }

  // ---------------------------------------------------------------- the far side of a loop

  /** How far along the other ground a tile lies. */
  function Along(w: Loop, x: int, y: int): int {
    if y > w.Head() then Abs(x - w.sx) + (w.sy - y) else Abs(w.e - w.sx) + (w.sy - y) + Abs(w.e - x)
  }

  function FarTiles(w: Loop): int {
    2 * Abs(w.e - w.sx) + (w.sy - w.Head()) - 1
  }

  /** 900 for every tile of the other ground, and 100 for the hill. */
  function LoopRise(w: Loop, x: int, y: int): int {
    if x == w.sx && y == w.Head() then 900 * FarTiles(w) + 100
    else if w.Tile(x, y) == DEAR then 900 * Along(w, x, y)
    else 0
  }

  lemma AlongIsCounted(w: Loop, area: Rect, x: int, y: int)
    requires w.Fits(area) && w.other == DEAR && w.Tile(x, y) == DEAR
    ensures 1 <= Along(w, x, y) <= FarTiles(w)
    ensures Manhattan(x, y, w.sx, w.Head()) == 1 ==> Along(w, x, y) == FarTiles(w)
  {
  }

  /** Next to a tile of the other ground lie the start, the hill, walls, and its own neighbours along the way. */
  lemma AlongIsOneMore(w: Loop, area: Rect, x: int, y: int, d: int)
    requires w.Fits(area) && w.other == DEAR && 0 <= d < 4 && w.Tile(x, y) == DEAR
    ensures var bx, ay := x - Dx(d), y - Dy(d);
            && (w.Tile(bx, ay) == LAND ==> bx == w.sx && ay == w.sy && Along(w, x, y) == 1)
            && (w.Tile(bx, ay) == DEAR ==> Along(w, x, y) <= Along(w, bx, ay) + 1)
  {
  }

  /** Demolition bears no bridge: such a tile is entered from next to it. */
  lemma OntoDear(g: Grid, s: State, n: PathNode)
    requires n in Neighbors(g, RULES, s) && OnTheLevel(g, s) && g.Get(n.x, n.y) == Some(DEAR) && -1 <= s.direction < 4
    ensures 0 <= n.direction < 4 && n.g >= 900
    ensures s.x == n.x - Dx(n.direction) && s.y == n.y - Dy(n.direction)
  {
    var length := StepLands(g, s, n);
    FirmCosts(DEAR, s.direction, n.direction);
  }

  lemma LoopClimbsOntoDear(g: Grid, w: Loop, area: Rect, s: State, n: PathNode)
    requires IsLoop(g, w, area) && w.other == DEAR && g.Get(n.x, n.y) == Some(DEAR)
    requires (s == w.Start() || Arrived(g, s)) && n in Neighbors(g, RULES, s)
    ensures LoopRise(w, n.x, n.y) <= LoopRise(w, s.x, s.y) + n.g
  {
    StandsOnGround(g, w, area, s);
    OntoDear(g, s, n);
    TileThere(g, w, area, n.x, n.y);
    RiseIsOneMore(w, area, n.x, n.y, n.direction, s.x, s.y);
  }

  lemma TileThere(g: Grid, w: Loop, area: Rect, x: int, y: int)
    requires IsLoop(g, w, area) && g.Get(x, y).Some?
    ensures w.Fits(area) && w.Tile(x, y) == g.Get(x, y).value
  {
  }

  lemma RiseIsOneMore(w: Loop, area: Rect, x: int, y: int, d: int, bx: int, ay: int)
    requires w.Fits(area) && w.other == DEAR && 0 <= d < 4 && w.Tile(x, y) == DEAR
    requires bx == x - Dx(d) && ay == y - Dy(d) && w.Tile(bx, ay) != WALL
    ensures LoopRise(w, x, y) <= LoopRise(w, bx, ay) + 900
  {
    AlongIsCounted(w, area, x, y);
    AlongIsOneMore(w, area, x, y, d);
  }

  lemma LoopClimbsOntoHill(g: Grid, w: Loop, area: Rect, s: State, n: PathNode)
    requires IsLoop(g, w, area) && w.other == DEAR && n.x == w.sx && n.y == w.Head() && n.Here() != Hidden(w.sx, w.sy)
    requires (s == w.Start() || Arrived(g, s)) && n in Neighbors(g, RULES, s)
    ensures LoopRise(w, n.x, n.y) <= LoopRise(w, s.x, s.y) + n.g
  {
    OntoHill(g, w, area, s, n);
    AlongIsCounted(w, area, s.x, s.y);
  }

  lemma LoopClimbsAtCost(g: Grid, w: Loop, area: Rect)
    requires IsLoop(g, w, area) && w.other == DEAR
    ensures ClimbsAtCost(g, w.Start(), Hidden(w.sx, w.sy), (x, y) => LoopRise(w, x, y))
  {
    forall s, n | (s == w.Start() || (Arrived(g, s) && s != Hidden(w.sx, w.sy))) && n in Neighbors(g, RULES, s) && n.Here() != Hidden(w.sx, w.sy)
      ensures LoopRise(w, n.x, n.y) <= LoopRise(w, s.x, s.y) + n.g
    {
      if n.x == w.sx && n.y == w.Head() {
        LoopClimbsOntoHill(g, w, area, s, n);
      } else if w.Tile(n.x, n.y) == DEAR {
        StepArrives(g, RULES, s, n);
        LoopClimbsOntoDear(g, w, area, s, n);
      } else {
        StepCosts(g, w, area, s, n);
        LoopRiseIsNatural(w, area, s.x, s.y);
      }
    }
  }

  lemma StepCosts(g: Grid, w: Loop, area: Rect, s: State, n: PathNode)
    requires IsLoop(g, w, area) && w.other == DEAR && (s == w.Start() || Arrived(g, s)) && n in Neighbors(g, RULES, s)
    ensures n.g > 0
  {
    StandsOnGround(g, w, area, s);
    var length := StepLands(g, s, n);
  }

  lemma LoopRiseIsNatural(w: Loop, area: Rect, x: int, y: int)
    requires w.Fits(area) && w.other == DEAR
    ensures LoopRise(w, x, y) >= 0
  {
    if w.Tile(x, y) == DEAR {
      AlongIsCounted(w, area, x, y);
    }
  }

  /** The way around over the other ground. */
  lemma FarLeads(cf: CostFunction, g: Grid, w: Loop, area: Rect) returns (q: seq<PathNode>, t: State)
    requires IsLoop(g, w, area) && w.other == DEAR && Walkable(cf, g)
    ensures Leads(cf, w.Start(), q, t, Hidden(w.sx, w.sy)) && t.x == w.sx && t.y == w.Head()
  {
    var start := w.Start();
    var out, back := if w.e < w.sx then 3 else 1, if w.e < w.sx then 1 else 3;
    var aside, up := Abs(w.e - w.sx), w.sy - w.Head();
    q := Walk(cf, g, start, [], start, out, aside, false, Hidden(w.sx, w.sy));
    var corner := After(start, out, aside);
    q := Walk(cf, g, start, q, corner, 0, up, false, Hidden(w.sx, w.sy));
    var top := After(corner, 0, up);
    q := Walk(cf, g, start, q, top, back, aside, false, Hidden(w.sx, w.sy));
    t := After(top, back, aside);
  }

  /** The way by land is at least twice as cheap as the climb over the other ground. */
  lemma LandIsCheap(w: Loop, area: Rect, p: seq<PathNode>)
    requires w.Fits(area) && w.other == DEAR
    requires Cost(p) <= 100 * (2 * Abs(w.c - w.sx) + (w.sy - w.r) + (w.Head() - w.r)) + (if w.sy % 4 == 2 then 300 else 200)
    ensures LoopRise(w, w.sx, w.Head()) - LoopRise(w, w.sx, w.sy) > 2 * Cost(p)
  {
  }

  lemma LoopIsOverpaid(g: Grid, w: Loop, area: Rect)
    requires IsLoop(g, w, area) && w.other == DEAR && g.height <= 0x4000 && 0 <= area.x1
    ensures Overpays(g, RULES, w.sx, w.sy, w.sx, w.Head())
  {
    WorldIsWalkable(g, w.sx, w.sy, w.sx, w.Head());
    LoopIsOverpaidIn(g, w, area, ProblemOf(g, RULES, w.sx, w.sy, w.sx, w.Head()), Hidden(w.sx, w.sy));
  }

  lemma LoopIsOverpaidIn(g: Grid, w: Loop, area: Rect, pb: Problem, hidden: State)
    requires IsLoop(g, w, area) && w.other == DEAR && g.height <= 0x4000 && 0 <= area.x1 && Walkable(pb.cf, g)
    requires pb == ProblemOf(g, RULES, w.sx, w.sy, w.sx, w.Head()) && hidden == Hidden(w.sx, w.sy)
    ensures Overpays(g, RULES, w.sx, w.sy, w.sx, w.Head())
  {
    var p := NearLeads(pb.cf, g, w, area);
    var q, t := FarLeads(pb.cf, g, w, area);
    SearchFollows(g, pb, w.sx, w.sy, hidden, q, t);
    LandIsCheap(w, area, p);
    LoopClimbsAtCost(g, w, area);
    var least := LoopRise(w, w.sx, w.Head()) - LoopRise(w, w.sx, w.sy);
    ClimbIsPaid(g, pb, w.sx, w.sy, hidden, (x, y) => LoopRise(w, x, y), least);
    DearIsOverpaid(g, pb, w.sx, w.sy, p, q, t, least);
  }

  // ---------------------------------------------------------------- every blind start overpays

  /** And so whether the corridor or the whole map is loaded afresh. */
  lemma BlindStartOverpays(width: int, height: int, sx: int, sy: int, margin: int)
    requires 5 <= width && height <= 0x4000 && 0 <= sx < width && 0 <= sy < height && margin >= 2
    requires HiddenIn(Interior(width, height), sx, sy)
    ensures SomeCorridorIsOverpaid(width, height, sx, sy, margin) && SomeWorldIsOverpaid(width, height, sx, sy)
  {
    var w := LoopFits(width, height, sx, sy, margin, DEAR);
    var world := World(width, height, (x, y) => w.Tile(x, y));
    var corridor := Corridor(width, height, sx, sy, sx, sy / 4, margin);
    LoopShows(world, w, width, height, corridor);
    LoopIsOverpaid(Seen(world, corridor), w, corridor);
    LoopShows(world, w, width, height, Interior(width, height));
    LoopIsOverpaid(Seen(world, Interior(width, height)), w, Interior(width, height));
  }

  /** Where no route enters the hidden state, twice the cost of any route is never exceeded. */
  lemma SightedNeverOverpays(g: Grid, rules: Rules, sx: int, sy: int, ex: int, ey: int)
    requires g.height <= 0x4000 && sy < 0x1_0000 && Sighted(g, rules, sx, sy)
    ensures !Overpays(g, rules, sx, sy, ex, ey)
  {
    SightedStartIsCuttable(g, rules, sx, sy, ex, ey);
    ProblemIsSound(g, rules, sx, sy, ex, ey);
    var pb := ProblemOf(g, rules, sx, sy, ex, ey);
    forall p | RouteTo(pb, p) ensures !TwiceIsLess(pb, p) {
      var q, t :| pb.Reaches(q, t) && pb.AtGoal(t) && Cost(q) <= Cost(p);
      RouteStays(pb, pb.start, p);
    }
  }

  /** So the bound of two can be exceeded from exactly the starts whose hidden state the map can show. */
  lemma OverpayingIsExact(width: int, height: int, sx: int, sy: int, margin: int)
    requires 5 <= width && height <= 0x4000 && 0 <= sx < width && 0 <= sy < height
    ensures SomeCorridorIsOverpaid(width, height, sx, sy, margin) ==> HiddenIn(Interior(width, height), sx, sy)
    ensures margin >= 2 && HiddenIn(Interior(width, height), sx, sy) ==> SomeCorridorIsOverpaid(width, height, sx, sy, margin)
    ensures HiddenIn(Interior(width, height), sx, sy) <==> SomeWorldIsOverpaid(width, height, sx, sy)
  {
    if HiddenIn(Interior(width, height), sx, sy) {
      BlindStartOverpays(width, height, sx, sy, if margin >= 2 then margin else 2);
    } else {
      forall world: Grid, rules: Rules, ex: int, ey: int | world.width == width && world.height == height
        ensures !Overpays(Seen(world, Interior(width, height)), rules, sx, sy, ex, ey)
        ensures !Overpays(Seen(world, Corridor(width, height, sx, sy, ex, ey, margin)), rules, sx, sy, ex, ey)
      {
        UnseenNeverOverpays(world, Interior(width, height), rules, sx, sy, ex, ey);
        UnseenNeverOverpays(world, Corridor(width, height, sx, sy, ex, ey, margin), rules, sx, sy, ex, ey);
      }
    }
  }

  lemma UnseenNeverOverpays(world: Grid, area: Rect, rules: Rules, sx: int, sy: int, ex: int, ey: int)
    requires world.height <= 0x4000 && sy < 0x1_0000 && !HiddenIn(area, sx, sy)
    ensures !Overpays(Seen(world, area), rules, sx, sy, ex, ey)
  {
    UnloadedIsSighted(Seen(world, area), rules, sx, sy);
    SightedNeverOverpays(Seen(world, area), rules, sx, sy, ex, ey);
  }
}
