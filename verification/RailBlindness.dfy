/**
  The starts from which the search can miss a route: exactly those whose hidden state is on the map.
  For each of them a world is built in which the one way to the goal passes through the hidden
  state, in the very corridor that is loaded for that goal.
*/
module RailBlindness {
  import opened PathGraph
  import opened StateKeys
  import opened Tiles
  import opened TileCaches
  import opened RoutePlanning
  import opened Rail
  import opened RailRoutes
  import opened RailWorlds

  /** Some route leads to the goal, yet none that the search can follow does. */
  ghost predicate Misses(g: Grid, rules: Rules, sx: int, sy: int, ex: int, ey: int) {
    var pb := ProblemOf(g, rules, sx, sy, ex, ey);
    && (exists p :: RouteTo(pb, p))
    && (forall q, t :: pb.Reaches(q, t) ==> !pb.AtGoal(t))
  }

  /** Some world of this size and some goal: loading the corridor to it hides a route in the corridor. */
  ghost predicate SomeCorridorIsMissed(width: int, height: int, sx: int, sy: int, margin: int) {
    exists world: Grid, rules: Rules, ex: int, ey: int ::
      && world.width == width && world.height == height && IsWorld(world)
      && Misses(Seen(world, Corridor(width, height, sx, sy, ex, ey, margin)), rules, sx, sy, ex, ey)
  }

  /** Some world of this size and some goal: loading the whole map hides a route. */
  ghost predicate SomeWorldIsMissed(width: int, height: int, sx: int, sy: int) {
    exists world: Grid, rules: Rules, ex: int, ey: int ::
      && world.width == width && world.height == height && IsWorld(world)
      && Misses(Seen(world, Interior(width, height)), rules, sx, sy, ex, ey)
  }

  /**
    Every step onto the goal tile, from the start or from a loaded tile entered with a heading,
    enters or leaves a state other than the start that carries the start's key.
  */
  ghost predicate Sealed(g: Grid, rules: Rules, start: State, ex: int, ey: int) {
    forall s, n :: (s == start || Arrived(g, s)) && n in Neighbors(g, rules, s) && n.x == ex && n.y == ey ==>
      StateKey(n.Here()) == StateKey(start) || (s != start && StateKey(s) == StateKey(start))
  }

  /** The last step of a route that avoids the start's key. */
  lemma LastStep(g: Grid, rules: Rules, pb: Problem, q: seq<PathNode>, t: State) returns (s: State, n: PathNode)
    requires pb == ProblemOf(g, rules, pb.start.x, pb.start.y, pb.ex, pb.ey)
    requires pb.Reaches(q, t) && q != []
    ensures n in Neighbors(g, rules, s) && n.Here() == t && pb.Key(n) != pb.key(pb.start)
    ensures s == pb.start || (Arrived(g, s) && pb.key(s) != pb.key(pb.start))
  {
    var i := |q| - 1;
    s, n := Before(pb.start, q, i), q[i];
    StepAt(pb.cf, pb.start, q, i);
    RouteSplit(pb.cf, pb.start, q, |q|);
    assert q[..|q|] == q;
    if i > 0 {
      StepAt(pb.cf, pb.start, q, i - 1);
      StepArrives(g, rules, Before(pb.start, q, i - 1), q[i - 1]);
      assert pb.Key(q[i - 1]) != pb.key(pb.start);
    }
  }

  lemma SealedGoalIsMissed(g: Grid, rules: Rules, sx: int, sy: int, ex: int, ey: int)
    requires Sealed(g, rules, State(sx, sy, -1), ex, ey) && !(sx == ex && sy == ey)
    ensures var pb := ProblemOf(g, rules, sx, sy, ex, ey);
            forall q, t :: pb.Reaches(q, t) ==> !pb.AtGoal(t)
  {
    var pb := ProblemOf(g, rules, sx, sy, ex, ey);
    forall q, t | pb.Reaches(q, t) ensures !pb.AtGoal(t) {
      if q != [] {
        var s, n := LastStep(g, rules, pb, q, t);
      }
    }
  }

  // ---------------------------------------------------------------- the worlds that are missed

  lemma HiddenSharesKey(w: Loop, area: Rect)
    requires w.Fits(area) && 0 <= area.x1 && 0 <= area.y1 && area.y2 < 0x4000
    ensures StateKey(Hidden(w.sx, w.sy)) == StateKey(w.Start())
  {
    DirectedKey(Hidden(w.sx, w.sy));
    UndirectedKey(w.Start());
  }

  lemma LoopIsSealed(g: Grid, w: Loop, area: Rect)
    requires IsLoop(g, w, area) && w.other == WALL && 0 <= area.x1 && 0 <= area.y1 && area.y2 < 0x4000
    ensures Sealed(g, RULES, w.Start(), w.sx, w.Head())
  {
    forall s, n | (s == w.Start() || Arrived(g, s)) && n in Neighbors(g, RULES, s) && n.x == w.sx && n.y == w.Head()
      ensures StateKey(n.Here()) == StateKey(w.Start())
    {
      OntoHill(g, w, area, s, n);
      HiddenSharesKey(w, area);
    }
  }

  lemma LoopIsMissed(g: Grid, w: Loop, area: Rect)
    requires IsLoop(g, w, area) && w.other == WALL && 0 <= area.x1 && 0 <= area.y1 && area.y2 < 0x4000
    ensures Misses(g, RULES, w.sx, w.sy, w.sx, w.Head())
  {
    var pb := ProblemOf(g, RULES, w.sx, w.sy, w.sx, w.Head());
    WorldIsWalkable(g, w.sx, w.sy, w.sx, w.Head());
    var p := NearLeads(pb.cf, g, w, area);
    assert RouteTo(pb, p);
    LoopIsSealed(g, w, area);
    SealedGoalIsMissed(g, RULES, w.sx, w.sy, w.sx, w.Head());
  }

  // ---------------------------------------------------------------- the exact condition

  /** Where no route enters the hidden state nothing is missed. */
  lemma SightedMissesNothing(g: Grid, rules: Rules, sx: int, sy: int, ex: int, ey: int)
    requires g.height <= 0x4000 && sy < 0x1_0000 && Sighted(g, rules, sx, sy)
    ensures !Misses(g, rules, sx, sy, ex, ey)
  {
    SightedStartIsCuttable(g, rules, sx, sy, ex, ey);
  }

  /** A cache that holds no tiles outside an area misses nothing for starts whose hidden state is not shown there. */
  lemma UnseenMissesNothing(world: Grid, area: Rect, rules: Rules, sx: int, sy: int, ex: int, ey: int)
    requires world.height <= 0x4000 && sy < 0x1_0000 && !HiddenIn(area, sx, sy)
    ensures Sighted(Seen(world, area), rules, sx, sy) && !Misses(Seen(world, area), rules, sx, sy, ex, ey)
  {
    UnloadedIsSighted(Seen(world, area), rules, sx, sy);
    SightedMissesNothing(Seen(world, area), rules, sx, sy, ex, ey);
  }

  /** With the hidden row above the corridor nothing is missed. */
  lemma CorridorBelowHiddenRow(world: Grid, rules: Rules, sx: int, sy: int, ex: int, ey: int, margin: int)
    requires world.height <= 0x4000 && sy < 0x1_0000 && sy / 4 < Max(1, Min(sy, ey) - margin)
    ensures var g := Seen(world, Corridor(world.width, world.height, sx, sy, ex, ey, margin));
            Sighted(g, rules, sx, sy) && !Misses(g, rules, sx, sy, ex, ey)
  {
    UnseenMissesNothing(world, Corridor(world.width, world.height, sx, sy, ex, ey, margin), rules, sx, sy, ex, ey);
  }

  lemma BlindStartMisses(width: int, height: int, sx: int, sy: int, margin: int)
    requires 5 <= width && height <= 0x4000 && 0 <= sx < width && 0 <= sy < height && margin >= 2
    requires HiddenIn(Interior(width, height), sx, sy)
    ensures SomeCorridorIsMissed(width, height, sx, sy, margin) && SomeWorldIsMissed(width, height, sx, sy)
  {
    var w := LoopFits(width, height, sx, sy, margin, WALL);
    var world := World(width, height, (x, y) => w.Tile(x, y));
    var corridor := Corridor(width, height, sx, sy, sx, sy / 4, margin);
    LoopShows(world, w, width, height, corridor);
    LoopIsMissed(Seen(world, corridor), w, corridor);
    LoopShows(world, w, width, height, Interior(width, height));
    LoopIsMissed(Seen(world, Interior(width, height)), w, Interior(width, height));
  }

  /**
    For a start on the map whose hidden state the map can show, and for no other, some world and
    goal are such that a freshly loaded map holds a route that the search cannot follow; and
    likewise a freshly loaded corridor, when its margin leaves room for a detour.
  */
  lemma BlindnessIsExact(width: int, height: int, sx: int, sy: int, margin: int)
    requires 5 <= width && height <= 0x4000 && 0 <= sx < width && 0 <= sy < height
    ensures SomeCorridorIsMissed(width, height, sx, sy, margin) ==> HiddenIn(Interior(width, height), sx, sy)
    ensures margin >= 2 && HiddenIn(Interior(width, height), sx, sy) ==> SomeCorridorIsMissed(width, height, sx, sy, margin)
    ensures HiddenIn(Interior(width, height), sx, sy) <==> SomeWorldIsMissed(width, height, sx, sy)
  {
    if HiddenIn(Interior(width, height), sx, sy) {
      BlindStartMisses(width, height, sx, sy, if margin >= 2 then margin else 2);
    } else {
      forall world: Grid, rules: Rules, ex: int, ey: int | world.width == width && world.height == height
        ensures !Misses(Seen(world, Interior(width, height)), rules, sx, sy, ex, ey)
        ensures !Misses(Seen(world, Corridor(width, height, sx, sy, ex, ey, margin)), rules, sx, sy, ex, ey)
      {
        UnseenMissesNothing(world, Interior(width, height), rules, sx, sy, ex, ey);
        UnseenMissesNothing(world, Corridor(width, height, sx, sy, ex, ey, margin), rules, sx, sy, ex, ey);
      }
    }
  }
}
