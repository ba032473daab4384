/**
  Whole rail routes: their geometry, and the search's answer, which depends on whether the start's
  undirected key coincides with the key of a state that can be entered.
*/
module RailRoutes {
  import opened PathGraph
  import opened Itineraries
  import opened Popping
  import opened StateKeys
  import opened Tiles
  import opened Astar
  import opened RoutePlanning
  import opened Rail

  // ---------------------------------------------------------------- geometry

  /** Displacement from one entry of a path to the next. */
  function StepX(path: seq<PathStep>, i: nat): int
    requires i + 1 < |path|
  {
    path[i + 1].x - path[i].x
  }

  function StepY(path: seq<PathStep>, i: nat): int
    requires i + 1 < |path|
  {
    path[i + 1].y - path[i].y
  }

  /** Successive displacements never point against each other. */
  ghost predicate NeverTurnsBack(path: seq<PathStep>) {
    forall i :: 0 <= i < |path| - 2 ==>
      !Opposed(StepX(path, i), StepX(path, i + 1)) && !Opposed(StepY(path, i), StepY(path, i + 1))
  }

  function Sign(n: int): int {
    if n > 0 then 1 else if n < 0 then -1 else 0
  }

  predicate Opposed(a: int, b: int) {
    a < 0 < b || b < 0 < a
  }

  /**
    A gap of more than one tile runs straight for 2 to 6 tiles between two loaded tiles of equal
    height, and continues the displacement before it.
  */
  ghost predicate GapIsStraight(g: Grid, path: seq<PathStep>, i: nat)
    requires i + 1 < |path|
  {
    var dx, dy := StepX(path, i), StepY(path, i);
    && 1 <= Abs(dx) + Abs(dy) <= 6 && (dx == 0 || dy == 0)
    && (Abs(dx) + Abs(dy) > 1 ==>
          && g.Get(path[i].x, path[i].y).Some? && g.Get(path[i + 1].x, path[i + 1].y).Some?
          && g.Get(path[i].x, path[i].y).value.height == g.Get(path[i + 1].x, path[i + 1].y).value.height
          && (i > 0 ==> Sign(StepX(path, i - 1)) == Sign(dx) && Sign(StepY(path, i - 1)) == Sign(dy)))
  }

  ghost predicate GapsAreStraight(g: Grid, path: seq<PathStep>) {
    forall i :: 0 <= i < |path| - 1 ==> GapIsStraight(g, path, i)
  }

  /** A hop's displacement by heading. */
  lemma HopDisplacement(g: Grid, s: State, n: PathNode, length: int)
    requires Hop(g, s, n, length)
    ensures n.direction == 0 ==> n.x == s.x && n.y == s.y - length
    ensures n.direction == 1 ==> n.x == s.x + length && n.y == s.y
    ensures n.direction == 2 ==> n.x == s.x && n.y == s.y + length
    ensures n.direction == 3 ==> n.x == s.x - length && n.y == s.y
  {
  }

  lemma StepGap(g: Grid, rules: Rules, pb: Problem, path: seq<PathStep>, route: seq<PathNode>, i: nat) returns (length: int)
    requires pb == ProblemOf(g, rules, pb.start.x, pb.start.y, pb.ex, pb.ey)
    requires IsRoute(pb.cf, pb.start, route) && Visits(pb, path, route) && i < |route|
    ensures Hop(g, Before(pb.start, route, i), route[i], length)
    ensures path[i].x == Before(pb.start, route, i).x && path[i].y == Before(pb.start, route, i).y
    ensures path[i + 1].x == route[i].x && path[i + 1].y == route[i].y
  {
    StepAt(pb.cf, pb.start, route, i);
    length := StepIsHop(g, rules, Before(pb.start, route, i), route[i]);
  }

  /** Displacement of `length` tiles in a heading. */
  predicate Displaces(d: int, length: int, dx: int, dy: int) {
    && 0 <= d < 4 && length >= 1
    && dx == (if d == 1 then length else if d == 3 then -length else 0)
    && dy == (if d == 0 then -length else if d == 2 then length else 0)
  }

  lemma TwoHops(a: int, b: int, la: int, lb: int, ax: int, ay: int, cx: int, cy: int)
    requires Displaces(a, la, ax, ay) && Displaces(b, lb, cx, cy) && !Reverses(a, b)
    ensures !Opposed(ax, cx) && !Opposed(ay, cy)
    ensures a == b ==> Sign(ax) == Sign(cx) && Sign(ay) == Sign(cy)
  {
  }

  /** Every gap of the path is a displacement in its step's heading, and no step turns back. */
  ghost predicate HopsAlong(path: seq<PathStep>, route: seq<PathNode>) {
    && |path| == |route| + 1
    && (forall i :: 0 <= i < |route| ==>
          Displaces(route[i].direction, Abs(StepX(path, i)) + Abs(StepY(path, i)), StepX(path, i), StepY(path, i)))
    && (forall i :: 0 < i < |route| ==> !Reverses(route[i - 1].direction, route[i].direction))
  }

  lemma RouteHopsAlong(g: Grid, rules: Rules, pb: Problem, path: seq<PathStep>, route: seq<PathNode>)
    requires pb == ProblemOf(g, rules, pb.start.x, pb.start.y, pb.ex, pb.ey)
    requires IsRoute(pb.cf, pb.start, route) && Visits(pb, path, route)
    ensures HopsAlong(path, route)
  {
    forall i | 0 <= i < |route|
      ensures Displaces(route[i].direction, Abs(StepX(path, i)) + Abs(StepY(path, i)), StepX(path, i), StepY(path, i))
      ensures !Reverses(Before(pb.start, route, i).direction, route[i].direction)
    {
      var length := StepGap(g, rules, pb, path, route, i);
      HopDisplacement(g, Before(pb.start, route, i), route[i], length);
    }
  }

  /** Two successive gaps do not point against each other, and agree when the headings do. */
  predicate Follows(path: seq<PathStep>, i: nat, straight: bool)
    requires 0 < i < |path| - 1
  {
    var ax, ay, cx, cy := StepX(path, i - 1), StepY(path, i - 1), StepX(path, i), StepY(path, i);
    !Opposed(ax, cx) && !Opposed(ay, cy) && (straight ==> Sign(ax) == Sign(cx) && Sign(ay) == Sign(cy))
  }

  lemma TurnShape(path: seq<PathStep>, route: seq<PathNode>, i: nat)
    requires HopsAlong(path, route) && 0 < i < |route|
    ensures 0 <= route[i - 1].direction < 4
    ensures Follows(path, i, route[i - 1].direction == route[i].direction)
  {
    var before, after := Abs(StepX(path, i - 1)) + Abs(StepY(path, i - 1)), Abs(StepX(path, i)) + Abs(StepY(path, i));
    assert Displaces(route[i - 1].direction, before, StepX(path, i - 1), StepY(path, i - 1));
    TwoHops(route[i - 1].direction, route[i].direction, before, after,
            StepX(path, i - 1), StepY(path, i - 1), StepX(path, i), StepY(path, i));
  }

  lemma GapOfHop(g: Grid, path: seq<PathStep>, i: nat, s: State, n: PathNode, length: int)
    requires i + 1 < |path| && Hop(g, s, n, length)
    requires path[i].x == s.x && path[i].y == s.y && path[i + 1].x == n.x && path[i + 1].y == n.y
    requires i > 0 ==> 0 <= s.direction < 4 && Follows(path, i, s.direction == n.direction)
    ensures GapIsStraight(g, path, i)
  {
    HopDisplacement(g, s, n, length);
  }

  lemma GapsOfRoute(g: Grid, rules: Rules, pb: Problem, path: seq<PathStep>, route: seq<PathNode>)
    requires pb == ProblemOf(g, rules, pb.start.x, pb.start.y, pb.ex, pb.ey)
    requires IsRoute(pb.cf, pb.start, route) && Visits(pb, path, route) && HopsAlong(path, route)
    ensures GapsAreStraight(g, path)
  {
    forall i | 0 <= i < |path| - 1 ensures GapIsStraight(g, path, i) {
      var length := StepGap(g, rules, pb, path, route, i);
      if i > 0 {
        TurnShape(path, route, i);
      }
      GapOfHop(g, path, i, Before(pb.start, route, i), route[i], length);
    }
  }

  lemma TurnsOfRoute(path: seq<PathStep>, route: seq<PathNode>)
    requires HopsAlong(path, route)
    ensures NeverTurnsBack(path)
  {
    forall i | 0 <= i < |path| - 2
      ensures !Opposed(StepX(path, i), StepX(path, i + 1)) && !Opposed(StepY(path, i), StepY(path, i + 1))
    {
      TurnShape(path, route, i + 1);
      assert Follows(path, i + 1, route[i].direction == route[i + 1].direction);
    }
  }

  /** A path along a rail route never turns back, and every longer gap is a straight level jump. */
  lemma RouteGeometry(g: Grid, rules: Rules, pb: Problem, path: seq<PathStep>, route: seq<PathNode>)
    requires pb == ProblemOf(g, rules, pb.start.x, pb.start.y, pb.ex, pb.ey)
    requires IsRoute(pb.cf, pb.start, route) && Visits(pb, path, route)
    ensures NeverTurnsBack(path) && GapsAreStraight(g, path)
  {
    RouteHopsAlong(g, rules, pb, path, route);
    GapsOfRoute(g, rules, pb, path, route);
    TurnsOfRoute(path, route);
  }

  // ---------------------------------------------------------------- the start's undirected key

  /**
    The start is filed without a heading, as column * 2^16 + row. The same number is the key of the
    tile at a quarter of that row, entered with heading row mod 4: the search takes that state for
    the start and never goes there.
  */
  function Hidden(sx: int, sy: int): State {
    State(sx, sy / 4, sy % 4)
  }

  /** Some route from the start enters the hidden state. */
  ghost predicate HiddenIsEntered(g: Grid, rules: Rules, sx: int, sy: int) {
    exists p :: IsRoute(ProblemOf(g, rules, sx, sy, sx, sy).cf, State(sx, sy, -1), p) && EndOf(State(sx, sy, -1), p) == Hidden(sx, sy)
  }

  /** No route enters the hidden state, or it stands on the start's own tile. */
  ghost predicate Sighted(g: Grid, rules: Rules, sx: int, sy: int) {
    sy == 0 || !HiddenIsEntered(g, rules, sx, sy)
  }

  /** The hidden state stands on another tile that is loaded, and so is the tile to enter it from. */
  predicate StartIsBlind(g: Grid, sx: int, sy: int) {
    var h := Hidden(sx, sy);
    sy > 0 && g.Get(h.x, h.y).Some? && g.Get(h.x - Dx(h.direction), h.y - Dy(h.direction)).Some?
  }

  /** An enterable state shares the start's key only if it is that one state. */
  lemma StartKeyShared(g: Grid, sx: int, sy: int, s: State)
    requires g.height <= 0x4000 && sy < 0x1_0000 && Enterable(g, sx, sy, s)
    ensures StateKey(s) == StateKey(State(sx, sy, -1)) <==> s == Hidden(sx, sy)
  {
    DirectedKey(s);
    NegativeKey(State(sx, sy, -1));
    if sy >= 0 {
      UndirectedKey(State(sx, sy, -1));
      QuarterRow(sx, sy, s.x, s.y, s.direction);
    }
  }

  /** A row below 2^16 is a row below 2^14 and a heading in one number. */
  lemma QuarterRow(sx: int, sy: nat, x: int, y: nat, d: int)
    requires sy < 0x1_0000 && y < 0x4000 && 0 <= d < 4
    ensures x * 0x1_0000 + y * 4 + d == sx * 0x1_0000 + sy <==> x == sx && y == sy / 4 && d == sy % 4
  {
  }

  /** A state on a loaded tile, with a loaded tile or the start's tile behind it. */
  ghost predicate Backed(g: Grid, sx: int, sy: int, t: State) {
    var bx, ay := t.x - Dx(t.direction), t.y - Dy(t.direction);
    g.Get(t.x, t.y).Some? && (g.Get(bx, ay).Some? || (bx == sx && ay == sy))
  }

  lemma StepIsBacked(g: Grid, rules: Rules, sx: int, sy: int, s: State, n: PathNode)
    requires n in Neighbors(g, rules, s) && ((s.x == sx && s.y == sy) || g.Get(s.x, s.y).Some?)
    ensures Backed(g, sx, sy, n.Here())
  {
    var length := StepIsHop(g, rules, s, n);
    HopIsBacked(g, sx, sy, s, n, length);
  }

  lemma HopIsBacked(g: Grid, sx: int, sy: int, s: State, n: PathNode, length: int)
    requires Hop(g, s, n, length) && ((s.x == sx && s.y == sy) || g.Get(s.x, s.y).Some?)
    ensures Backed(g, sx, sy, n.Here())
  {
    assert length == 1 ==> Dx(n.direction) * length == Dx(n.direction) && Dy(n.direction) * length == Dy(n.direction);
  }

  lemma {:induction false} RouteIsBacked(g: Grid, rules: Rules, cf: CostFunction, sx: int, sy: int, s: State, p: seq<PathNode>)
    requires (forall u :: cf.neighbors(u) == Neighbors(g, rules, u)) && IsRoute(cf, s, p) && p != []
    requires (s.x == sx && s.y == sy) || g.Get(s.x, s.y).Some?
    ensures Backed(g, sx, sy, EndOf(s, p))
    decreases |p|
  {
    StepIsBacked(g, rules, sx, sy, s, p[0]);
    if |p| > 1 {
      RouteIsBacked(g, rules, cf, sx, sy, p[0].Here(), p[1..]);
    }
  }

  lemma HiddenIsBackedIff(g: Grid, sx: int, sy: int)
    requires sy != 0
    ensures Backed(g, sx, sy, Hidden(sx, sy)) <==> StartIsBlind(g, sx, sy)
  {
  }

  /** A start whose hidden state, or the tile behind it, is not loaded is sighted. */
  lemma UnloadedIsSighted(g: Grid, rules: Rules, sx: int, sy: int)
    requires !StartIsBlind(g, sx, sy)
    ensures Sighted(g, rules, sx, sy)
  {
    var cf, start := ProblemOf(g, rules, sx, sy, sx, sy).cf, State(sx, sy, -1);
    if sy != 0 && HiddenIsEntered(g, rules, sx, sy) {
      var p :| IsRoute(cf, start, p) && EndOf(start, p) == Hidden(sx, sy);
      RouteIsBacked(g, rules, cf, sx, sy, start, p);
      HiddenIsBackedIff(g, sx, sy);
    }
  }

  lemma NoHeadingTileCost(rules: Rules, t: TileData, entry: int, d: int)
    requires 0 <= entry < 4 && 0 <= d < 4 && !Reverses(entry, d)
    ensures TileCost(rules, t, entry, d) >= 0 ==> 0 <= TileCost(rules, t, -1, d) <= TileCost(rules, t, entry, d)
    ensures TileCost(rules, t, entry, d) < 0 ==> TileCost(rules, t, -1, d) < 0
  {
  }

  lemma NoHeadingToward(g: Grid, rules: Rules, x: int, y: int, entry: int, d: int, n: PathNode) returns (m: PathNode)
    requires 0 <= entry < 4 && 0 <= d < 4 && n in MovesToward(g, rules, State(x, y, entry), d)
    ensures m in MovesToward(g, rules, State(x, y, -1), d) && m.Here() == n.Here() && m.g <= n.g
  {
    var t := g.Get(x + Dx(d), y + Dy(d)).value;
    NoHeadingTileCost(rules, t, entry, d);
    m := if TileCost(rules, t, entry, d) >= 0 then TileStep(rules, State(x, y, -1), d, t) else n;
  }

  /** Standing on a tile without a heading allows every step that a heading allows, no dearer. */
  lemma NoHeadingIsNoDearer(g: Grid, rules: Rules, x: int, y: int, entry: int, n: PathNode) returns (m: PathNode)
    requires n in Neighbors(g, rules, State(x, y, entry)) && 0 <= entry < 4
    ensures m in Neighbors(g, rules, State(x, y, -1)) && m.Here() == n.Here() && m.g <= n.g
  {
    var d :| 0 <= d < 4 && n in MovesToward(g, rules, State(x, y, entry), d);
    m := NoHeadingToward(g, rules, x, y, entry, d, n);
  }

  /** A route that comes back to the start's tile, replayed from there with its next step changed. */
  lemma ReplayFromStart(g: Grid, rules: Rules, pb: Problem, rest: seq<PathNode>, d: int) returns (q: seq<PathNode>)
    requires pb == ProblemOf(g, rules, pb.start.x, pb.start.y, pb.ex, pb.ey) && 0 <= d < 4 && pb.start.direction == -1
    requires rest != [] && IsRoute(pb.cf, State(pb.start.x, pb.start.y, d), rest)
    ensures IsRoute(pb.cf, pb.start, q) && |q| == |rest| && Cost(q) <= Cost(rest)
    ensures EndOf(pb.start, q) == EndOf(State(pb.start.x, pb.start.y, d), rest)
  {
    var m := NoHeadingIsNoDearer(g, rules, pb.start.x, pb.start.y, d, rest[0]);
    q := [m] + rest[1..];
    assert q[1..] == rest[1..];
  }

  /** From a sighted start a route that passes the start's tile again can be cut short there. */
  lemma {:induction false} CutAtStartTile(g: Grid, rules: Rules, pb: Problem, p: seq<PathNode>)
    returns (q: seq<PathNode>, t: State)
    requires pb == ProblemOf(g, rules, pb.start.x, pb.start.y, pb.ex, pb.ey)
    requires g.height <= 0x4000 && pb.start.y < 0x1_0000 && Sighted(g, rules, pb.start.x, pb.start.y)
    requires pb.WellFormed() && RouteTo(pb, p)
    ensures pb.Reaches(q, t) && pb.AtGoal(t) && Cost(q) <= Cost(p)
    decreases |p|
  {
    if pb.Avoids(p) {
      q, t := p, EndOf(pb.start, p);
    } else {
      var i :| 0 <= i < |p| && pb.Key(p[i]) == pb.key(pb.start);
      var rest := ComesBack(g, rules, pb, p, i);
      if rest == [] {
        q, t := [], pb.start;
      } else {
        var shorter := ReplayFromStart(g, rules, pb, rest, 0);
        q, t := CutAtStartTile(g, rules, pb, shorter);
      }
    }
  }

  lemma ComesBack(g: Grid, rules: Rules, pb: Problem, p: seq<PathNode>, i: nat) returns (rest: seq<PathNode>)
    requires pb == ProblemOf(g, rules, pb.start.x, pb.start.y, pb.ex, pb.ey)
    requires g.height <= 0x4000 && pb.start.y < 0x1_0000 && Sighted(g, rules, pb.start.x, pb.start.y)
    requires pb.WellFormed() && IsRoute(pb.cf, pb.start, p) && i < |p| && pb.Key(p[i]) == pb.key(pb.start)
    ensures |rest| < |p| && 0 <= Cost(rest) <= Cost(p)
    ensures var u := State(pb.start.x, pb.start.y, 0);
            IsRoute(pb.cf, u, rest) && EndOf(u, rest) == EndOf(pb.start, p)
  {
    StepEnters(g, rules, pb, p, i);
    StartKeyShared(g, pb.start.x, pb.start.y, p[i].Here());
    RouteSplit(pb.cf, pb.start, p, i + 1);
    EntersHidden(g, rules, pb, p[..i + 1]);
    RouteStays(pb, pb.start, p[..i + 1]);
    RouteStays(pb, p[i].Here(), p[i + 1..]);
    rest := p[i + 1..];
  }

  lemma EntersHidden(g: Grid, rules: Rules, pb: Problem, p: seq<PathNode>)
    requires pb == ProblemOf(g, rules, pb.start.x, pb.start.y, pb.ex, pb.ey) && pb.start.direction == -1
    requires IsRoute(pb.cf, pb.start, p) && EndOf(pb.start, p) == Hidden(pb.start.x, pb.start.y)
    ensures HiddenIsEntered(g, rules, pb.start.x, pb.start.y)
  {
    assert pb.cf == ProblemOf(g, rules, pb.start.x, pb.start.y, pb.start.x, pb.start.y).cf;
  }

  lemma StepEnters(g: Grid, rules: Rules, pb: Problem, p: seq<PathNode>, i: nat)
    requires pb == ProblemOf(g, rules, pb.start.x, pb.start.y, pb.ex, pb.ey)
    requires pb.WellFormed() && IsRoute(pb.cf, pb.start, p) && i < |p|
    ensures Enterable(g, pb.start.x, pb.start.y, p[i].Here())
  {
    StepAt(pb.cf, pb.start, p, i);
    RouteSplit(pb.cf, pb.start, p, i);
    RouteStays(pb, pb.start, p[..i]);
    var length := StepIsHop(g, rules, Before(pb.start, p, i), p[i]);
    HopStaysEnterable(g, pb.start.x, pb.start.y, Before(pb.start, p, i), p[i], length);
  }

  lemma SightedStartIsCuttable(g: Grid, rules: Rules, sx: int, sy: int, ex: int, ey: int)
    requires g.height <= 0x4000 && sy < 0x1_0000 && Sighted(g, rules, sx, sy)
    ensures Cuttable(ProblemOf(g, rules, sx, sy, ex, ey))
  {
    var pb := ProblemOf(g, rules, sx, sy, ex, ey);
    ProblemIsSound(g, rules, sx, sy, ex, ey);
    forall p | RouteTo(pb, p) ensures exists q, t :: pb.Reaches(q, t) && pb.AtGoal(t) && Cost(q) <= Cost(p) {
      var q, t := CutAtStartTile(g, rules, pb, p);
    }
  }

  // ---------------------------------------------------------------- the answer

  lemma RailPathIsTold(g: Grid, rules: Rules, pb: Problem, path: seq<PathStep>, route: seq<PathNode>)
    requires pb == ProblemOf(g, rules, pb.start.x, pb.start.y, pb.ex, pb.ey) && pb.WellFormed() && pb.start.direction == -1
    requires IsRoute(pb.cf, pb.start, route) && Visits(pb, path, route) && SameWork(path, route)
    ensures PathIsTold(g, GroundOf(rules), path)
  {
    forall s, n | s in pb.dom && n in pb.cf.neighbors(s) ensures StepIsTold(g, GroundOf(rules), s, n) {
      StepTells(g, rules, s, n);
    }
    RouteIsTold(g, GroundOf(rules), pb, path, route);
  }

  /** What holds of every rail search: the path is sound and well shaped; the rest is up to the start's key. */
  method PlanRail(g: Grid, rules: Rules, sx: int, sy: int, ex: int, ey: int, maxIterations: int)
    returns (r: PathResult, ghost route: seq<PathNode>)
    requires g.height <= 0x4000 && sy < 0x1_0000
    ensures var pb := ProblemOf(g, rules, sx, sy, ex, ey);
            && (r.found ==> RouteTo(pb, route) && pb.Reaches(route, EndOf(pb.start, route)))
            && (r.found ==> Visits(pb, r.path, route) && SameWork(r.path, route) && Cost(route) == r.totalCost)
    ensures r.found ==> NeverTurnsBack(r.path) && GapsAreStraight(g, r.path) && PathIsTold(g, GroundOf(rules), r.path)
    ensures var pb := ProblemOf(g, rules, sx, sy, ex, ey);
            Sighted(g, rules, sx, sy) ==>
              && (r.found ==> WithinOfAll(pb, r.totalCost, if Railless(g) then 1 else 2))
              && (!r.found && r.iterations < maxIterations ==> forall p :: !RouteTo(pb, p))
    ensures var pb := ProblemOf(g, rules, sx, sy, ex, ey);
            var w := if Railless(g) then 1 else 2;
            && (r.found ==> forall p, t :: pb.Reaches(p, t) && pb.AtGoal(t) ==> r.totalCost <= w * Cost(p))
            && (!r.found && r.iterations < maxIterations ==> forall p, t :: pb.AtGoal(t) ==> !pb.Reaches(p, t))
    ensures Enough(ProblemOf(g, rules, sx, sy, ex, ey), maxIterations) ==> r.found || r.iterations < maxIterations
  {
    var pb := ProblemOf(g, rules, sx, sy, ex, ey);
    ProblemIsSound(g, rules, sx, sy, ex, ey);
    ghost var popped;
    r, route, popped := FindPath(pb, maxIterations);
    if r.found {
      RouteGeometry(g, rules, pb, r.path, route);
      RailPathIsTold(g, rules, pb, r.path, route);
    }
    ghost var sighted := Sighted(g, rules, sx, sy);
    if sighted {
      SightedStartIsCuttable(g, rules, sx, sy, ex, ey);
      if r.found {
        AllRoutesWithin(pb, r.totalCost, if Railless(g) then 1 else 2);
      }
    }
  }
}
