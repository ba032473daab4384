/**
  Worlds for the rail search: what a step in them can land on, and walks over their firm ground.
  Walls of stations hem every route in, and heights keep bridges from the goal.
*/
module RailWorlds {
  import opened Options
  import opened PathGraph
  import opened Tiles
  import opened TileCaches
  import opened Crossings
  import opened Rail
  import opened RailRoutes

  const LAND := TileData(0, 0, true, false, false, false, false, -1, false, false)
  const HILL := LAND.(height := 1)
  /** Ground that costs a demolition and a crossing. */
  const DEAR := TileData(2, 0, false, false, false, true, false, -1, false, false)
  const WALL := TileData(0, 0, false, false, false, false, false, -1, true, false)
  const RULES := Rules(false, 0)

  // ---------------------------------------------------------------- what a step lands on

  /** Level ground to build on, if need be after a demolition. */
  predicate IsFirm(t: TileData) {
    t.slope == 0 && IsDry(t) && !t.hasRail
  }

  predicate IsPlain(t: TileData) {
    IsFirm(t) && t.buildable && !t.hasRoad
  }

  function Turn(entry: int, d: int): int {
    if entry < 0 || entry == d then 0 else 100
  }

  lemma FirmCosts(t: TileData, entry: int, d: int)
    requires 0 <= d < 4 && -1 <= entry < 4 && !Reverses(entry, d)
    ensures IsFirm(t) ==> TileCost(RULES, t, entry, d) >= 100
    ensures IsPlain(t) ==> TileCost(RULES, t, entry, d) == 100 + Turn(entry, d)
    ensures TileCost(RULES, DEAR, entry, d) >= 900
    ensures TileCost(RULES, WALL, entry, d) < 0
  {
  }

  /** A state that a step can have led to. */
  predicate Arrived(g: Grid, s: State) {
    && 0 <= s.direction < 4
    && g.Get(s.x, s.y).Some?
    && (g.Get(s.x, s.y).value.slope == 0 ==> IsDry(g.Get(s.x, s.y).value))
  }

  lemma StepArrives(g: Grid, rules: Rules, s: State, n: PathNode)
    requires n in Neighbors(g, rules, s)
    ensures Arrived(g, n.Here())
  {
    var length := StepIsHop(g, rules, s, n);
  }

  /** `length` tiles on from a column or row, in heading `d`. */
  function OnX(x: int, d: int, length: int): int {
    if d == 1 then x + length else if d == 3 then x - length else x
  }

  function OnY(y: int, d: int, length: int): int {
    if d == 2 then y + length else if d == 0 then y - length else y
  }

  /** A step from level ground: onto the tile ahead at its price, or by bridge over what is impassable, between equal heights. */
  ghost predicate Lands(g: Grid, s: State, n: PathNode, length: int) {
    var d := n.direction;
    && 0 <= d < 4 && 1 <= length <= 6 && !Reverses(s.direction, d) && n.g > 0
    && n.x == OnX(s.x, d, length) && n.y == OnY(s.y, d, length)
    && g.Get(n.x, n.y).Some? && g.Get(OnX(s.x, d, 1), OnY(s.y, d, 1)).Some?
    && (if length == 1 then LandsAhead(s, n, g.Get(n.x, n.y).value) else s.direction < 0 || s.direction == d)
    && (length > 1 ==> g.Get(s.x, s.y).Some? && IsBridgeEnd(RailNetwork, g.Get(n.x, n.y).value, g.Get(s.x, s.y).value.height))
    && (length > 1 ==> TileCost(RULES, g.Get(OnX(s.x, d, 1), OnY(s.y, d, 1)).value, s.direction, d) < 0)
  }

  predicate LandsAhead(s: State, n: PathNode, t: TileData) {
    n.g == TileCost(RULES, t, s.direction, n.direction)
  }

  predicate OnTheLevel(g: Grid, s: State) {
    g.Get(s.x, s.y).Some? && g.Get(s.x, s.y).value.slope == 0
  }

  lemma CrossingLands(g: Grid, s: State, d: int, n: PathNode, length: int)
    requires 0 <= d < 4 && (s.direction < 0 || s.direction == d) && OnTheLevel(g, s)
    requires g.Get(OnX(s.x, d, 1), OnY(s.y, d, 1)).Some?
    requires TileCost(RULES, g.Get(OnX(s.x, d, 1), OnY(s.y, d, 1)).value, s.direction, d) < 0
    requires Spans(g, RailNetwork, s.x, s.y, d, 6, n, length)
    ensures Lands(g, s, n, length)
  {
    assert Dx(d) == 0 ==> Dx(d) * length == 0;
    assert Dy(d) == 0 ==> Dy(d) * length == 0;
  }

  lemma TileStepLands(g: Grid, s: State, d: int, t: TileData)
    requires 0 <= d < 4 && !Reverses(s.direction, d)
    requires g.Get(s.x + Dx(d), s.y + Dy(d)) == Some(t) && TileCost(RULES, t, s.direction, d) >= 0
    ensures Lands(g, s, TileStep(RULES, s, d, t), 1)
  {
  }

  lemma StepLandsToward(g: Grid, s: State, d: int, n: PathNode) returns (length: int)
    requires 0 <= d < 4 && n in MovesToward(g, RULES, s, d) && OnTheLevel(g, s)
    ensures Lands(g, s, n, length)
  {
    var t := MoveKinds(g, RULES, s, d, n);
    if TileCost(RULES, t, s.direction, d) >= 0 {
      length := 1;
      TileStepLands(g, s, d, t);
    } else {
      length := CrossingSpans(g, RailNetwork, s.x, s.y, d, MAX_BRIDGE_LENGTH, MAX_TUNNEL_LENGTH, n);
      CrossingLands(g, s, d, n, length);
    }
  }

  lemma StepLands(g: Grid, s: State, n: PathNode) returns (length: int)
    requires n in Neighbors(g, RULES, s) && OnTheLevel(g, s)
    ensures Lands(g, s, n, length)
  {
    var d :| 0 <= d < 4 && n in MovesToward(g, RULES, s, d);
    length := StepLandsToward(g, s, d, n);
  }

  // ---------------------------------------------------------------- walking over firm ground

  lemma MovesAreNeighbors(g: Grid, rules: Rules, s: State, d: int, n: PathNode)
    requires 0 <= d < 4 && n in MovesToward(g, rules, s, d)
    ensures n in Neighbors(g, rules, s)
  {
  }

  predicate MayWalk(g: Grid, s: State, d: int) {
    && 0 <= d < 4 && -1 <= s.direction < 4 && !Reverses(s.direction, d)
    && g.Get(s.x + Dx(d), s.y + Dy(d)).Some? && IsFirm(g.Get(s.x + Dx(d), s.y + Dy(d)).value)
  }

  /** A step ahead; onto plain land at its plain price. */
  ghost predicate CanStep(cf: CostFunction, s: State, d: int, plain: bool) {
    exists m :: m in cf.neighbors(s) && m.Here() == State(s.x + Dx(d), s.y + Dy(d), d) && (plain ==> m.g == 100 + Turn(s.direction, d))
  }

  lemma PassableStep(g: Grid, s: State, d: int, t: TileData)
    requires 0 <= d < 4 && !Reverses(s.direction, d) && g.Get(s.x + Dx(d), s.y + Dy(d)) == Some(t)
    requires TileCost(RULES, t, s.direction, d) >= 0
    ensures TileStep(RULES, s, d, t) in Neighbors(g, RULES, s)
  {
    assert MovesToward(g, RULES, s, d) == [TileStep(RULES, s, d, t)];
    MovesAreNeighbors(g, RULES, s, d, TileStep(RULES, s, d, t));
  }

  lemma FirmStep(g: Grid, s: State, d: int, t: TileData)
    requires MayWalk(g, s, d) && g.Get(s.x + Dx(d), s.y + Dy(d)) == Some(t)
    ensures TileStep(RULES, s, d, t) in Neighbors(g, RULES, s)
    ensures IsPlain(t) ==> TileStep(RULES, s, d, t).g == 100 + Turn(s.direction, d)
  {
    FirmCosts(t, s.direction, d);
    PassableStep(g, s, d, t);
  }

  /** Firm ground ahead can be stepped on. */
  ghost predicate Walkable(cf: CostFunction, g: Grid) {
    forall s: State, d :: MayWalk(g, s, d) ==> CanStep(cf, s, d, IsPlain(g.Get(s.x + Dx(d), s.y + Dy(d)).value))
  }

  lemma WorldIsWalkable(g: Grid, sx: int, sy: int, ex: int, ey: int)
    ensures Walkable(ProblemOf(g, RULES, sx, sy, ex, ey).cf, g)
  {
    var cf := ProblemOf(g, RULES, sx, sy, ex, ey).cf;
    forall s: State, d | MayWalk(g, s, d) ensures CanStep(cf, s, d, IsPlain(g.Get(s.x + Dx(d), s.y + Dy(d)).value))
    {
      var t := g.Get(s.x + Dx(d), s.y + Dy(d)).value;
      FirmStep(g, s, d, t);
      assert TileStep(RULES, s, d, t).Here() == State(s.x + Dx(d), s.y + Dy(d), d);
    }
  }

  /** `p` is a route of the world from the start to `t` that never enters the state `hidden`. */
  ghost predicate Leads(cf: CostFunction, start: State, p: seq<PathNode>, t: State, hidden: State) {
    IsRoute(cf, start, p) && EndOf(start, p) == t && (forall i :: 0 <= i < |p| ==> p[i].Here() != hidden)
  }

  function After(s: State, d: int, length: nat): State {
    if length == 0 then s else State(OnX(s.x, d, length), OnY(s.y, d, length), d)
  }

  /** Firm ground, or even plain land, for `length` tiles ahead, away from the state `hidden`. */
  ghost predicate GroundAhead(g: Grid, s: State, d: int, length: nat, plain: bool, hidden: State) {
    forall k :: 1 <= k <= length ==> GroundAt(g, OnX(s.x, d, k), OnY(s.y, d, k), plain) && State(OnX(s.x, d, k), OnY(s.y, d, k), d) != hidden
  }

  predicate GroundAt(g: Grid, x: int, y: int, plain: bool) {
    g.Get(x, y).Some? && IsFirm(g.Get(x, y).value) && (plain ==> IsPlain(g.Get(x, y).value))
  }

  lemma LeadsOneMore(cf: CostFunction, start: State, p: seq<PathNode>, s: State, d: int, plain: bool, hidden: State)
    returns (q: seq<PathNode>)
    requires Leads(cf, start, p, s, hidden) && CanStep(cf, s, d, plain)
    requires State(s.x + Dx(d), s.y + Dy(d), d) != hidden
    ensures Leads(cf, start, q, State(s.x + Dx(d), s.y + Dy(d), d), hidden)
    ensures plain ==> Cost(q) == Cost(p) + 100 + Turn(s.direction, d)
  {
    var m :| m in cf.neighbors(s) && m.Here() == State(s.x + Dx(d), s.y + Dy(d), d) && (plain ==> m.g == 100 + Turn(s.direction, d));
    RouteAppend(cf, start, p, m);
    q := p + [m];
  }

  lemma AfterOneMore(g: Grid, s: State, d: int, length: nat, plain: bool, hidden: State)
    requires 0 <= d < 4 && -1 <= s.direction < 4 && !Reverses(s.direction, d) && length > 0
    requires GroundAhead(g, s, d, length, plain, hidden)
    ensures var u := After(s, d, length - 1);
            && MayWalk(g, u, d) && GroundAt(g, u.x + Dx(d), u.y + Dy(d), plain)
            && After(s, d, length) == State(u.x + Dx(d), u.y + Dy(d), d) != hidden
            && GroundAhead(g, s, d, length - 1, plain, hidden)
  {
    assert GroundAt(g, OnX(s.x, d, length), OnY(s.y, d, length), plain);
  }

  /** Extends a route by a straight walk. */
  lemma {:induction false} Walk(cf: CostFunction, g: Grid, start: State, p: seq<PathNode>, s: State, d: int, length: nat,
                                plain: bool, hidden: State)
    returns (q: seq<PathNode>)
    requires Leads(cf, start, p, s, hidden) && Walkable(cf, g)
    requires 0 <= d < 4 && -1 <= s.direction < 4 && !Reverses(s.direction, d)
    requires GroundAhead(g, s, d, length, plain, hidden)
    ensures Leads(cf, start, q, After(s, d, length), hidden)
    ensures plain ==> Cost(q) == Cost(p) + 100 * length + if length == 0 then 0 else Turn(s.direction, d)
    decreases length
  {
    if length == 0 {
      q := p;
    } else {
      AfterOneMore(g, s, d, length, plain, hidden);
      var front := Walk(cf, g, start, p, s, d, length - 1, plain, hidden);
      var u := After(s, d, length - 1);
      q := LeadsOneMore(cf, start, front, u, d, IsPlain(g.Get(u.x + Dx(d), u.y + Dy(d)).value), hidden);
    }
  }

  // ---------------------------------------------------------------- a loop around the start's column

  /**
    A hill at the head of the start's column, in the row that the start's key names. Plain land leads
    there along the start's row to column `c`, up to row `r`, back, and down; other ground leads there
    along the start's row to column `e`, up, and back. Everything else is walled.
  */
  datatype Loop = Loop(sx: int, sy: int, c: int, r: int, e: int, other: TileData) {
    function Head(): int {
      sy / 4
    }

    predicate Near(x: int, y: int) {
      (y == sy && Between(sx, c, x)) || (x == c && r <= y <= sy) || (y == r && Between(sx, c, x))
    }

    predicate Far(x: int, y: int) {
      (y == sy && Between(sx, e, x)) || (x == e && Head() <= y <= sy) || (y == Head() && Between(sx, e, x))
    }

    function Tile(x: int, y: int): TileData {
      if x == sx && y == Head() then HILL else if Near(x, y) then LAND else if Far(x, y) then other else WALL
    }

    /** The columns and the row for a start whose key names heading `d` into row `k`. */
    predicate Fits(area: Rect) {
      var k, d := Head(), sy % 4;
      && 3 <= sy <= area.y2 && area.y1 <= k && area.y1 <= r
      && area.x1 <= sx <= area.x2 && area.x1 <= c <= area.x2 && area.x1 <= e <= area.x2
      && (d == 0 ==> c == sx && r == k && (e == sx + 2 || e == sx - 2))
      && (d == 1 ==> r == k && ((c == sx - 1 && e == sx + 1) || (c == sx - 2 && e == sx)))
      && (d == 2 ==> r == k - 1 && (c == sx - 2 || c == sx + 2) && e == sx)
      && (d == 3 ==> r == k && ((c == sx + 1 && e == sx - 1) || (c == sx + 2 && e == sx)))
    }

    function Start(): State {
      State(sx, sy, -1)
    }
  }

  /** A cache in which exactly the tiles of an area are loaded, and show the loop. */
  ghost predicate IsLoop(g: Grid, w: Loop, area: Rect) {
    w.Fits(area) && forall x, y :: g.Get(x, y) == if area.Has(x, y) then Some(w.Tile(x, y)) else None
  }

  /** The hidden state and the tile behind it lie in the area. */
  predicate HiddenIn(area: Rect, sx: int, sy: int) {
    var h := Hidden(sx, sy);
    sy > 0 && area.Has(h.x, h.y) && area.Has(h.x - Dx(h.direction), h.y - Dy(h.direction))
  }

  /** For every start whose hidden state the map can show, a loop fits the map, and even the corridor to the hidden tile. */
  lemma LoopFits(width: int, height: int, sx: int, sy: int, margin: int, other: TileData) returns (w: Loop)
    requires 5 <= width && 0 <= sx < width && 0 <= sy < height && margin >= 2 && HiddenIn(Interior(width, height), sx, sy)
    ensures w.sx == sx && w.sy == sy && w.other == other
    ensures w.Fits(Interior(width, height)) && w.Fits(Corridor(width, height, sx, sy, sx, sy / 4, margin))
  {
    var k, d := sy / 4, sy % 4;
    var aside := if sx + 2 < width then sx + 2 else sx - 2;
    w := match d
      case 0 => Loop(sx, sy, sx, k, aside, other)
      case 1 => if sx + 1 < width then Loop(sx, sy, sx - 1, k, sx + 1, other) else Loop(sx, sy, sx - 2, k, sx, other)
      case 2 => Loop(sx, sy, aside, k - 1, sx, other)
      case _ => if sx >= 2 then Loop(sx, sy, sx + 1, k, sx - 1, other) else Loop(sx, sy, sx + 2, k, sx, other);
  }

  lemma LoopShows(world: Grid, w: Loop, width: int, height: int, area: Rect)
    requires world == World(width, height, (x, y) => w.Tile(x, y)) && w.Fits(area)
    requires forall x, y :: area.Has(x, y) ==> Interior(width, height).Has(x, y)
    ensures IsLoop(Seen(world, area), w, area)
  {
  }

  /** The ground of the way around by land. */
  lemma NearGround(g: Grid, w: Loop, area: Rect, hidden: State)
    requires IsLoop(g, w, area) && hidden.direction < 0
    ensures var out, back := (if w.c < w.sx then 3 else 1), (if w.c < w.sx then 1 else 3);
            && GroundAhead(g, w.Start(), out, Abs(w.c - w.sx), true, hidden)
            && GroundAhead(g, State(w.c, w.sy, 0), 0, w.sy - w.r, true, hidden)
            && GroundAhead(g, State(w.c, w.r, 0), back, Abs(w.c - w.sx), true, hidden)
            && GroundAhead(g, State(w.sx, w.r, 0), 2, w.Head() - w.r, true, hidden)
  {
  }

  /** The way around by land: at most 100 a tile and three turns, to the hill in the hidden state. */
  lemma NearLeads(cf: CostFunction, g: Grid, w: Loop, area: Rect) returns (p: seq<PathNode>)
    requires IsLoop(g, w, area) && Walkable(cf, g)
    ensures Leads(cf, w.Start(), p, Hidden(w.sx, w.sy), State(0, 0, -2))
    ensures Cost(p) <= 100 * (2 * Abs(w.c - w.sx) + (w.sy - w.r) + (w.Head() - w.r)) + (if w.sy % 4 == 2 then 300 else 200)
  {
    var none, start := State(0, 0, -2), w.Start();
    var out, back := if w.c < w.sx then 3 else 1, if w.c < w.sx then 1 else 3;
    var aside, up, down := Abs(w.c - w.sx), w.sy - w.r, w.Head() - w.r;
    NearGround(g, w, area, none);
    p := Walk(cf, g, start, [], start, out, aside, true, none);
    var corner := After(start, out, aside);
    assert GroundAhead(g, corner, 0, up, true, none);
    p := Walk(cf, g, start, p, corner, 0, up, true, none);
    var top := After(corner, 0, up);
    p := Walk(cf, g, start, p, top, back, aside, true, none);
    var above := After(top, back, aside);
    if down > 0 {
      p := Walk(cf, g, start, p, above, 2, down, true, none);
    }
  }

  /** The hill is entered in the hidden state, or from the other ground. */
  lemma OntoHill(g: Grid, w: Loop, area: Rect, s: State, n: PathNode)
    requires IsLoop(g, w, area) && (w.other == WALL || w.other == DEAR)
    requires (s == w.Start() || Arrived(g, s)) && n in Neighbors(g, RULES, s) && n.x == w.sx && n.y == w.Head()
    ensures n.g >= 100
    ensures n.Here() == Hidden(w.sx, w.sy) || (g.Get(s.x, s.y) == Some(DEAR) && Manhattan(s.x, s.y, n.x, n.y) == 1)
  {
    StandsOnGround(g, w, area, s);
    BesideHill(g, w, area, s, n);
    AroundHill(w, area, s.x, s.y, n.direction);
  }

  /** A state that a step leaves is on level ground, and on no wall. */
  lemma StandsOnGround(g: Grid, w: Loop, area: Rect, s: State)
    requires IsLoop(g, w, area) && (w.other == WALL || w.other == DEAR) && (s == w.Start() || Arrived(g, s))
    ensures OnTheLevel(g, s) && -1 <= s.direction < 4 && g.Get(s.x, s.y) == Some(w.Tile(s.x, s.y))
    ensures w.Tile(s.x, s.y) != WALL
  {
  }

  /** Nothing else is as high as the hill, so that no bridge ends there. */
  lemma BesideHill(g: Grid, w: Loop, area: Rect, s: State, n: PathNode)
    requires IsLoop(g, w, area) && (w.other == WALL || w.other == DEAR) && OnTheLevel(g, s) && -1 <= s.direction < 4
    requires n in Neighbors(g, RULES, s) && n.x == w.sx && n.y == w.Head()
    ensures 0 <= n.direction < 4 && n.g >= 100
    ensures s.x == n.x - Dx(n.direction) && s.y == n.y - Dy(n.direction)
  {
    var length := StepLands(g, s, n);
    FirmCosts(HILL, s.direction, n.direction);
  }

  lemma AroundHill(w: Loop, area: Rect, x: int, y: int, d: int)
    requires w.Fits(area) && 0 <= d < 4 && x == w.sx - Dx(d) && y == w.Head() - Dy(d) && w.Tile(x, y) != WALL
    ensures d == w.sy % 4 || w.Tile(x, y) == w.other
  {
  }
}
