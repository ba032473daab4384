/** Map tiles as the pathfinders see them: one tile's data, and a map of the tiles loaded so far. */
module Tiles {
  import opened Options

  datatype TileData = TileData(height: int, slope: int, buildable: bool, water: bool, coast: bool,
                               hasRoad: bool, hasRail: bool, owner: int, isStation: bool, hasTree: bool)

  /** What a tile cache holds. A tile outside the map, or not loaded, reads as `None`. */
  datatype Grid = Grid(width: int, height: int, tiles: map<(int, int), TileData>) {
    predicate InMap(x: int, y: int) {
      0 <= x < width && 0 <= y < height
    }

    function Get(x: int, y: int): Option<TileData> {
      if InMap(x, y) && (x, y) in tiles then Some(tiles[(x, y)]) else None
    }

    function Put(x: int, y: int, t: TileData): Grid {
      if InMap(x, y) then Grid(width, height, tiles[(x, y) := t]) else this
    }
  }

  /** What a cache shows is so in the world. */
  ghost predicate PartOf(g: Grid, world: Grid) {
    g.width == world.width && g.height == world.height && forall x, y :: g.Get(x, y).Some? ==> world.Get(x, y) == g.Get(x, y)
  }

  /** Whatever is loaded of the rectangle with these corners is the same in another grid. */
  ghost predicate SameBetween(g: Grid, h: Grid, x1: int, y1: int, x2: int, y2: int) {
    forall x, y :: Between(x1, x2, x) && Between(y1, y2, y) && g.Get(x, y).Some? ==> h.Get(x, y) == g.Get(x, y)
  }

  lemma SameNext(g: Grid, h: Grid, x: int, y: int, nx: int, ny: int)
    requires SameBetween(g, h, x, y, nx, ny) && g.Get(nx, ny).Some?
    ensures h.Get(nx, ny) == g.Get(nx, ny)
  {
  }

  predicate Between(a: int, b: int, x: int) {
    (a <= x <= b) || (b <= x <= a)
  }

  /** Headings 0..3 are north, east, south, west; row 0 is the northern edge. */
  function Dx(heading: int): int {
    if heading == 1 then 1 else if heading == 3 then -1 else 0
  }

  function Dy(heading: int): int {
    if heading == 0 then -1 else if heading == 2 then 1 else 0
  }

  function Abs(a: int): nat {
    if a < 0 then -a else a
  }

  function Manhattan(x1: int, y1: int, x2: int, y2: int): nat {
    Abs(x1 - x2) + Abs(y1 - y2)
  }

  predicate IsDry(t: TileData) {
    !t.water && !t.isStation
  }

  /** Free ground with no road, rail, station or water on it. */
  predicate IsOpenGround(t: TileData) {
    !t.isStation && !t.water && !t.hasRoad && !t.hasRail && t.buildable
  }
}
