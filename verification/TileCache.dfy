/**
  The in-memory tile cache and its batched loading. A rectangle is fetched in batches of at most
  20 by 20 tiles with inclusive corners.
*/
module TileCaches {
  import opened Options
  import opened Tiles

  const BATCH_SIZE := 20

  /** One tile record of a reply; every field may be missing. */
  datatype TileReport = TileReport(x: Option<int>, y: Option<int>, height: Option<int>, slope: Option<int>,
                                   buildable: Option<bool>, water: Option<bool>, coast: Option<bool>,
                                   hasRoad: Option<bool>, hasRail: Option<bool>, owner: Option<int>,
                                   isStation: Option<bool>, hasTree: Option<bool>)

  function Described(r: TileReport): TileData {
    TileData(OrElse(r.height, 0), OrElse(r.slope, 0), OrElse(r.buildable, false), OrElse(r.water, false), OrElse(r.coast, false),
             OrElse(r.hasRoad, false), OrElse(r.hasRail, false), OrElse(r.owner, -1), OrElse(r.isStation, false), OrElse(r.hasTree, false))
  }

  function Apply(g: Grid, r: TileReport): Grid {
    g.Put(OrElse(r.x, -1), OrElse(r.y, -1), Described(r))
  }

  function ApplyAll(g: Grid, rs: seq<TileReport>): Grid {
    if rs == [] then g else Apply(ApplyAll(g, rs[..|rs| - 1]), rs[|rs| - 1])
  }

  /** An inclusive rectangle. */
  datatype Rect = Rect(x1: int, y1: int, x2: int, y2: int) {
    predicate Has(x: int, y: int) {
      x1 <= x <= x2 && y1 <= y <= y2
    }
  }

  function Min(a: int, b: int): int {
    if a < b then a else b
  }

  function Max(a: int, b: int): int {
    if a > b then a else b
  }

  /** The batches of one column strip, from row `cy` down. */
  function Strip(r: Rect, cx: int, cy: int): seq<Rect>
    decreases r.y2 - cy
  {
    if cy > r.y2 then []
    else [Rect(cx, cy, Min(cx + BATCH_SIZE - 1, r.x2), Min(cy + BATCH_SIZE - 1, r.y2))] + Strip(r, cx, cy + BATCH_SIZE)
  }

  /** All batches, from column `cx` on. */
  function BatchesFrom(r: Rect, cx: int): seq<Rect>
    decreases r.x2 - cx
  {
    if cx > r.x2 then [] else Strip(r, cx, r.y1) + BatchesFrom(r, cx + BATCH_SIZE)
  }

  function Batches(r: Rect): seq<Rect> {
    BatchesFrom(r, r.x1)
  }

  // ---------------------------------------------------------------- the batches partition the rectangle

  /** Exactly one of the batches has the tile. */
  ghost predicate HasOnce(bs: seq<Rect>, x: int, y: int) {
    exists i :: 0 <= i < |bs| && bs[i].Has(x, y) && forall j :: 0 <= j < |bs| && bs[j].Has(x, y) ==> j == i
  }

  ghost predicate HasNone(bs: seq<Rect>, x: int, y: int) {
    forall i :: 0 <= i < |bs| ==> !bs[i].Has(x, y)
  }

  lemma IndexOfConcat(a: seq<Rect>, b: seq<Rect>, j: nat)
    requires j < |a + b|
    ensures (a + b)[j] == if j < |a| then a[j] else b[j - |a|]
  {
  }

  lemma HasOnceLeft(a: seq<Rect>, b: seq<Rect>, x: int, y: int)
    requires HasOnce(a, x, y) && HasNone(b, x, y)
    ensures HasOnce(a + b, x, y)
  {
    var i :| 0 <= i < |a| && a[i].Has(x, y) && forall j :: 0 <= j < |a| && a[j].Has(x, y) ==> j == i;
    assert (a + b)[i] == a[i];
    forall j | 0 <= j < |a + b| && (a + b)[j].Has(x, y) ensures j == i {
      IndexOfConcat(a, b, j);
    }
  }

  lemma HasOnceRight(a: seq<Rect>, b: seq<Rect>, x: int, y: int)
    requires HasNone(a, x, y) && HasOnce(b, x, y)
    ensures HasOnce(a + b, x, y)
  {
    var i :| 0 <= i < |b| && b[i].Has(x, y) && forall j :: 0 <= j < |b| && b[j].Has(x, y) ==> j == i;
    assert (a + b)[|a| + i] == b[i];
    forall j | 0 <= j < |a + b| && (a + b)[j].Has(x, y) ensures j == |a| + i {
      IndexOfConcat(a, b, j);
    }
  }

  lemma {:induction false} StripCovers(r: Rect, cx: int, cy: int, x: int, y: int)
    ensures cx <= x <= Min(cx + BATCH_SIZE - 1, r.x2) && cy <= y <= r.y2 ==> HasOnce(Strip(r, cx, cy), x, y)
    ensures !(cx <= x <= Min(cx + BATCH_SIZE - 1, r.x2) && cy <= y <= r.y2) ==> HasNone(Strip(r, cx, cy), x, y)
    decreases r.y2 - cy
  {
    if cy <= r.y2 {
      var first := [Rect(cx, cy, Min(cx + BATCH_SIZE - 1, r.x2), Min(cy + BATCH_SIZE - 1, r.y2))];
      var rest := Strip(r, cx, cy + BATCH_SIZE);
      StripCovers(r, cx, cy + BATCH_SIZE, x, y);
      if cx <= x <= Min(cx + BATCH_SIZE - 1, r.x2) && cy <= y <= r.y2 {
        if y < cy + BATCH_SIZE {
          assert first[0].Has(x, y);
          HasOnceLeft(first, rest, x, y);
        } else {
          HasOnceRight(first, rest, x, y);
        }
      }
    }
  }

  lemma {:induction false} BatchesFromCover(r: Rect, cx: int, x: int, y: int)
    ensures cx <= x <= r.x2 && r.y1 <= y <= r.y2 ==> HasOnce(BatchesFrom(r, cx), x, y)
    ensures !(cx <= x <= r.x2 && r.y1 <= y <= r.y2) ==> HasNone(BatchesFrom(r, cx), x, y)
    decreases r.x2 - cx
  {
    if cx <= r.x2 {
      StripCovers(r, cx, r.y1, x, y);
      BatchesFromCover(r, cx + BATCH_SIZE, x, y);
      if cx <= x <= r.x2 && r.y1 <= y <= r.y2 {
        if x < cx + BATCH_SIZE {
          HasOnceLeft(Strip(r, cx, r.y1), BatchesFrom(r, cx + BATCH_SIZE), x, y);
        } else {
          HasOnceRight(Strip(r, cx, r.y1), BatchesFrom(r, cx + BATCH_SIZE), x, y);
        }
      }
    }
  }

  /** Every tile of the rectangle is in exactly one batch; no other tile is in any. */
  lemma BatchesPartition(r: Rect, x: int, y: int)
    ensures if r.Has(x, y) then HasOnce(Batches(r), x, y) else HasNone(Batches(r), x, y)
  {
    BatchesFromCover(r, r.x1, x, y);
  }

  /** Every batch is within the script's limit of 400 tiles, and its corners are in order. */
  lemma {:induction false} BatchesFit(r: Rect, i: nat)
    requires i < |Batches(r)|
    ensures var b := Batches(r)[i];
            b.x1 <= b.x2 && b.y1 <= b.y2 && (b.x2 - b.x1 + 1) * (b.y2 - b.y1 + 1) <= 400
  {
    BatchesFromFit(r, r.x1, i);
    var b := Batches(r)[i];
    var w, h := b.x2 - b.x1 + 1, b.y2 - b.y1 + 1;
    assert w * h <= 20 * h;
  }

  lemma {:induction false} StripFits(r: Rect, cx: int, cy: int, i: nat)
    requires cx <= r.x2 && i < |Strip(r, cx, cy)|
    ensures var b := Strip(r, cx, cy)[i]; b.x1 <= b.x2 < b.x1 + 20 && b.y1 <= b.y2 < b.y1 + 20
    decreases r.y2 - cy
  {
    if i > 0 {
      StripFits(r, cx, cy + BATCH_SIZE, i - 1);
    }
  }

  lemma {:induction false} BatchesFromFit(r: Rect, cx: int, i: nat)
    requires i < |BatchesFrom(r, cx)|
    ensures var b := BatchesFrom(r, cx)[i]; b.x1 <= b.x2 < b.x1 + 20 && b.y1 <= b.y2 < b.y1 + 20
    decreases r.x2 - cx
  {
    var n := |Strip(r, cx, r.y1)|;
    if i < n {
      StripFits(r, cx, r.y1, i);
    } else {
      BatchesFromFit(r, cx + BATCH_SIZE, i - n);
    }
  }

  // ---------------------------------------------------------------- what a load leaves in the cache

  /** The game's answer to one batch: its tile records, or `None` when the request failed. */
  type Game = Rect -> Option<seq<TileReport>>

  function Received(game: Game, bs: seq<Rect>): seq<TileReport> {
    if bs == [] then [] else OrElse(game(bs[0]), []) + Received(game, bs[1..])
  }

  /** A record of a tile the world has. */
  ghost predicate Truthful(world: Grid, r: TileReport) {
    r.x.Some? && r.y.Some? && world.Get(r.x.value, r.y.value) == Some(Described(r))
  }

  /** A faithful answer: a record of every tile of the batch that the world has, and nothing else. */
  ghost predicate Scans(world: Grid, b: Rect, rs: seq<TileReport>) {
    && (forall i :: 0 <= i < |rs| ==>
          Truthful(world, rs[i]) && b.Has(rs[i].x.value, rs[i].y.value))
    && (forall x, y :: b.Has(x, y) && world.Get(x, y).Some? ==> Reports(rs, x, y))
  }

  ghost predicate Reports(rs: seq<TileReport>, x: int, y: int) {
    exists i :: 0 <= i < |rs| && rs[i].x == Some(x) && rs[i].y == Some(y)
  }

  lemma {:induction false} ApplyAllAt(g: Grid, world: Grid, rs: seq<TileReport>, x: int, y: int)
    requires g.InMap(x, y)
    requires forall i :: 0 <= i < |rs| ==> Truthful(world, rs[i])
    ensures ApplyAll(g, rs).width == g.width && ApplyAll(g, rs).height == g.height
    ensures ApplyAll(g, rs).Get(x, y) == if Reports(rs, x, y) then world.Get(x, y) else g.Get(x, y)
  {
    if rs != [] {
      var last := rs[|rs| - 1];
      ApplyAllAt(g, world, rs[..|rs| - 1], x, y);
      if Reports(rs[..|rs| - 1], x, y) {
        var i :| 0 <= i < |rs| - 1 && rs[..|rs| - 1][i].x == Some(x) && rs[..|rs| - 1][i].y == Some(y);
        assert rs[i].x == Some(x) && rs[i].y == Some(y);
      }
      if last.x == Some(x) && last.y == Some(y) {
        assert rs[|rs| - 1].x == Some(x);
        assert Reports(rs, x, y);
      }
    }
  }

  /** The record names the tile. */
  predicate Names(r: TileReport, x: int, y: int) {
    r.x == Some(x) && r.y == Some(y)
  }

  /** Each field of a tile is the record's, or else that of a bare tile with no owner. */
  predicate Describes(r: TileReport, t: TileData) {
    && t.height == (if r.height.Some? then r.height.value else 0)
    && t.slope == (if r.slope.Some? then r.slope.value else 0)
    && t.owner == (if r.owner.Some? then r.owner.value else -1)
    && (t.buildable <==> r.buildable == Some(true))
    && (t.water <==> r.water == Some(true))
    && (t.coast <==> r.coast == Some(true))
    && (t.hasRoad <==> r.hasRoad == Some(true))
    && (t.hasRail <==> r.hasRail == Some(true))
    && (t.isStation <==> r.isStation == Some(true))
    && (t.hasTree <==> r.hasTree == Some(true))
  }

  /** No record from `from` on names the tile. */
  predicate NoneNames(rs: seq<TileReport>, from: nat, x: int, y: int) {
    forall i :: from <= i < |rs| ==> !Names(rs[i], x, y)
  }

  lemma OneRecord(g: Grid, r: TileReport, x: int, y: int)
    requires g.InMap(x, y)
    ensures var after := Apply(g, r);
            && after.width == g.width && after.height == g.height
            && (if Names(r, x, y) then after.Get(x, y).Some? && Describes(r, after.Get(x, y).value)
                else after.Get(x, y) == g.Get(x, y))
  {
  }

  lemma {:induction false} ApplyKeepsSize(g: Grid, rs: seq<TileReport>)
    ensures ApplyAll(g, rs).width == g.width && ApplyAll(g, rs).height == g.height
    decreases |rs|
  {
    if rs != [] {
      ApplyKeepsSize(g, rs[..|rs| - 1]);
    }
  }

  /** A tile that no record names, from `from` on, stays as those before left it. */
  lemma {:induction false} UnnamedStays(g: Grid, rs: seq<TileReport>, from: nat, x: int, y: int)
    requires g.InMap(x, y) && from <= |rs| && NoneNames(rs, from, x, y)
    ensures ApplyAll(g, rs).Get(x, y) == ApplyAll(g, rs[..from]).Get(x, y)
    decreases |rs|
  {
    if from == |rs| {
      assert rs[..from] == rs;
    } else {
      var front := rs[..|rs| - 1];
      assert front[..from] == rs[..from];
      UnnamedStays(g, front, from, x, y);
      ApplyKeepsSize(g, front);
      OneRecord(ApplyAll(g, front), rs[|rs| - 1], x, y);
    }
  }

  /** The last record that names a tile replaces it whole, and a tile that none names stays as it was. */
  lemma LastRecordWins(g: Grid, rs: seq<TileReport>, k: nat, x: int, y: int)
    requires g.InMap(x, y)
    ensures NoneNames(rs, 0, x, y) ==> ApplyAll(g, rs).Get(x, y) == g.Get(x, y)
    ensures k < |rs| && Names(rs[k], x, y) && NoneNames(rs, k + 1, x, y)
            ==> ApplyAll(g, rs).Get(x, y).Some? && Describes(rs[k], ApplyAll(g, rs).Get(x, y).value)
  {
    if NoneNames(rs, 0, x, y) {
      UnnamedStays(g, rs, 0, x, y);
    }
    if k < |rs| && Names(rs[k], x, y) && NoneNames(rs, k + 1, x, y) {
      UnnamedStays(g, rs, k + 1, x, y);
      NamedLast(g, rs, k, x, y);
    }
  }

  lemma NamedLast(g: Grid, rs: seq<TileReport>, k: nat, x: int, y: int)
    requires g.InMap(x, y) && k < |rs| && Names(rs[k], x, y)
    ensures var t := ApplyAll(g, rs[..k + 1]).Get(x, y); t.Some? && Describes(rs[k], t.value)
  {
    assert rs[..k + 1][..k] == rs[..k];
    ApplyKeepsSize(g, rs[..k]);
    OneRecord(ApplyAll(g, rs[..k]), rs[k], x, y);
  }

  /** Every batch is answered, and faithfully. */
  ghost predicate AllScan(world: Grid, game: Game, bs: seq<Rect>) {
    forall i :: 0 <= i < |bs| ==> game(bs[i]).Some? && Scans(world, bs[i], game(bs[i]).value)
  }

  lemma {:induction false} ReceivedAreTruthful(world: Grid, game: Game, bs: seq<Rect>, i: nat)
    requires AllScan(world, game, bs) && i < |Received(game, bs)|
    ensures var r := Received(game, bs)[i]; Truthful(world, r) && !HasNone(bs, r.x.value, r.y.value)
    decreases |bs|
  {
    var b, tail := bs[0], bs[1..];
    var early: seq<TileReport> := game(b).value;
    if i < |early| {
      assert Scans(world, b, early);
    } else {
      assert AllScan(world, game, tail);
      ReceivedAreTruthful(world, game, tail, i - |early|);
      var r := Received(game, tail)[i - |early|];
      var j :| 0 <= j < |tail| && tail[j].Has(r.x.value, r.y.value);
      assert bs[j + 1].Has(r.x.value, r.y.value);
    }
  }

  lemma {:induction false} ReceivedReports(world: Grid, game: Game, bs: seq<Rect>, x: int, y: int)
    requires AllScan(world, game, bs) && !HasNone(bs, x, y) && world.Get(x, y).Some?
    ensures Reports(Received(game, bs), x, y)
    decreases |bs|
  {
    var b, tail := bs[0], bs[1..];
    var early: seq<TileReport>, late: seq<TileReport> := game(b).value, Received(game, tail);
    if b.Has(x, y) {
      assert Scans(world, b, early);
      var i :| 0 <= i < |early| && early[i].x == Some(x) && early[i].y == Some(y);
      assert (early + late)[i] == early[i];
    } else {
      var j :| 0 <= j < |bs| && bs[j].Has(x, y);
      assert tail[j - 1].Has(x, y);
      ReceivedReports(world, game, tail, x, y);
      var i :| 0 <= i < |late| && late[i].x == Some(x) && late[i].y == Some(y);
      assert (early + late)[|early| + i] == late[i];
    }
  }

  lemma {:induction false} ReceivedConcat(game: Game, a: seq<Rect>, b: seq<Rect>)
    ensures Received(game, a + b) == Received(game, a) + Received(game, b)
    decreases |a|
  {
    if a == [] {
      assert a + b == b;
    } else {
      ReceivedConcat(game, a[1..], b);
      assert (a + b)[1..] == a[1..] + b;
    }
  }

  /**
    A load in which every batch is answered faithfully makes the cache agree with the world on the
    rectangle, as far as the world has tiles there, and leaves every other tile alone.
  */
  lemma LoadAgreesWithWorld(g: Grid, world: Grid, game: Game, r: Rect, x: int, y: int)
    requires g.InMap(x, y) && AllScan(world, game, Batches(r))
    ensures ApplyAll(g, Received(game, Batches(r))).Get(x, y)
            == if r.Has(x, y) && world.Get(x, y).Some? then world.Get(x, y) else g.Get(x, y)
  {
    var rs := Received(game, Batches(r));
    forall i | 0 <= i < |rs| ensures Truthful(world, rs[i]) && !HasNone(Batches(r), rs[i].x.value, rs[i].y.value) {
      ReceivedAreTruthful(world, game, Batches(r), i);
    }
    ApplyAllAt(g, world, rs, x, y);
    BatchesPartition(r, x, y);
    if r.Has(x, y) && world.Get(x, y).Some? {
      ReceivedReports(world, game, Batches(r), x, y);
    }
  }

  /** The corridor between two points, clipped to the map's interior. */
  function Corridor(width: int, height: int, x1: int, y1: int, x2: int, y2: int, margin: int): Rect {
    Rect(Max(1, Min(x1, x2) - margin), Max(1, Min(y1, y2) - margin),
         Min(width - 1, Max(x1, x2) + margin), Min(height - 1, Max(y1, y2) + margin))
  }

  /** Within the margin of some coordinate between the two. */
  ghost predicate Near(a: int, b: int, margin: nat, v: int) {
    exists c :: Between(a, b, c) && v - margin <= c <= v + margin
  }

  lemma NearIff(a: int, b: int, margin: nat, v: int)
    ensures Near(a, b, margin, v) <==> Min(a, b) - margin <= v <= Max(a, b) + margin
  {
    if Min(a, b) - margin <= v <= Max(a, b) + margin {
      var c := if v < Min(a, b) then Min(a, b) else if v > Max(a, b) then Max(a, b) else v;
      assert Between(a, b, c) && v - margin <= c <= v + margin;
    }
  }

  /** A corridor has the tiles within the margin of the columns and rows between its ends, off row 0 and column 0. */
  lemma CorridorIff(width: int, height: int, x1: int, y1: int, x2: int, y2: int, margin: nat, x: int, y: int)
    ensures Corridor(width, height, x1, y1, x2, y2, margin).Has(x, y)
            <==> 1 <= x < width && 1 <= y < height && Near(x1, x2, margin, x) && Near(y1, y2, margin, y)
  {
    NearIff(x1, x2, margin, x);
    NearIff(y1, y2, margin, y);
  }

  /** A corridor has an endpoint exactly when the endpoint is off the map's row 0 and column 0. */
  lemma CorridorHasEndpoints(width: int, height: int, x1: int, y1: int, x2: int, y2: int, margin: nat)
    ensures Corridor(width, height, x1, y1, x2, y2, margin).Has(x1, y1) <==> 1 <= x1 < width && 1 <= y1 < height
    ensures Corridor(width, height, x1, y1, x2, y2, margin).Has(x2, y2) <==> 1 <= x2 < width && 1 <= y2 < height
  {
  }

  /** The map but for row 0 and column 0, which is what the game has tiles of. */
  function Interior(width: int, height: int): Rect {
    Rect(1, 1, width - 1, height - 1)
  }

  /** A world as the game has it: a tile everywhere but in row 0 and column 0. */
  ghost predicate IsWorld(g: Grid) {
    forall x, y :: g.Get(x, y).Some? <==> Interior(g.width, g.height).Has(x, y)
  }

  function World(width: int, height: int, tile: (int, int) -> TileData): (g: Grid)
    ensures g.width == width && g.height == height && IsWorld(g)
    ensures forall x, y :: g.Get(x, y).Some? ==> g.Get(x, y) == Some(tile(x, y))
  {
    Grid(width, height, map x, y | 1 <= x < width && 1 <= y < height :: (x, y) := tile(x, y))
  }

  // ---------------------------------------------------------------- what a fresh cache shows

  /** What a rectangle shows of the world. */
  function Seen(world: Grid, r: Rect): (g: Grid)
    ensures g.width == world.width && g.height == world.height
    ensures forall x, y :: g.Get(x, y) == if r.Has(x, y) then world.Get(x, y) else None
  {
    Grid(world.width, world.height, map c | c in world.tiles && world.InMap(c.0, c.1) && r.Has(c.0, c.1) :: world.tiles[c])
  }

  ghost predicate HoldsMapTiles(g: Grid) {
    forall c :: c in g.tiles ==> g.InMap(c.0, c.1)
  }

  lemma SameTiles(g: Grid, h: Grid)
    requires g.width == h.width && g.height == h.height && HoldsMapTiles(g) && HoldsMapTiles(h)
    requires forall x, y :: g.InMap(x, y) ==> g.Get(x, y) == h.Get(x, y)
    ensures g == h
  {
    forall c ensures (c in g.tiles <==> c in h.tiles) && (c in g.tiles ==> g.tiles[c] == h.tiles[c]) {
      if c in g.tiles || c in h.tiles {
        assert g.Get(c.0, c.1) == h.Get(c.0, c.1);
      }
    }
  }

  lemma {:induction false} ApplyAllHoldsMapTiles(g: Grid, rs: seq<TileReport>)
    requires HoldsMapTiles(g)
    ensures HoldsMapTiles(ApplyAll(g, rs)) && ApplyAll(g, rs).width == g.width && ApplyAll(g, rs).height == g.height
    decreases |rs|
  {
    if rs != [] {
      ApplyAllHoldsMapTiles(g, rs[..|rs| - 1]);
    }
  }

  /** Loading a rectangle into an empty cache shows exactly what the rectangle shows of the world. */
  lemma FreshLoadIsSeen(world: Grid, game: Game, r: Rect)
    requires AllScan(world, game, Batches(r))
    ensures ApplyAll(Grid(world.width, world.height, map[]), Received(game, Batches(r))) == Seen(world, r)
  {
    var empty := Grid(world.width, world.height, map[]);
    var loaded := ApplyAll(empty, Received(game, Batches(r)));
    ApplyAllHoldsMapTiles(empty, Received(game, Batches(r)));
    forall x, y | loaded.InMap(x, y) ensures loaded.Get(x, y) == Seen(world, r).Get(x, y) {
      LoadAgreesWithWorld(empty, world, game, r, x, y);
    }
    SameTiles(loaded, Seen(world, r));
  }

  // ---------------------------------------------------------------- a game that answers faithfully

  function ReportOf(t: TileData, x: int, y: int): TileReport {
    TileReport(Some(x), Some(y), Some(t.height), Some(t.slope), Some(t.buildable), Some(t.water), Some(t.coast),
               Some(t.hasRoad), Some(t.hasRail), Some(t.owner), Some(t.isStation), Some(t.hasTree))
  }

  function RowReports(world: Grid, x: int, x2: int, y: int): seq<TileReport>
    decreases x2 - x
  {
    if x > x2 then []
    else
      (match world.Get(x, y)
       case None => []
       case Some(t) => [ReportOf(t, x, y)]) + RowReports(world, x + 1, x2, y)
  }

  function AreaReports(world: Grid, b: Rect, y: int): seq<TileReport>
    decreases b.y2 - y
  {
    if y > b.y2 then [] else RowReports(world, b.x1, b.x2, y) + AreaReports(world, b, y + 1)
  }

  function FaithfulGame(world: Grid): Game {
    (b: Rect) => Some(AreaReports(world, b, b.y1))
  }

  lemma {:induction false} RowReportsAt(world: Grid, x: int, x2: int, y: int, i: nat)
    requires i < |RowReports(world, x, x2, y)|
    ensures var r := RowReports(world, x, x2, y)[i];
            r.x.Some? && x <= r.x.value <= x2 && r.y == Some(y) && Truthful(world, r)
    decreases x2 - x
  {
    var here := if world.Get(x, y).Some? then 1 else 0;
    if i >= here {
      RowReportsAt(world, x + 1, x2, y, i - here);
    }
  }

  lemma {:induction false} RowReportsAll(world: Grid, x: int, x2: int, y: int, k: int)
    requires x <= k <= x2 && world.Get(k, y).Some?
    ensures Reports(RowReports(world, x, x2, y), k, y)
    decreases x2 - x
  {
    var rs, rest := RowReports(world, x, x2, y), RowReports(world, x + 1, x2, y);
    if k == x {
      assert rs[0].x == Some(k);
    } else {
      RowReportsAll(world, x + 1, x2, y, k);
      var i :| 0 <= i < |rest| && rest[i].x == Some(k) && rest[i].y == Some(y);
      assert rs[|rs| - |rest| + i] == rest[i];
    }
  }

  lemma {:induction false} AreaReportsAt(world: Grid, b: Rect, y: int, i: nat)
    requires i < |AreaReports(world, b, y)|
    ensures var r := AreaReports(world, b, y)[i];
            Truthful(world, r) && b.x1 <= r.x.value <= b.x2 && y <= r.y.value <= b.y2
    decreases b.y2 - y
  {
    var row := RowReports(world, b.x1, b.x2, y);
    if i < |row| {
      RowReportsAt(world, b.x1, b.x2, y, i);
    } else {
      AreaReportsAt(world, b, y + 1, i - |row|);
    }
  }

  lemma {:induction false} AreaReportsAll(world: Grid, b: Rect, y: int, x: int, k: int)
    requires b.x1 <= x <= b.x2 && y <= k <= b.y2 && world.Get(x, k).Some?
    ensures Reports(AreaReports(world, b, y), x, k)
    decreases b.y2 - y
  {
    var row, rest := RowReports(world, b.x1, b.x2, y), AreaReports(world, b, y + 1);
    if k == y {
      RowReportsAll(world, b.x1, b.x2, y, x);
      var i :| 0 <= i < |row| && row[i].x == Some(x) && row[i].y == Some(k);
      assert (row + rest)[i] == row[i];
    } else {
      AreaReportsAll(world, b, y + 1, x, k);
      var i :| 0 <= i < |rest| && rest[i].x == Some(x) && rest[i].y == Some(k);
      assert (row + rest)[|row| + i] == rest[i];
    }
  }

  /** Some game answers every load of any world faithfully. */
  lemma FaithfulGameScans(world: Grid, bs: seq<Rect>)
    ensures AllScan(world, FaithfulGame(world), bs)
  {
    forall i | 0 <= i < |bs| ensures Scans(world, bs[i], FaithfulGame(world)(bs[i]).value) {
      var b := bs[i];
      var rs := AreaReports(world, b, b.y1);
      forall j | 0 <= j < |rs| ensures Truthful(world, rs[j]) && b.Has(rs[j].x.value, rs[j].y.value) {
        AreaReportsAt(world, b, b.y1, j);
      }
      forall x, y | b.Has(x, y) && world.Get(x, y).Some? ensures Reports(rs, x, y) {
        AreaReportsAll(world, b, b.y1, x, y);
      }
    }
  }

  // ---------------------------------------------------------------- the cache object

  class TileCache {
    const mapWidth: nat
    const mapHeight: nat
    var tiles: array2<Option<TileData>>
    var loaded: bool
    var version: nat
    ghost var view: Grid

    ghost predicate Valid()
      reads this, tiles
    {
      && tiles.Length0 == mapWidth && tiles.Length1 == mapHeight
      && view.width == mapWidth && view.height == mapHeight && HoldsMapTiles(view)
      && (forall x, y :: 0 <= x < mapWidth && 0 <= y < mapHeight ==> view.Get(x, y) == tiles[x, y])
    }

    constructor (mapWidth: nat, mapHeight: nat)
      ensures Valid() && fresh(tiles)
      ensures this.mapWidth == mapWidth && this.mapHeight == mapHeight && !loaded && version == 0
      ensures view == Grid(mapWidth, mapHeight, map[])
    {
      this.mapWidth := mapWidth;
      this.mapHeight := mapHeight;
      tiles := new Option<TileData>[mapWidth, mapHeight]((_, _) => None);
      loaded := false;
      version := 0;
      view := Grid(mapWidth, mapHeight, map[]);
    }

    method Get(x: int, y: int) returns (t: Option<TileData>)
      requires Valid()
      ensures t == view.Get(x, y)
    {
      if 0 <= x < mapWidth && 0 <= y < mapHeight {
        return tiles[x, y];
      }
      return None;
    }

    /** What a search reads, as a value: no search changes the cache. */
    method Snapshot() returns (g: Grid)
      requires Valid()
      ensures g == view
    {
      g := Grid(mapWidth, mapHeight,
                map x, y | 0 <= x < mapWidth && 0 <= y < mapHeight && tiles[x, y].Some? :: (x, y) := tiles[x, y].value);
      assert forall x, y :: g.InMap(x, y) ==> g.Get(x, y) == tiles[x, y];
      SameTiles(g, view);
    }

    method ApplyTile(data: TileReport)
      requires Valid()
      modifies this`view, tiles
      ensures Valid() && view == Apply(old(view), data)
    {
      var x, y := OrElse(data.x, -1), OrElse(data.y, -1);
      if 0 <= x < mapWidth && 0 <= y < mapHeight {
        tiles[x, y] := Some(Described(data));
      }
      view := Apply(view, data);
    }

    /** Applies one batch's records in order. */
    method ApplyBatch(records: seq<TileReport>)
      requires Valid()
      modifies this`view, tiles
      ensures Valid() && view == ApplyAll(old(view), records)
    {
      for i := 0 to |records|
        invariant Valid() && view == ApplyAll(old(view), records[..i])
      {
        ApplyTile(records[i]);
        assert records[..i + 1][..i] == records[..i];
      }
      assert records[..|records|] == records;
    }

    /** Requests one batch; a failed request applies nothing. */
    method LoadBatch(game: Game, batch: Rect) returns (count: nat)
      requires Valid()
      modifies this`view, tiles
      ensures Valid() && view == ApplyAll(old(view), OrElse(game(batch), [])) && count == |OrElse(game(batch), [])|
    {
      var reply := game(batch);
      count := 0;
      if reply.Some? {
        ApplyBatch(reply.value);
        count := |reply.value|;
      }
    }

    /** The inner loop: the batches of one column strip, from the top down. */
    method LoadStrip(game: Game, r: Rect, cx: int) returns (count: nat)
      requires Valid() && cx <= r.x2
      modifies this`view, tiles
      ensures Valid() && view == ApplyAll(old(view), Received(game, Strip(r, cx, r.y1)))
      ensures count == |Received(game, Strip(r, cx, r.y1))|
    {
      ghost var all := Received(game, Strip(r, cx, r.y1));
      count := 0;
      var cy := r.y1;
      while cy <= r.y2
        invariant Valid()
        invariant ApplyAll(view, Received(game, Strip(r, cx, cy))) == ApplyAll(old(view), all)
        invariant count + |Received(game, Strip(r, cx, cy))| == |all|
        decreases r.y2 - cy
      {
        var ex, ey := Min(cx + BATCH_SIZE - 1, r.x2), Min(cy + BATCH_SIZE - 1, r.y2);
        var batch := Rect(cx, cy, ex, ey);
        assert Strip(r, cx, cy)[1..] == Strip(r, cx, cy + BATCH_SIZE);
        ApplyAllConcat(view, OrElse(game(batch), []), Received(game, Strip(r, cx, cy + BATCH_SIZE)));
        var n := LoadBatch(game, batch);
        count := count + n;
        cy := cy + BATCH_SIZE;
      }
    }

    method LoadArea(game: Game, r: Rect) returns (count: nat)
      requires Valid()
      modifies this`view, this`version, tiles
      ensures Valid() && version == old(version) + 1
      ensures view == ApplyAll(old(view), Received(game, Batches(r)))
      ensures count == |Received(game, Batches(r))|
    {
      ghost var all := Received(game, Batches(r));
      count := 0;
      var cx := r.x1;
      while cx <= r.x2
        invariant Valid() && version == old(version)
        invariant ApplyAll(view, Received(game, BatchesFrom(r, cx))) == ApplyAll(old(view), all)
        invariant count + |Received(game, BatchesFrom(r, cx))| == |all|
        decreases r.x2 - cx
      {
        ghost var strip, later := Strip(r, cx, r.y1), BatchesFrom(r, cx + BATCH_SIZE);
        ReceivedConcat(game, strip, later);
        ApplyAllConcat(view, Received(game, strip), Received(game, later));
        var n := LoadStrip(game, r, cx);
        count := count + n;
        cx := cx + BATCH_SIZE;
      }
      version := version + 1;
    }

    method LoadFull(game: Game) returns (count: nat)
      requires Valid()
      modifies this`view, this`version, this`loaded, tiles
      ensures Valid() && loaded && version == old(version) + 1
      ensures count == |Received(game, Batches(Rect(1, 1, mapWidth - 1, mapHeight - 1)))|
      ensures view == ApplyAll(old(view), Received(game, Batches(Rect(1, 1, mapWidth - 1, mapHeight - 1))))
    {
      count := LoadArea(game, Rect(1, 1, mapWidth - 1, mapHeight - 1));
      loaded := true;
    }

    method LoadCorridor(game: Game, x1: int, y1: int, x2: int, y2: int, margin: int) returns (count: nat)
      requires Valid()
      modifies this`view, this`version, tiles
      ensures Valid() && version == old(version) + 1
      ensures count == |Received(game, Batches(Corridor(mapWidth, mapHeight, x1, y1, x2, y2, margin)))|
      ensures view == ApplyAll(old(view), Received(game, Batches(Corridor(mapWidth, mapHeight, x1, y1, x2, y2, margin))))
    {
      var lx := Max(1, Min(x1, x2) - margin);
      var ly := Max(1, Min(y1, y2) - margin);
      var hx := Min(mapWidth - 1, Max(x1, x2) + margin);
      var hy := Min(mapHeight - 1, Max(y1, y2) + margin);
      count := LoadArea(game, Rect(lx, ly, hx, hy));
    }
  }

  lemma {:induction false} ApplyAllConcat(g: Grid, a: seq<TileReport>, b: seq<TileReport>)
    ensures ApplyAll(g, a + b) == ApplyAll(ApplyAll(g, a), b)
    decreases |b|
  {
    if b == [] {
      assert a + b == a;
    } else {
      ApplyAllConcat(g, a, b[..|b| - 1]);
      assert (a + b)[..|a + b| - 1] == a + b[..|b| - 1];
    }
  }
}
