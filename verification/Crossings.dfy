/**
  Bridges and tunnels: the scans that look ahead, in one heading, for the far end of a crossing.
  Road and rail differ in the reach of the scan and in which tiles may carry a bridge end.
*/
module Crossings {
  import opened Options
  import opened PathGraph
  import opened Tiles
  import opened TileCaches

  const COST_BRIDGE_PER_TILE := 150
  const COST_TUNNEL_PER_TILE := 120

  datatype Network = RoadNetwork | RailNetwork

  predicate Carries(net: Network, t: TileData) {
    if net.RoadNetwork? then t.hasRoad else t.hasRail
  }

  /** A road node has no heading; a rail node keeps the heading of the crossing. */
  function Facing(net: Network, d: int): int {
    if net.RoadNetwork? then -1 else d
  }

  function Ahead(g: Grid, sx: int, sy: int, d: int, length: int): Option<TileData> {
    g.Get(sx + Dx(d) * length, sy + Dy(d) * length)
  }

  predicate IsBridgeEnd(net: Network, t: TileData, height: int) {
    !t.water && !t.isStation && (t.buildable || Carries(net, t)) && t.height == height
  }

  predicate IsTunnelEnd(t: TileData, height: int) {
    t.height == height && t.slope != 0
  }

  function BridgeNode(net: Network, sx: int, sy: int, d: int, length: int): PathNode {
    Step(length * COST_BRIDGE_PER_TILE, sx + Dx(d) * length, sy + Dy(d) * length, Facing(net, d), "build_bridge",
         map["bridge_from_x" := sx, "bridge_from_y" := sy, "length" := length])
  }

  function TunnelNode(net: Network, sx: int, sy: int, d: int, length: int): PathNode {
    Step(length * COST_TUNNEL_PER_TILE, sx + Dx(d) * length, sy + Dy(d) * length, Facing(net, d), "build_tunnel",
         map["tunnel_from_x" := sx, "tunnel_from_y" := sy, "length" := length])
  }

  function BridgeFrom(g: Grid, net: Network, sx: int, sy: int, d: int, height: int, length: int, reach: int): Option<PathNode>
    decreases reach - length
  {
    if length > reach then None
    else
      match Ahead(g, sx, sy, d, length)
      case None => None
      case Some(t) =>
        if IsBridgeEnd(net, t, height) then Some(BridgeNode(net, sx, sy, d, length))
        else BridgeFrom(g, net, sx, sy, d, height, length + 1, reach)
  }

  function TunnelFrom(g: Grid, net: Network, sx: int, sy: int, d: int, height: int, length: int, reach: int): Option<PathNode>
    decreases reach - length
  {
    if length > reach then None
    else
      match Ahead(g, sx, sy, d, length)
      case None => None
      case Some(t) =>
        if t.height < height then None
        else if IsTunnelEnd(t, height) then Some(TunnelNode(net, sx, sy, d, length))
        else TunnelFrom(g, net, sx, sy, d, height, length + 1, reach)
  }

  function Bridge(g: Grid, net: Network, sx: int, sy: int, d: int, reach: int): Option<PathNode> {
    match g.Get(sx, sy)
    case None => None
    case Some(t) => BridgeFrom(g, net, sx, sy, d, t.height, 2, reach)
  }

  function Tunnel(g: Grid, net: Network, sx: int, sy: int, d: int, reach: int): Option<PathNode> {
    match g.Get(sx, sy)
    case None => None
    case Some(t) => if t.slope == 0 then None else TunnelFrom(g, net, sx, sy, d, t.height, 2, reach)
  }

  // ---------------------------------------------------------------- what the scans find

  /** `length` is the shortest bridge from the tile: every tile up to it is loaded, only its end suits. */
  ghost predicate IsShortestBridge(g: Grid, net: Network, sx: int, sy: int, d: int, reach: int, length: int) {
    && 2 <= length <= reach
    && g.Get(sx, sy).Some?
    && (forall k :: 2 <= k <= length ==> Ahead(g, sx, sy, d, k).Some?)
    && (forall k :: 2 <= k <= length ==>
          (IsBridgeEnd(net, Ahead(g, sx, sy, d, k).value, g.Get(sx, sy).value.height) <==> k == length))
  }

  /** The shortest tunnel from a sloped tile: nothing on the way is unloaded or lower. */
  ghost predicate IsShortestTunnel(g: Grid, sx: int, sy: int, d: int, reach: int, length: int) {
    && 2 <= length <= reach
    && g.Get(sx, sy).Some? && g.Get(sx, sy).value.slope != 0
    && (forall k :: 2 <= k <= length ==>
          Ahead(g, sx, sy, d, k).Some? && Ahead(g, sx, sy, d, k).value.height >= g.Get(sx, sy).value.height)
    && (forall k :: 2 <= k <= length ==> (IsTunnelEnd(Ahead(g, sx, sy, d, k).value, g.Get(sx, sy).value.height) <==> k == length))
  }

  /** A far end is as high as the near one. A bridge's is dry, no station, and free or built over by its own
      kind of network; a tunnel's is any slope. */
  lemma FarEndIff(far: TileData, height: int)
    ensures forall net :: IsBridgeEnd(net, far, height) <==>
              && far.height == height && !(far.water || far.isStation)
              && (far.buildable || far.hasRoad || far.hasRail)
              && (!far.buildable && !far.hasRail ==> net == RoadNetwork) && (!far.buildable && !far.hasRoad ==> net == RailNetwork)
    ensures IsTunnelEnd(far, height) <==> far.height == height && far.slope != 0
  {
  }

  lemma {:induction false} BridgeFromFinds(g: Grid, net: Network, sx: int, sy: int, d: int, reach: int, from: int, length: int)
    requires 2 <= from && g.Get(sx, sy).Some?
    requires forall k :: 2 <= k < from ==>
               Ahead(g, sx, sy, d, k).Some? && !IsBridgeEnd(net, Ahead(g, sx, sy, d, k).value, g.Get(sx, sy).value.height)
    ensures IsShortestBridge(g, net, sx, sy, d, reach, length)
            ==> BridgeFrom(g, net, sx, sy, d, g.Get(sx, sy).value.height, from, reach) == Some(BridgeNode(net, sx, sy, d, length))
    ensures BridgeFrom(g, net, sx, sy, d, g.Get(sx, sy).value.height, from, reach) == Some(BridgeNode(net, sx, sy, d, length))
            ==> IsShortestBridge(g, net, sx, sy, d, reach, length)
    decreases reach - from
  {
    assert 2 <= length < from ==> Ahead(g, sx, sy, d, length).Some?;
    if from <= reach && Ahead(g, sx, sy, d, from).Some? {
      if IsBridgeEnd(net, Ahead(g, sx, sy, d, from).value, g.Get(sx, sy).value.height) {
        assert BridgeNode(net, sx, sy, d, from).meta["length"] == from;
        assert BridgeNode(net, sx, sy, d, length).meta["length"] == length;
      } else {
        BridgeFromFinds(g, net, sx, sy, d, reach, from + 1, length);
      }
    }
  }

  /** The bridge scan returns the shortest bridge if there is one, and nothing otherwise. */
  lemma BridgeIsShortest(g: Grid, net: Network, sx: int, sy: int, d: int, reach: int, length: int)
    ensures Bridge(g, net, sx, sy, d, reach) == Some(BridgeNode(net, sx, sy, d, length))
            <==> IsShortestBridge(g, net, sx, sy, d, reach, length)
  {
    if g.Get(sx, sy).Some? {
      BridgeFromFinds(g, net, sx, sy, d, reach, 2, length);
    }
  }

  lemma {:induction false} TunnelFromFinds(g: Grid, net: Network, sx: int, sy: int, d: int, reach: int, from: int, length: int)
    requires 2 <= from && g.Get(sx, sy).Some? && g.Get(sx, sy).value.slope != 0
    requires forall k :: 2 <= k < from ==>
               && Ahead(g, sx, sy, d, k).Some?
               && Ahead(g, sx, sy, d, k).value.height >= g.Get(sx, sy).value.height
               && !IsTunnelEnd(Ahead(g, sx, sy, d, k).value, g.Get(sx, sy).value.height)
    ensures IsShortestTunnel(g, sx, sy, d, reach, length)
            ==> TunnelFrom(g, net, sx, sy, d, g.Get(sx, sy).value.height, from, reach) == Some(TunnelNode(net, sx, sy, d, length))
    ensures TunnelFrom(g, net, sx, sy, d, g.Get(sx, sy).value.height, from, reach) == Some(TunnelNode(net, sx, sy, d, length))
            ==> IsShortestTunnel(g, sx, sy, d, reach, length)
    decreases reach - from
  {
    assert 2 <= length < from ==> Ahead(g, sx, sy, d, length).Some?;
    if from <= reach && Ahead(g, sx, sy, d, from).Some? && Ahead(g, sx, sy, d, from).value.height >= g.Get(sx, sy).value.height {
      if IsTunnelEnd(Ahead(g, sx, sy, d, from).value, g.Get(sx, sy).value.height) {
        assert TunnelNode(net, sx, sy, d, from).meta["length"] == from;
        assert TunnelNode(net, sx, sy, d, length).meta["length"] == length;
      } else {
        TunnelFromFinds(g, net, sx, sy, d, reach, from + 1, length);
      }
    }
  }

  lemma TunnelIsShortest(g: Grid, net: Network, sx: int, sy: int, d: int, reach: int, length: int)
    ensures Tunnel(g, net, sx, sy, d, reach) == Some(TunnelNode(net, sx, sy, d, length))
            <==> IsShortestTunnel(g, sx, sy, d, reach, length)
  {
    if g.Get(sx, sy).Some? && g.Get(sx, sy).value.slope != 0 {
      TunnelFromFinds(g, net, sx, sy, d, reach, 2, length);
    }
  }

  lemma {:induction false} ScansFindNodes(g: Grid, net: Network, sx: int, sy: int, d: int, height: int, from: int, reach: int)
    ensures var b := BridgeFrom(g, net, sx, sy, d, height, from, reach);
            b.Some? ==> exists k :: from <= k <= reach && b == Some(BridgeNode(net, sx, sy, d, k))
    ensures var t := TunnelFrom(g, net, sx, sy, d, height, from, reach);
            t.Some? ==> exists k :: from <= k <= reach && t == Some(TunnelNode(net, sx, sy, d, k))
    decreases reach - from
  {
    if from <= reach {
      ScansFindNodes(g, net, sx, sy, d, height, from + 1, reach);
    }
  }

  /** A crossing of `length` tiles in heading `d` joins two tiles of equal height over loaded ones. */
  ghost predicate Spans(g: Grid, net: Network, sx: int, sy: int, d: int, reach: int, n: PathNode, length: int) {
    && 2 <= length <= reach
    && n.x == sx + Dx(d) * length && n.y == sy + Dy(d) * length && n.direction == Facing(net, d)
    && length * 120 <= n.g <= length * 150
    && g.Get(sx, sy).Some? && g.Get(n.x, n.y).Some?
    && (forall k :: 2 <= k <= length ==> Ahead(g, sx, sy, d, k).Some?)
    && g.Get(n.x, n.y).value.height == g.Get(sx, sy).value.height
    && (g.Get(n.x, n.y).value.slope == 0 ==> IsDry(g.Get(n.x, n.y).value))
    && (g.Get(sx, sy).value.slope == 0 ==> IsBridgeEnd(net, g.Get(n.x, n.y).value, g.Get(sx, sy).value.height))
  }

  lemma CrossingSpans(g: Grid, net: Network, sx: int, sy: int, d: int, bridgeReach: int, tunnelReach: int, n: PathNode)
    returns (length: int)
    requires Bridge(g, net, sx, sy, d, bridgeReach) == Some(n) || Tunnel(g, net, sx, sy, d, tunnelReach) == Some(n)
    ensures Spans(g, net, sx, sy, d, if bridgeReach > tunnelReach then bridgeReach else tunnelReach, n, length)
  {
    if Bridge(g, net, sx, sy, d, bridgeReach) == Some(n) {
      ScansFindNodes(g, net, sx, sy, d, g.Get(sx, sy).value.height, 2, bridgeReach);
      length :| 2 <= length <= bridgeReach && n == BridgeNode(net, sx, sy, d, length);
      BridgeIsShortest(g, net, sx, sy, d, bridgeReach, length);
      assert Ahead(g, sx, sy, d, length).Some?;
    } else {
      ScansFindNodes(g, net, sx, sy, d, g.Get(sx, sy).value.height, 2, tunnelReach);
      length :| 2 <= length <= tunnelReach && n == TunnelNode(net, sx, sy, d, length);
      TunnelIsShortest(g, net, sx, sy, d, tunnelReach, length);
      assert Ahead(g, sx, sy, d, length).Some?;
    }
  }

  /** A crossing is as long as the distance between its ends, and lands on the map. */
  lemma SpanLength(g: Grid, net: Network, sx: int, sy: int, d: int, reach: int, n: PathNode, length: int)
    requires 0 <= d < 4 && Spans(g, net, sx, sy, d, reach, n, length)
    ensures Manhattan(sx, sy, n.x, n.y) == length && g.InMap(n.x, n.y)
  {
    if d == 0 || d == 2 {
      assert Dx(d) * length == 0;
    } else {
      assert Dy(d) * length == 0;
    }
  }

  /** What a crossing says of itself: its kind, where it starts and how long it is; a bridge costs 150 a tile, a tunnel 120. */
  predicate IsTold(x: int, y: int, length: int, price: int, action: string, meta: map<string, int>) {
    || (action == "build_bridge" && price == 150 * length
        && meta == map["bridge_from_x" := x, "bridge_from_y" := y, "length" := length])
    || (action == "build_tunnel" && price == 120 * length
        && meta == map["tunnel_from_x" := x, "tunnel_from_y" := y, "length" := length])
  }

  lemma CrossingTells(g: Grid, net: Network, sx: int, sy: int, d: int, bridgeReach: int, tunnelReach: int, n: PathNode)
    requires 0 <= d < 4
    requires Bridge(g, net, sx, sy, d, bridgeReach) == Some(n) || Tunnel(g, net, sx, sy, d, tunnelReach) == Some(n)
    ensures var length := Manhattan(sx, sy, n.x, n.y); length >= 2 && IsTold(sx, sy, length, n.g, n.action, n.meta)
  {
    var length := CrossingSpans(g, net, sx, sy, d, bridgeReach, tunnelReach, n);
    SpanLength(g, net, sx, sy, d, if bridgeReach > tunnelReach then bridgeReach else tunnelReach, n, length);
    if Bridge(g, net, sx, sy, d, bridgeReach) == Some(n) {
      ScansFindNodes(g, net, sx, sy, d, g.Get(sx, sy).value.height, 2, bridgeReach);
      var l :| 2 <= l <= bridgeReach && n == BridgeNode(net, sx, sy, d, l);
      StraightLength(sx, sy, d, l);
    } else {
      ScansFindNodes(g, net, sx, sy, d, g.Get(sx, sy).value.height, 2, tunnelReach);
      var l :| 2 <= l <= tunnelReach && n == TunnelNode(net, sx, sy, d, l);
      StraightLength(sx, sy, d, l);
    }
  }

  lemma StraightLength(x: int, y: int, d: int, length: nat)
    requires 0 <= d < 4
    ensures Manhattan(x, y, x + Dx(d) * length, y + Dy(d) * length) == length
  {
    if d == 0 || d == 2 {
      assert Dx(d) * length == 0;
    } else {
      assert Dy(d) * length == 0;
    }
  }

  // ---------------------------------------------------------------- the same crossing in another grid

  lemma AheadIsBetween(sx: int, sy: int, d: int, length: int, k: int)
    requires 0 <= d < 4 && 0 <= k <= length
    ensures Between(sx, sx + Dx(d) * length, sx + Dx(d) * k) && Between(sy, sy + Dy(d) * length, sy + Dy(d) * k)
  {
    if d == 0 || d == 2 {
      assert Dx(d) * length == 0 && Dx(d) * k == 0;
    } else {
      assert Dy(d) * length == 0 && Dy(d) * k == 0;
    }
  }

  lemma SameAhead(g: Grid, h: Grid, sx: int, sy: int, d: int, length: int, k: int)
    requires 0 <= d < 4 && 0 <= k <= length && Ahead(g, sx, sy, d, k).Some?
    requires SameBetween(g, h, sx, sy, sx + Dx(d) * length, sy + Dy(d) * length)
    ensures Ahead(h, sx, sy, d, k) == Ahead(g, sx, sy, d, k)
  {
    AheadIsBetween(sx, sy, d, length, k);
  }

  /** A crossing that a cache shows is there wherever the tiles it spans are the same. */
  lemma BridgeCarries(g: Grid, h: Grid, net: Network, sx: int, sy: int, d: int, reach: int, n: PathNode)
    requires 0 <= d < 4 && Bridge(g, net, sx, sy, d, reach) == Some(n) && SameBetween(g, h, sx, sy, n.x, n.y)
    ensures Bridge(h, net, sx, sy, d, reach) == Some(n)
  {
    ScansFindNodes(g, net, sx, sy, d, g.Get(sx, sy).value.height, 2, reach);
    var length :| 2 <= length <= reach && n == BridgeNode(net, sx, sy, d, length);
    BridgeIsShortest(g, net, sx, sy, d, reach, length);
    forall k | 2 <= k <= length ensures Ahead(h, sx, sy, d, k) == Ahead(g, sx, sy, d, k) {
      SameAhead(g, h, sx, sy, d, length, k);
    }
    AheadIsBetween(sx, sy, d, length, 0);
    BridgeIsShortest(h, net, sx, sy, d, reach, length);
  }

  lemma TunnelCarries(g: Grid, h: Grid, net: Network, sx: int, sy: int, d: int, reach: int, n: PathNode)
    requires 0 <= d < 4 && Tunnel(g, net, sx, sy, d, reach) == Some(n) && SameBetween(g, h, sx, sy, n.x, n.y)
    ensures Tunnel(h, net, sx, sy, d, reach) == Some(n)
  {
    ScansFindNodes(g, net, sx, sy, d, g.Get(sx, sy).value.height, 2, reach);
    var length :| 2 <= length <= reach && n == TunnelNode(net, sx, sy, d, length);
    TunnelIsShortest(g, net, sx, sy, d, reach, length);
    forall k | 2 <= k <= length ensures Ahead(h, sx, sy, d, k) == Ahead(g, sx, sy, d, k) {
      SameAhead(g, h, sx, sy, d, length, k);
    }
    AheadIsBetween(sx, sy, d, length, 0);
    TunnelIsShortest(h, net, sx, sy, d, reach, length);
  }

  /** So is the tile that it starts over. */
  lemma CrossingCarries(g: Grid, h: Grid, net: Network, sx: int, sy: int, d: int, bridgeReach: int, tunnelReach: int, n: PathNode)
    requires 0 <= d < 4 && SameBetween(g, h, sx, sy, n.x, n.y) && g.Get(sx + Dx(d), sy + Dy(d)).Some?
    requires Bridge(g, net, sx, sy, d, bridgeReach) == Some(n) || Tunnel(g, net, sx, sy, d, tunnelReach) == Some(n)
    ensures Bridge(h, net, sx, sy, d, bridgeReach) == Some(n) || Tunnel(h, net, sx, sy, d, tunnelReach) == Some(n)
    ensures h.Get(sx + Dx(d), sy + Dy(d)) == g.Get(sx + Dx(d), sy + Dy(d))
  {
    var length := CrossingSpans(g, net, sx, sy, d, bridgeReach, tunnelReach, n);
    SameAhead(g, h, sx, sy, d, length, 1);
    if Bridge(g, net, sx, sy, d, bridgeReach) == Some(n) {
      BridgeCarries(g, h, net, sx, sy, d, bridgeReach, n);
    } else {
      TunnelCarries(g, h, net, sx, sy, d, tunnelReach, n);
    }
  }

  // ---------------------------------------------------------------- the scanning loops

  method TryBridge(cache: TileCache, net: Network, sx: int, sy: int, d: int, reach: int) returns (n: Option<PathNode>)
    requires cache.Valid()
    ensures n == Bridge(cache.view, net, sx, sy, d, reach)
  {
    var startTile := cache.Get(sx, sy);
    if startTile == None {
      return None;
    }
    var length := 2;
    while length <= reach
      invariant Bridge(cache.view, net, sx, sy, d, reach)
                == BridgeFrom(cache.view, net, sx, sy, d, startTile.value.height, length, reach)
      decreases reach - length
    {
      var endTile := cache.Get(sx + Dx(d) * length, sy + Dy(d) * length);
      assert endTile == Ahead(cache.view, sx, sy, d, length);
      if endTile == None {
        break;
      }
      if IsBridgeEnd(net, endTile.value, startTile.value.height) {
        return Some(BridgeNode(net, sx, sy, d, length));
      }
      length := length + 1;
    }
    return None;
  }

  method TryTunnel(cache: TileCache, net: Network, sx: int, sy: int, d: int, reach: int) returns (n: Option<PathNode>)
    requires cache.Valid()
    ensures n == Tunnel(cache.view, net, sx, sy, d, reach)
  {
    var startTile := cache.Get(sx, sy);
    if startTile == None || startTile.value.slope == 0 {
      return None;
    }
    var length := 2;
    while length <= reach
      invariant Tunnel(cache.view, net, sx, sy, d, reach)
                == TunnelFrom(cache.view, net, sx, sy, d, startTile.value.height, length, reach)
      decreases reach - length
    {
      var endTile := cache.Get(sx + Dx(d) * length, sy + Dy(d) * length);
      assert endTile == Ahead(cache.view, sx, sy, d, length);
      if endTile == None || endTile.value.height < startTile.value.height {
        break;
      }
      if IsTunnelEnd(endTile.value, startTile.value.height) {
        return Some(TunnelNode(net, sx, sy, d, length));
      }
      length := length + 1;
    }
    return None;
  }
}
