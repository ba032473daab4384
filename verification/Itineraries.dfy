/**
  What a returned path tells whoever builds it: which tiles it uses, what is to be done on each, and
  where its crossings start.
*/
module Itineraries {
  import opened PathGraph
  import opened Tiles
  import opened Crossings
  import opened Astar

  /** Which tiles can be used, and what using them takes. */
  datatype Ground = Ground(free: TileData -> bool, action: TileData -> string)

  /** A step of one tile uses a loaded tile that is free; a longer one is a crossing that tells of itself. */
  ghost predicate StepIsTold(g: Grid, ground: Ground, s: State, n: PathNode) {
    var length := Manhattan(s.x, s.y, n.x, n.y);
    && length >= 1
    && if length == 1 then
         && g.Get(n.x, n.y).Some? && ground.free(g.Get(n.x, n.y).value)
         && n.action == ground.action(g.Get(n.x, n.y).value) && n.meta == map[]
       else IsTold(s.x, s.y, length, n.g, n.action, n.meta)
  }

  /** The same of an entry of a path and the one before it; the last entry's action is "end". */
  ghost predicate EntryIsTold(g: Grid, ground: Ground, path: seq<PathStep>, i: nat)
    requires i + 1 < |path|
  {
    var here, next := path[i], path[i + 1];
    var length := Manhattan(here.x, here.y, next.x, next.y);
    && length >= 1
    && if length == 1 then
         && g.Get(next.x, next.y).Some? && ground.free(g.Get(next.x, next.y).value) && next.meta == map[]
         && next.action == if i + 2 == |path| then "end" else ground.action(g.Get(next.x, next.y).value)
       else if i + 2 == |path| then
         && next.action == "end"
         && exists price, action :: IsTold(here.x, here.y, length, price, action, next.meta)
       else
         exists price :: IsTold(here.x, here.y, length, price, next.action, next.meta)
  }

  ghost predicate PathIsTold(g: Grid, ground: Ground, path: seq<PathStep>) {
    forall i :: 0 <= i < |path| - 1 ==> EntryIsTold(g, ground, path, i)
  }

  /** A path that follows a route of such steps. */
  lemma RouteIsTold(g: Grid, ground: Ground, pb: Problem, path: seq<PathStep>, route: seq<PathNode>)
    requires pb.WellFormed() && forall s, n :: s in pb.dom && n in pb.cf.neighbors(s) ==> StepIsTold(g, ground, s, n)
    requires IsRoute(pb.cf, pb.start, route) && Visits(pb, path, route) && SameWork(path, route)
    ensures PathIsTold(g, ground, path)
  {
    forall i | 0 <= i < |path| - 1 ensures EntryIsTold(g, ground, path, i) {
      StepAt(pb.cf, pb.start, route, i);
      StateIsInside(pb, route, i);
      StepTellsEntry(g, ground, path, i, Before(pb.start, route, i), route[i]);
    }
  }

  lemma StateIsInside(pb: Problem, route: seq<PathNode>, i: nat)
    requires pb.WellFormed() && IsRoute(pb.cf, pb.start, route) && i < |route|
    ensures Before(pb.start, route, i) in pb.dom
  {
    RouteSplit(pb.cf, pb.start, route, i);
    RouteStays(pb, pb.start, route[..i]);
  }

  lemma StepTellsEntry(g: Grid, ground: Ground, path: seq<PathStep>, i: nat, s: State, n: PathNode)
    requires i + 1 < |path| && StepIsTold(g, ground, s, n)
    requires path[i].x == s.x && path[i].y == s.y && path[i + 1].x == n.x && path[i + 1].y == n.y
    requires path[i + 1].meta == n.meta && path[i + 1].action == if i + 2 == |path| then "end" else n.action
    ensures EntryIsTold(g, ground, path, i)
  {
  }
}
