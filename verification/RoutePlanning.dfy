/**
  From routes that avoid the start's key to all routes of the neighbour graph. When only the start
  itself carries the start's key, a route can be cut at its last visit there.
*/
module RoutePlanning {
  import opened Scaling
  import opened PathGraph
  import opened Popping
  import opened Astar

  /** No state of the domain but the start is filed under the start's key. */
  ghost predicate StartKeyUnique(pb: Problem) {
    forall s :: s in pb.dom && pb.key(s) == pb.key(pb.start) ==> s == pb.start
  }

  /** `p` is a route from the start to the goal tile. */
  ghost predicate RouteTo(pb: Problem, p: seq<PathNode>) {
    IsRoute(pb.cf, pb.start, p) && pb.AtGoal(EndOf(pb.start, p))
  }

  /** No route to the goal costs less than `cost / w`. */
  ghost predicate WithinOfAll(pb: Problem, cost: int, w: nat) {
    forall p :: RouteTo(pb, p) ==> cost <= w * Cost(p)
  }

  lemma {:induction false} CutAtStart(pb: Problem, p: seq<PathNode>) returns (q: seq<PathNode>)
    requires pb.WellFormed() && StartKeyUnique(pb) && IsRoute(pb.cf, pb.start, p)
    ensures pb.Reaches(q, EndOf(pb.start, p)) && Cost(q) <= Cost(p)
    decreases |p|
  {
    if pb.Avoids(p) {
      q := p;
    } else {
      var i :| 0 <= i < |p| && pb.Key(p[i]) == pb.key(pb.start);
      RouteSplit(pb.cf, pb.start, p, i + 1);
      RouteStays(pb, pb.start, p[..i + 1]);
      assert p[i].Here() == pb.start;
      q := CutAtStart(pb, p[i + 1..]);
    }
  }

  /** Every route to the goal has a counterpart, no dearer, that never re-enters the start's key. */
  ghost predicate Cuttable(pb: Problem) {
    forall p :: RouteTo(pb, p) ==> exists q, t :: pb.Reaches(q, t) && pb.AtGoal(t) && Cost(q) <= Cost(p)
  }

  lemma UniqueKeyIsCuttable(pb: Problem)
    requires pb.WellFormed() && StartKeyUnique(pb)
    ensures Cuttable(pb)
  {
    forall p | RouteTo(pb, p) ensures exists q, t :: pb.Reaches(q, t) && pb.AtGoal(t) && Cost(q) <= Cost(p) {
      var q := CutAtStart(pb, p);
      assert pb.Reaches(q, EndOf(pb.start, p)) && pb.AtGoal(EndOf(pb.start, p)) && Cost(q) <= Cost(p);
    }
  }

  lemma AllRoutesWithin(pb: Problem, cost: int, w: nat)
    requires Cuttable(pb)
    requires forall p, t :: pb.Reaches(p, t) && pb.AtGoal(t) ==> cost <= w * Cost(p)
    ensures WithinOfAll(pb, cost, w)
  {
    forall p | RouteTo(pb, p) ensures cost <= w * Cost(p) {
      var q, t :| pb.Reaches(q, t) && pb.AtGoal(t) && Cost(q) <= Cost(p);
      Scaled(w, Cost(q), Cost(p));
    }
  }

  /** Runs the search and restates its answer for every route of the neighbour graph. */
  method FindRoute(pb: Problem, maxIterations: int) returns (r: PathResult, ghost route: seq<PathNode>)
    requires pb.WellFormed() && Cuttable(pb)
    ensures r.found ==> RouteTo(pb, route) && Visits(pb, r.path, route)
    ensures r.found ==> SameWork(r.path, route) && Cost(route) == r.totalCost
    ensures r.found ==> forall w: nat :: w >= 1 && pb.Weighted(w) ==> WithinOfAll(pb, r.totalCost, w)
    ensures !r.found && r.iterations < maxIterations ==> forall p :: !RouteTo(pb, p)
    ensures Enough(pb, maxIterations) ==> r.found || r.iterations < maxIterations
  {
    ghost var popped;
    r, route, popped := FindPath(pb, maxIterations);
    if r.found {
      forall w: nat | w >= 1 && pb.Weighted(w) ensures WithinOfAll(pb, r.totalCost, w) {
        AllRoutesWithin(pb, r.totalCost, w);
      }
    }
  }
}
