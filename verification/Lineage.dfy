/**
  Why a returned path is what the search priced, for every estimate. A recorded parent may be
  improved after it was recorded; but then the improved entry is cheaper than everything made
  through the old one, and is popped before any of it. So when the goal is popped no entry on its
  own line is out of date.
*/
module Lineage {
  import opened PathGraph
  import opened SearchInvariant

  /** Every entry ever pushed is sound, and none is cheaper than its key's score. */
  ghost predicate AllOk(pb: Problem, s: Search)
    requires Keyed(pb, s)
  {
    forall n :: n in s.lines ==> NodeOk(pb, s, n)
  }

  /** Lines are made of cheaper entries, and each holds the lines of its members. */
  ghost predicate Lines(s: Search) {
    && (forall n :: n in s.open ==> n in s.lines)
    && (forall n, p :: n in s.lines && p in s.lines[n] ==> p in s.lines && p.g < n.g && s.lines[p] <= s.lines[n])
  }

  /** An entry at its key's best score was made by the recorded parent. */
  ghost predicate AllMade(pb: Problem, s: Search)
    requires Keyed(pb, s)
  {
    forall n :: n in s.lines && pb.Key(n) in s.from && n.g == s.g[pb.Key(n)] ==> Made(pb, s, n)
  }

  ghost predicate Made(pb: Problem, s: Search, n: PathNode)
    requires n in s.lines && pb.Key(n) in s.from
  {
    var p := s.from[pb.Key(n)];
    p in s.lines && s.lines[n] == s.lines[p] + {p}
  }

  ghost predicate Lined(pb: Problem, s: Search) {
    Keyed(pb, s) && AllOk(pb, s) && Lines(s) && AllMade(pb, s)
  }

  /** What is in `line` and not in `other` has an estimate of at most `f`. */
  ghost predicate AtMost(line: set<PathNode>, other: set<PathNode>, f: int) {
    forall p :: p in line && p !in other ==> p.f <= f
  }

  /**
    A popped entry that two heap entries do not both come from is no dearer than the dearer of the
    two: while one that was not made through it is cheaper, all that was made through it is not.
  */
  ghost predicate Overtaken(s: Search) {
    forall q, d :: q in s.open && d in s.open ==> AtMost(s.Line(d), s.Line(q), if q.f < d.f then d.f else q.f)
  }

  ghost predicate LineInv(pb: Problem, s: Search) {
    Lined(pb, s) && Overtaken(s)
  }

  /** While an entry is expanded: each heap entry is as dear as each popped entry that only one of their two lines contains. */
  ghost predicate Expands(s: Search, line: set<PathNode>) {
    forall e :: e in s.open ==> AtMost(line, s.Line(e), e.f) && AtMost(s.Line(e), line, e.f)
  }

  lemma InitialLineInv(pb: Problem)
    requires pb.WellFormed()
    ensures LineInv(pb, InitialSearch(pb))
  {
    InitialInv(pb);
  }

  /** Popping a cheapest entry starts an expansion. */
  lemma PopExpands(pb: Problem, s: Search, cur: PathNode)
    requires LineInv(pb, s) && IsCheapest(s, cur)
    ensures LineMid(pb, s.(open := s.open - multiset{cur}), cur)
  {
    PopIsLined(pb, s, s.open - multiset{cur});
    PopIsLeast(s, cur);
  }

  lemma PopIsLined(pb: Problem, s: Search, open: multiset<PathNode>)
    requires Lined(pb, s) && open <= s.open
    ensures Lined(pb, s.(open := open))
  {
    PopAllOk(pb, s, open);
    PopAllMade(pb, s, open);
    PopLines(s, open);
  }

  lemma PopLines(s: Search, open: multiset<PathNode>)
    requires Lines(s) && open <= s.open
    ensures Lines(s.(open := open))
  {
  }

  lemma PopAllOk(pb: Problem, s: Search, open: multiset<PathNode>)
    requires Keyed(pb, s) && AllOk(pb, s)
    ensures Keyed(pb, s.(open := open)) && AllOk(pb, s.(open := open))
  {
    forall n | n in s.lines ensures NodeOk(pb, s.(open := open), n) {
      NodeOkWhateverOpen(pb, s, open, n);
    }
  }

  lemma PopAllMade(pb: Problem, s: Search, open: multiset<PathNode>)
    requires Keyed(pb, s) && AllMade(pb, s)
    ensures AllMade(pb, s.(open := open))
  {
    var s' := s.(open := open);
    forall n | n in s'.lines && pb.Key(n) in s'.from && n.g == s'.g[pb.Key(n)] ensures Made(pb, s', n) {
      assert Made(pb, s, n);
    }
  }

  lemma NodeOkWhateverOpen(pb: Problem, s: Search, open: multiset<PathNode>, n: PathNode)
    requires Keyed(pb, s) && NodeOk(pb, s, n)
    ensures NodeOk(pb, s.(open := open), n)
  {
  }

  lemma PopIsLeast(s: Search, cur: PathNode)
    requires Overtaken(s) && IsCheapest(s, cur)
    ensures Expands(s.(open := s.open - multiset{cur}), s.Line(cur) + {cur})
  {
    var s', line := s.(open := s.open - multiset{cur}), s.Line(cur) + {cur};
    forall e | e in s'.open ensures AtMost(line, s'.Line(e), e.f) && AtMost(s'.Line(e), line, e.f) {
      assert e in s.open && cur.f <= e.f && s'.Line(e) == s.Line(e);
      assert AtMost(s.Line(cur), s.Line(e), e.f) && AtMost(s.Line(e), s.Line(cur), e.f);
    }
  }

  /** The invariant of the inner loop. */
  ghost predicate LineMid(pb: Problem, s: Search, cur: PathNode) {
    Lined(pb, s) && cur in s.lines && Expands(s, s.Line(cur) + {cur})
  }

  /** Pushing an improved neighbour goes on with the expansion. */
  lemma ImproveExpands(pb: Problem, s: Search, cur: PathNode, i: nat)
    requires MidInv(pb, s, cur, i) && i < |pb.cf.neighbors(cur.Here())|
    requires var m := pb.cf.neighbors(cur.Here())[i]; pb.Key(m) in s.g ==> cur.g + m.g < s.g[pb.Key(m)]
    requires LineMid(pb, s, cur)
    ensures LineMid(pb, Improve(pb, s, cur, pb.cf.neighbors(cur.Here())[i]), cur)
  {
    var n := ImproveLined(pb, s, cur, i);
    var s' := Improve(pb, s, cur, pb.cf.neighbors(cur.Here())[i]);
    PushKeepsExpanding(s, s', cur, n);
  }

  lemma PushKeepsExpanding(s: Search, s': Search, cur: PathNode, n: PathNode)
    requires Lines(s) && cur in s.lines && Expands(s, s.Line(cur) + {cur}) && n !in s.lines
    requires s'.open == s.open + multiset{n} && s'.lines == s.lines[n := s.Line(cur) + {cur}]
    ensures cur in s'.lines && Expands(s', s'.Line(cur) + {cur})
  {
    PushedExpands(s, s', s.Line(cur) + {cur}, n);
    assert s'.Line(cur) == s.Line(cur);
  }

  lemma ImproveLined(pb: Problem, s: Search, cur: PathNode, i: nat) returns (n: PathNode)
    requires MidInv(pb, s, cur, i) && i < |pb.cf.neighbors(cur.Here())|
    requires var m := pb.cf.neighbors(cur.Here())[i]; pb.Key(m) in s.g ==> cur.g + m.g < s.g[pb.Key(m)]
    requires Lined(pb, s) && cur in s.lines
    ensures n == Stamp(pb, pb.cf.neighbors(cur.Here())[i], cur) && n !in s.lines
    ensures Lined(pb, Improve(pb, s, cur, pb.cf.neighbors(cur.Here())[i]))
  {
    var m := pb.cf.neighbors(cur.Here())[i];
    n := Stamp(pb, m, cur);
    KeyedImprove(pb, s, cur, i);
    StepCosts(pb, s, cur, m);
    ImproveIsNew(pb, s, n);
    PushedLines(s, Improve(pb, s, cur, m), cur, n);
    ImproveAllOk(pb, s, cur, i);
    ImproveAllMade(pb, s, cur, m);
  }

  lemma StepCosts(pb: Problem, s: Search, cur: PathNode, m: PathNode)
    requires Sound(pb, s) && NodeOk(pb, s, cur) && m in pb.cf.neighbors(cur.Here())
    ensures m.g > 0
  {
    assert cur.Here() in pb.dom;
  }

  lemma ImproveAllOk(pb: Problem, s: Search, cur: PathNode, i: nat)
    requires MidInv(pb, s, cur, i) && i < |pb.cf.neighbors(cur.Here())|
    requires var m := pb.cf.neighbors(cur.Here())[i]; pb.Key(m) in s.g ==> cur.g + m.g < s.g[pb.Key(m)]
    requires Lined(pb, s) && Keyed(pb, Improve(pb, s, cur, pb.cf.neighbors(cur.Here())[i]))
    ensures AllOk(pb, Improve(pb, s, cur, pb.cf.neighbors(cur.Here())[i]))
  {
    var m := pb.cf.neighbors(cur.Here())[i];
    var s' := Improve(pb, s, cur, m);
    KeyedImprove(pb, s, cur, i);
    PushedOk(pb, s, cur, i);
    forall n | n in s'.lines ensures NodeOk(pb, s', n) {
      if n != Stamp(pb, m, cur) {
        NodeOkImprove(pb, s, cur, i, n);
      }
    }
  }

  lemma ImproveIsNew(pb: Problem, s: Search, n: PathNode)
    requires Keyed(pb, s) && AllOk(pb, s) && (pb.Key(n) in s.g ==> n.g < s.g[pb.Key(n)])
    ensures n !in s.lines
  {
  }

  lemma PushedLines(s: Search, s': Search, cur: PathNode, n: PathNode)
    requires Lines(s) && cur in s.lines && n !in s.lines && cur.g < n.g
    requires s'.open == s.open + multiset{n} && s'.lines == s.lines[n := s.Line(cur) + {cur}]
    ensures Lines(s')
  {
    forall x, p | x in s'.lines && p in s'.lines[x] ensures p in s'.lines && p.g < x.g && s'.lines[p] <= s'.lines[x] {
      if x == n {
        assert p == cur || p in s.lines[cur];
      } else {
        assert p in s.lines && p.g < x.g && s.lines[p] <= s.lines[x];
      }
    }
  }

  lemma PushedExpands(s: Search, s': Search, line: set<PathNode>, n: PathNode)
    requires Lines(s) && Expands(s, line) && n !in s.lines
    requires s'.open == s.open + multiset{n} && s'.lines == s.lines[n := line]
    ensures Expands(s', line)
  {
    forall e | e in s'.open ensures AtMost(line, s'.Line(e), e.f) && AtMost(s'.Line(e), line, e.f) {
      if e in s.open {
        assert e in s.lines && s'.Line(e) == s.Line(e);
      }
    }
  }

  lemma ImproveAllMade(pb: Problem, s: Search, cur: PathNode, m: PathNode)
    requires Keyed(pb, s) && AllOk(pb, s) && AllMade(pb, s) && cur in s.lines
    requires pb.Key(m) in s.g ==> cur.g + m.g < s.g[pb.Key(m)]
    requires Keyed(pb, Improve(pb, s, cur, m)) && Stamp(pb, m, cur) !in s.lines
    ensures AllMade(pb, Improve(pb, s, cur, m))
  {
    var s', n := Improve(pb, s, cur, m), Stamp(pb, m, cur);
    assert pb.Key(n) == pb.Key(m);
    forall x | x in s'.lines && pb.Key(x) in s'.from && x.g == s'.g[pb.Key(x)] ensures Made(pb, s', x) {
      if x != n {
        assert NodeOk(pb, s, x);
        assert pb.Key(x) != pb.Key(m);
        assert Made(pb, s, x);
      }
    }
  }

  /** So the dearer of two heap entries is as dear as each popped entry that only one of their two lines contains. */
  lemma ExpandedIsOvertaken(s: Search, line: set<PathNode>)
    requires Expands(s, line)
    ensures Overtaken(s)
  {
    forall q, d | q in s.open && d in s.open ensures AtMost(s.Line(d), s.Line(q), if q.f < d.f then d.f else q.f) {
      assert AtMost(line, s.Line(q), q.f) && AtMost(s.Line(d), line, d.f);
    }
  }

  // ---------------------------------------------------------------- the line of the popped goal

  /** `n` is the popped entry or one it was made through, and is not out of date. */
  ghost predicate OnLine(pb: Problem, s: Search, goal: PathNode, n: PathNode) {
    (n == goal || n in s.Line(goal)) && pb.Key(n) in s.g && n.g == s.g[pb.Key(n)]
  }

  /** The recorded parent of an entry on the cheapest entry's line is on that line, and up to date. */
  lemma ParentIsOnLine(pb: Problem, s: Search, goal: PathNode, n: PathNode)
    requires Inv(pb, s) && LineInv(pb, s) && IsCheapest(s, goal)
    requires OnLine(pb, s, goal, n) && pb.Key(n) in s.from
    ensures OnLine(pb, s, goal, s.from[pb.Key(n)])
  {
    var p := s.from[pb.Key(n)];
    ParentIsInLine(pb, s, goal, n);
    assert NodeOk(pb, s, p) && NodeOk(pb, s, n);
    if Queued(pb, s, pb.Key(p)) {
      var q :| q in s.open && pb.Key(q) == pb.Key(p) && q.g == s.g[pb.Key(p)];
      QueuedWithin(pb, s, p, q);
      OutsideIsDearer(s, goal, p, q);
    } else {
      SettledParent(pb, s, p, n);
    }
  }

  lemma ParentIsInLine(pb: Problem, s: Search, goal: PathNode, n: PathNode)
    requires Lined(pb, s) && goal in s.lines && OnLine(pb, s, goal, n) && pb.Key(n) in s.from
    ensures n in s.lines && s.from[pb.Key(n)] in s.lines && s.from[pb.Key(n)] in s.Line(goal)
  {
    assert n in s.lines && Made(pb, s, n);
    assert s.lines[n] <= s.lines[goal];
  }

  lemma OutsideIsDearer(s: Search, goal: PathNode, p: PathNode, q: PathNode)
    requires Lines(s) && Overtaken(s) && IsCheapest(s, goal) && p in s.Line(goal) && q in s.open
    ensures p.f <= q.f || p.g < q.g
  {
    assert AtMost(s.Line(goal), s.Line(q), q.f);
  }

  lemma QueuedWithin(pb: Problem, s: Search, p: PathNode, q: PathNode)
    requires Lined(pb, s) && p in s.lines && q in s.lines && pb.Key(q) == pb.Key(p)
    ensures p.f - q.f == p.g - q.g
  {
    assert NodeOk(pb, s, q) && NodeOk(pb, s, p);
    assert q.Here() == p.Here();
  }

  lemma SettledParent(pb: Problem, s: Search, p: PathNode, n: PathNode)
    requires Sound(pb, s) && NodeOk(pb, s, p) && NodeOk(pb, s, n) && pb.Key(n) in s.from && p == s.from[pb.Key(n)]
    requires n.g == s.g[pb.Key(n)] && Settled(pb, s, pb.Key(p))
    ensures p.g <= s.g[pb.Key(p)]
  {
    assert Stamped(pb, p, n);
    var m :| m in pb.cf.neighbors(p.Here()) && n == Stamp(pb, m, p);
    assert pb.Key(m) == pb.Key(n);
    SettledStep(pb, s, p.Here(), m);
  }
}
