/** The integer keys under which the search files its states, and where they can coincide. */
module StateKeys {
  import opened Bits
  import opened PathGraph
  import opened Tiles
  import opened Sequences

  function StateKey(s: State): int {
    if s.direction >= 0 then Or(Or(s.x * 0x1_0000, s.y * 4), s.direction) else Or(s.x * 0x1_0000, s.y)
  }

  lemma ShiftSizes()
    ensures Pow2(2) == 4 && Pow2(16) == 0x1_0000
  {
    assert Pow2(4) == 16;
    assert Pow2(8) == 16 * Pow2(4);
    assert Pow2(12) == 16 * Pow2(8);
  }

  /** Undirected key: the row fits below the shifted column. */
  lemma UndirectedKey(s: State)
    requires s.direction < 0 && 0 <= s.y < 0x1_0000
    ensures StateKey(s) == s.x * 0x1_0000 + s.y
  {
    ShiftSizes();
    OrBelowShiftIsSum(s.x, 16, s.y);
  }

  /** Directed key: the row moves up by two bits to make room for the heading. */
  lemma DirectedKey(s: State)
    requires 0 <= s.direction < 4 && 0 <= s.y < 0x4000
    ensures StateKey(s) == s.x * 0x1_0000 + s.y * 4 + s.direction
  {
    ShiftSizes();
    OrBelowShiftIsSum(s.x, 16, s.y * 4);
    OrBelowShiftIsSum(s.x * 0x4000 + s.y, 2, s.direction);
    assert (s.x * 0x4000 + s.y) * 4 == s.x * 0x1_0000 + s.y * 4;
  }

  lemma NegativeKey(s: State)
    requires s.direction < 0
    ensures StateKey(s) < 0 <==> s.x < 0 || s.y < 0
  {
    OrSign(s.x * 0x1_0000, s.y);
  }

  /** The states of a search without headings: the start, and every tile of the map. */
  ghost function UndirectedStates(g: Grid, sx: int, sy: int): iset<State> {
    iset s: State | s == State(sx, sy, -1) || (g.InMap(s.x, s.y) && s.direction == -1)
  }

  /** Rows below 2^16 keep undirected keys apart; a start outside the map collides with nothing in it. */
  lemma DistinctUndirectedKeys(g: Grid, sx: int, sy: int, s: State, t: State)
    requires g.height <= 0x1_0000 && sy < 0x1_0000
    requires s in UndirectedStates(g, sx, sy) && t in UndirectedStates(g, sx, sy) && StateKey(s) == StateKey(t)
    requires t != State(sx, sy, -1)
    ensures s == t
  {
    NegativeKey(s);
    UndirectedKey(t);
    if 0 <= s.y {
      UndirectedKey(s);
    }
  }

  // ---------------------------------------------------------------- how many keys there are

  function Size(n: int): nat {
    if n < 0 then 0 else n
  }

  function Below(n: nat): set<int> {
    if n == 0 then {} else Below(n - 1) + {n - 1}
  }

  lemma {:induction false} BelowCount(n: nat)
    ensures |Below(n)| == n && forall x :: x in Below(n) <==> 0 <= x < n
    decreases n
  {
    if n > 0 {
      BelowCount(n - 1);
    }
  }

  /** The start's key, and the keys of `rows` numbers in each column. */
  ghost function KeysOf(start: State, width: int, rows: nat, state: (int, int) -> State): set<int> {
    {StateKey(start)} + set c | c in Pairs(Below(Size(width)), rows) :: StateKey(state(c.0, c.1))
  }

  lemma KeysCount(start: State, width: int, rows: nat, state: (int, int) -> State)
    ensures |KeysOf(start, width, rows, state)| <= Size(width) * rows + 1
  {
    var cells := Pairs(Below(Size(width)), rows);
    var keys := set c | c in cells :: StateKey(state(c.0, c.1));
    ImageIsSmaller(cells, keys, (c: (int, int)) => StateKey(state(c.0, c.1)));
    PairsCount(Below(Size(width)), rows);
    BelowCount(Size(width));
  }

  function Undirected(x: int, y: int): State {
    State(x, y, -1)
  }

  /** A row and a heading in one number. */
  function Directed(x: int, yd: int): State {
    State(x, yd / 4, yd % 4)
  }

  ghost function UndirectedKeys(g: Grid, sx: int, sy: int): set<int> {
    KeysOf(State(sx, sy, -1), g.width, Size(g.height), (x, y) => Undirected(x, y))
  }

  ghost function DirectedKeys(g: Grid, sx: int, sy: int): set<int> {
    KeysOf(State(sx, sy, -1), g.width, 4 * Size(g.height), (x, yd) => Directed(x, yd))
  }

  lemma UndirectedKeyIn(g: Grid, sx: int, sy: int, s: State)
    requires s in UndirectedStates(g, sx, sy)
    ensures StateKey(s) in UndirectedKeys(g, sx, sy)
  {
    BelowCount(Size(g.width));
    if s != State(sx, sy, -1) {
      assert (s.x, s.y) in Pairs(Below(Size(g.width)), Size(g.height)) && Undirected(s.x, s.y) == s;
    }
  }

  lemma DirectedKeyIn(g: Grid, sx: int, sy: int, s: State)
    requires s == State(sx, sy, -1) || (g.InMap(s.x, s.y) && 0 <= s.direction < 4)
    ensures StateKey(s) in DirectedKeys(g, sx, sy)
  {
    BelowCount(Size(g.width));
    if s != State(sx, sy, -1) {
      var yd := s.y * 4 + s.direction;
      assert 0 <= yd < 4 * Size(g.height);
      assert (s.x, yd) in Pairs(Below(Size(g.width)), 4 * Size(g.height)) && Directed(s.x, yd) == s;
    }
  }

  /** One key for each tile, and the start's. */
  function UndirectedLimit(g: Grid): nat {
    Size(g.width) * Size(g.height) + 1
  }

  /** Four for each tile, and the start's. */
  function DirectedLimit(g: Grid): nat {
    Size(g.width) * (4 * Size(g.height)) + 1
  }

  lemma UndirectedKeysCount(g: Grid, sx: int, sy: int)
    ensures |UndirectedKeys(g, sx, sy)| <= UndirectedLimit(g)
  {
    KeysCount(State(sx, sy, -1), g.width, Size(g.height), (x, y) => Undirected(x, y));
  }

  lemma DirectedKeysCount(g: Grid, sx: int, sy: int)
    ensures |DirectedKeys(g, sx, sy)| <= DirectedLimit(g)
  {
    KeysCount(State(sx, sy, -1), g.width, 4 * Size(g.height), (x, yd) => Directed(x, yd));
  }
}
