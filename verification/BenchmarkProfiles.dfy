/**
  Which worlds a scored run may be played on: settings locked to one value, settings allowed to
  vary within a list, and an optional list of scenario ids.
*/
module BenchmarkProfiles {
  import opened Options
  import opened OrderedMaps
  import opened Decimals

  /** The settings of a scenario's map block; `Other` is any key that no code names. */
  datatype Field =
    | SizeX | SizeY | Landscape | TerrainType | Variety | Smoothness | Rivers | SeaLevel | MapEdges
    | StartingYear | TownNames | NumberTowns | IndustryDensity | Seed
    | CustomTerrainHeight | CustomSeaLevel | CustomTownNumber | CustomIndustryNumber
    | BorderNE | BorderSE | BorderSW | BorderNW
    | Other(name: string)

  datatype Value = Int(n: int) | Str(s: string) | Bool(b: bool)

  type Section = map<Field, Value>

  function AsText(v: Value): string {
    match v
    case Int(n) => Written(n)
    case Str(s) => s
    case Bool(b) => if b then "True" else "False"
  }

  function AsInt(v: Value): Option<int> {
    match v
    case Int(n) => Some(n)
    case Str(s) => Parsed(s)
    case Bool(b) => Some(if b then 1 else 0)
  }

  predicate Truthy(v: Value) {
    match v
    case Int(n) => n != 0
    case Str(s) => s != ""
    case Bool(b) => b
  }

  function Read(m: Section, f: Field, default: Value): Value {
    if f in m then m[f] else default
  }

  /** Numeric when a number is expected, textual otherwise. */
  predicate Matches(actual: Value, expected: Value) {
    if expected.Int? then AsInt(actual) == Some(expected.n) else AsText(actual) == AsText(expected)
  }

  /** `sizes` governs both map axes; the other lists govern one field each. */
  datatype Profile = Profile(
    locked: OrderedMap<Field, Value>,
    sizes: seq<Value>,
    allowed: OrderedMap<Field, seq<Value>>,
    allowlist: seq<string>)

  datatype Deviation =
    | LockBroken(field: Field)
    | SizeNotAllowed(field: Field)
    | NotSquare
    | NotAllowed(field: Field)
    | NotListed(scenarioId: string)

  predicate Admits(values: seq<Value>, v: Value) {
    exists i :: 0 <= i < |values| && Matches(v, values[i])
  }

  function Coerced(v: Value): Value {
    match AsInt(v) case None => v case Some(n) => Int(n)
  }

  /** A world that the profile admits. */
  ghost predicate Conforms(p: Profile, m: Section, scenarioId: string) {
    && (forall i :: 0 <= i < |p.locked| && p.locked[i].0 in m ==> Matches(m[p.locked[i].0], p.locked[i].1))
    && (p.sizes != [] ==>
         && (SizeX in m ==> Admits(p.sizes, m[SizeX]))
         && (SizeY in m ==> Admits(p.sizes, m[SizeY]))
         && (SizeX in m && SizeY in m ==> Matches(m[SizeX], Coerced(m[SizeY]))))
    && (forall i :: 0 <= i < |p.allowed| && p.allowed[i].0 in m ==> Admits(p.allowed[i].1, m[p.allowed[i].0]))
    && (p.allowlist != [] ==> scenarioId in p.allowlist)
  }

  // ---------------------------------------------------------------- the list of deviations

  function LockProblems(locked: OrderedMap<Field, Value>, m: Section): seq<Deviation> {
    if locked == [] then []
    else
      var last := locked[|locked| - 1];
      LockProblems(locked[..|locked| - 1], m)
      + (if Matches(Read(m, last.0, last.1), last.1) then [] else [LockBroken(last.0)])
  }

  function RangeProblems(allowed: OrderedMap<Field, seq<Value>>, m: Section): seq<Deviation> {
    if allowed == [] then []
    else
      var last := allowed[|allowed| - 1];
      RangeProblems(allowed[..|allowed| - 1], m)
      + (if last.0 in m && !Admits(last.1, m[last.0]) then [NotAllowed(last.0)] else [])
  }

  function SizeProblems(sizes: seq<Value>, m: Section): seq<Deviation> {
    if sizes == [] then []
    else
      (if SizeX in m && !Admits(sizes, m[SizeX]) then [SizeNotAllowed(SizeX)] else [])
      + (if SizeY in m && !Admits(sizes, m[SizeY]) then [SizeNotAllowed(SizeY)] else [])
      + (if SizeX in m && SizeY in m && !Matches(m[SizeX], Coerced(m[SizeY])) then [NotSquare] else [])
  }

  function Deviations(p: Profile, m: Section, scenarioId: string): seq<Deviation> {
    LockProblems(p.locked, m) + SizeProblems(p.sizes, m) + RangeProblems(p.allowed, m)
    + (if p.allowlist != [] && scenarioId !in p.allowlist then [NotListed(scenarioId)] else [])
  }

  /** What counts as the same value: for a number expected any spelling of it, for text or a truth value the exact text. */
  lemma MatchesIff(actual: Value, expected: Value)
    ensures Matches(actual, expected)
            <==> match (expected, actual)
                 case (Int(n), Int(k)) => k == n
                 case (Int(n), Str(s)) => Parsed(s) == Some(n)
                 case (Int(n), Bool(b)) => n == if b then 1 else 0
                 case (Str(s), Int(k)) => s == Written(k)
                 case (Str(s), Str(t)) => s == t
                 case (Str(s), Bool(b)) => s == if b then "True" else "False"
                 case (Bool(b), Int(_)) => false
                 case (Bool(b), Str(s)) => s == if b then "True" else "False"
                 case (Bool(b), Bool(c)) => b == c
  {
    if expected.Bool? || actual.Bool? {
      assert "True"[0] == 'T' && "False"[0] == 'F';
    }
    if expected.Bool? && actual.Int? {
      WrittenIsNoTruthValue(actual.n);
    }
  }

  lemma {:induction false} WrittenIsNoTruthValue(n: int)
    ensures Written(n) != "True" && Written(n) != "False"
  {
    DecimalEndsInDigit(if n < 0 then -n else n);
    assert "True"[3] == 'e' && "False"[4] == 'e';
  }

  lemma DecimalEndsInDigit(n: nat)
    ensures var d := Decimal(n); |d| >= 1 && '0' <= d[|d| - 1] <= '9'
  {
  }

  lemma {:induction false} LockProblemsAre(locked: OrderedMap<Field, Value>, m: Section, d: Deviation)
    ensures d in LockProblems(locked, m)
            <==> exists i :: 0 <= i < |locked| && locked[i].0 in m && !Matches(m[locked[i].0], locked[i].1) && d == LockBroken(locked[i].0)
    decreases |locked|
  {
    if locked != [] {
      var front, last := locked[..|locked| - 1], locked[|locked| - 1];
      LockProblemsAre(front, m, d);
      MatchesItself(last.1);
      assert forall i :: 0 <= i < |front| ==> front[i] == locked[i];
    }
  }

  lemma {:induction false} RangeProblemsAre(allowed: OrderedMap<Field, seq<Value>>, m: Section, d: Deviation)
    ensures d in RangeProblems(allowed, m)
            <==> exists i :: 0 <= i < |allowed| && allowed[i].0 in m && !Admits(allowed[i].1, m[allowed[i].0]) && d == NotAllowed(allowed[i].0)
    decreases |allowed|
  {
    if allowed != [] {
      var front := allowed[..|allowed| - 1];
      RangeProblemsAre(front, m, d);
      assert forall i :: 0 <= i < |front| ==> front[i] == allowed[i];
    }
  }

  /** Every violation is listed, and nothing else. */
  lemma DeviationsTell(p: Profile, m: Section, scenarioId: string, d: Deviation)
    ensures d in Deviations(p, m, scenarioId)
            <==> match d
                 case LockBroken(f) =>
                   exists i :: 0 <= i < |p.locked| && p.locked[i].0 == f && f in m && !Matches(m[f], p.locked[i].1)
                 case NotAllowed(f) =>
                   exists i :: 0 <= i < |p.allowed| && p.allowed[i].0 == f && f in m && !Admits(p.allowed[i].1, m[f])
                 case SizeNotAllowed(f) => p.sizes != [] && (f == SizeX || f == SizeY) && f in m && !Admits(p.sizes, m[f])
                 case NotSquare =>
                   p.sizes != [] && SizeX in m && SizeY in m
                   && if AsInt(m[SizeY]).Some? then AsInt(m[SizeX]) != AsInt(m[SizeY]) else AsText(m[SizeX]) != AsText(m[SizeY])
                 case NotListed(id) => id == scenarioId && p.allowlist != [] && id !in p.allowlist
  {
    LockProblemsAre(p.locked, m, d);
    RangeProblemsAre(p.allowed, m, d);
  }

  lemma MatchesItself(v: Value)
    ensures Matches(v, v)
  {
  }

  lemma {:induction false} NoLockProblems(locked: OrderedMap<Field, Value>, m: Section)
    ensures LockProblems(locked, m) == []
            <==> forall i :: 0 <= i < |locked| && locked[i].0 in m ==> Matches(m[locked[i].0], locked[i].1)
    decreases |locked|
  {
    if locked != [] {
      var front, last := locked[..|locked| - 1], locked[|locked| - 1];
      NoLockProblems(front, m);
      MatchesItself(last.1);
      assert forall i :: 0 <= i < |front| ==> front[i] == locked[i];
    }
  }

  lemma {:induction false} NoRangeProblems(allowed: OrderedMap<Field, seq<Value>>, m: Section)
    ensures RangeProblems(allowed, m) == []
            <==> forall i :: 0 <= i < |allowed| && allowed[i].0 in m ==> Admits(allowed[i].1, m[allowed[i].0])
    decreases |allowed|
  {
    if allowed != [] {
      var front := allowed[..|allowed| - 1];
      NoRangeProblems(front, m);
      assert forall i :: 0 <= i < |front| ==> front[i] == allowed[i];
    }
  }

  /** The list of deviations is empty for conforming worlds and for no others. */
  lemma DeviationsIff(p: Profile, m: Section, scenarioId: string)
    ensures Deviations(p, m, scenarioId) == [] <==> Conforms(p, m, scenarioId)
  {
    NoLockProblems(p.locked, m);
    NoRangeProblems(p.allowed, m);
    var sizes, others := SizeProblems(p.sizes, m), LockProblems(p.locked, m);
    assert Deviations(p, m, scenarioId) == [] <==>
           others == [] && sizes == [] && RangeProblems(p.allowed, m) == []
           && (p.allowlist != [] ==> scenarioId in p.allowlist);
  }

  // ---------------------------------------------------------------- the loops that collect them

  method FindDeviations(p: Profile, m: Section, scenarioId: string) returns (problems: seq<Deviation>)
    ensures problems == Deviations(p, m, scenarioId)
    ensures problems == [] <==> Conforms(p, m, scenarioId)
  {
    var lockProblems := FindLockProblems(p.locked, m);
    var sizeProblems := FindSizeProblems(p.sizes, m);
    var rangeProblems := FindRangeProblems(p.allowed, m);
    problems := lockProblems + sizeProblems + rangeProblems;
    if p.allowlist != [] && scenarioId !in p.allowlist {
      problems := problems + [NotListed(scenarioId)];
    }
    DeviationsIff(p, m, scenarioId);
  }

  method FindLockProblems(locked: OrderedMap<Field, Value>, m: Section) returns (problems: seq<Deviation>)
    ensures problems == LockProblems(locked, m)
  {
    problems := [];
    for i := 0 to |locked|
      invariant problems == LockProblems(locked[..i], m)
    {
      assert locked[..i + 1][..i] == locked[..i];
      var key, required := locked[i].0, locked[i].1;
      if !Matches(Read(m, key, required), required) {
        problems := problems + [LockBroken(key)];
      }
    }
    assert locked[..|locked|] == locked;
  }

  method FindRangeProblems(allowed: OrderedMap<Field, seq<Value>>, m: Section) returns (problems: seq<Deviation>)
    ensures problems == RangeProblems(allowed, m)
  {
    problems := [];
    for i := 0 to |allowed|
      invariant problems == RangeProblems(allowed[..i], m)
    {
      assert allowed[..i + 1][..i] == allowed[..i];
      var key, values := allowed[i].0, allowed[i].1;
      if key in m && !Admits(values, m[key]) {
        problems := problems + [NotAllowed(key)];
      }
    }
    assert allowed[..|allowed|] == allowed;
  }

  method FindSizeProblems(sizes: seq<Value>, m: Section) returns (problems: seq<Deviation>)
    ensures problems == SizeProblems(sizes, m)
  {
    problems := [];
    if sizes == [] {
      return;
    }
    if SizeX in m && !Admits(sizes, m[SizeX]) {
      problems := problems + [SizeNotAllowed(SizeX)];
    }
    if SizeY in m && !Admits(sizes, m[SizeY]) {
      problems := problems + [SizeNotAllowed(SizeY)];
    }
    if SizeX in m && SizeY in m && !Matches(m[SizeX], Coerced(m[SizeY])) {
      problems := problems + [NotSquare];
    }
  }

  // ---------------------------------------------------------------- is the run scored?

  /** The answer, and the problems to report with it. */
  function ResolveScored(p: Profile, declared: Option<Value>, m: Section, scenarioId: string): (bool, seq<Deviation>) {
    var deviations := Deviations(p, m, scenarioId);
    if declared.Some? && !Truthy(declared.value) then (false, [])
    else if declared.Some? && deviations != [] then (false, deviations)
    else (deviations == [], [])
  }

  predicate OptsOut(declared: Option<Value>) {
    declared == Some(Bool(false)) || declared == Some(Int(0)) || declared == Some(Str(""))
  }

  /** The flag only narrows: a run is scored exactly when its world conforms and nothing opts
      out, and problems are reported exactly when a claim to be scored is refused. */
  lemma ScoredIff(p: Profile, declared: Option<Value>, m: Section, scenarioId: string)
    ensures var (scored, problems) := ResolveScored(p, declared, m, scenarioId);
      && (scored <==> Conforms(p, m, scenarioId) && !OptsOut(declared))
      && (problems != [] <==> declared.Some? && !OptsOut(declared) && !Conforms(p, m, scenarioId))
      && (problems != [] ==> problems == Deviations(p, m, scenarioId))
  {
    DeviationsIff(p, m, scenarioId);
  }

  // ---------------------------------------------------------------- the built-in rules

  const BUILT_IN := Profile(
    [(Variety, Str("none")), (Smoothness, Str("smooth")), (Rivers, Str("medium")), (SeaLevel, Str("medium")),
     (MapEdges, Str("random")), (StartingYear, Int(2020)), (TownNames, Str("english")), (NumberTowns, Str("normal")),
     (IndustryDensity, Str("normal")), (Landscape, Str("temperate"))],
    [Int(64), Int(128), Int(256), Int(512), Int(1024)],
    [(TerrainType, [Str("very_flat"), Str("flat"), Str("hilly"), Str("mountainous"), Str("alpinist")])],
    [])
}
