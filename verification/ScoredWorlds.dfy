/**
  From a scenario to the settings its world is generated from. A scored scenario that omits a
  locked setting gets the profile's value, and so all scored worlds agree on what is locked.
*/
module ScoredWorlds {
  import opened Options
  import opened Sequences
  import opened OrderedMaps
  import opened Decimals
  import opened Bits
  import opened BenchmarkProfiles

  type Table = map<string, string>

  const LANDSCAPES: Table := map[
    "temperate" := "0", "sub-arctic" := "1", "sub-tropical" := "2", "toyland" := "3", "arctic" := "1", "tropic" := "2"]
  const TERRAINS: Table := map[
    "very_flat" := "0", "flat" := "1", "hilly" := "2", "mountainous" := "3", "alpinist" := "4", "custom" := "5"]
  const VARIETIES: Table := map[
    "none" := "0", "very_low" := "1", "low" := "2", "medium" := "3", "high" := "4", "very_high" := "5"]
  const SMOOTHNESSES: Table := map["very_smooth" := "0", "smooth" := "1", "rough" := "2", "very_rough" := "3"]
  const RIVER_AMOUNTS: Table := map["none" := "0", "few" := "1", "medium" := "2", "many" := "3"]
  const SEA_LEVELS: Table := map["very_low" := "0", "low" := "1", "medium" := "2", "high" := "3", "custom" := "4"]
  const TOWN_COUNTS: Table := map["very_low" := "0", "low" := "1", "normal" := "2", "high" := "3", "custom" := "4"]
  const INDUSTRIES: Table := map[
    "funding_only" := "0", "minimal" := "1", "very_low" := "2", "low" := "3", "normal" := "4", "high" := "5", "custom" := "6"]
  const TOWN_NAMES: Table := map[
    "english" := "0", "french" := "1", "german" := "2", "american" := "3", "latin_american" := "4", "silly" := "5",
    "swedish" := "6", "dutch" := "7", "finnish" := "8", "polish" := "9", "slovak" := "10", "norwegian" := "11",
    "hungarian" := "12", "austrian" := "13", "romanian" := "14", "czech" := "15", "swiss" := "16", "danish" := "17",
    "turkish" := "18", "italian" := "19", "catalan" := "20", "english_additional" := "21"]

  function Code(table: Table, v: Value, default: string): string {
    if v.Str? && v.s in table then table[v.s] else default
  }

  datatype Config = Config(
    name: Option<Value>,
    id: Option<Value>,
    scored: Option<Value>,
    world: Section,
    numAi: Option<Value>,
    competitorsInterval: Option<Value>,
    maxLoan: Option<Value>,
    timekeeping: Option<Value>,
    minutesPerYear: Option<Value>)

  function IdOf(c: Config): string {
    AsText(OrElse(c.id, Str(AsText(OrElse(c.name, Str("default"))))))
  }

  predicate Scored(p: Profile, c: Config) {
    ResolveScored(p, c.scored, c.world, IdOf(c)).0
  }

  // ---------------------------------------------------------------- map size

  function Log2(n: int): nat {
    if n <= 1 then 0 else 1 + Log2(n / 2)
  }

  method ComputeLog2(size: int) returns (result: nat)
    ensures result == Log2(size)
    ensures size >= 1 ==> Pow2(result) <= size < Pow2(result + 1)
  {
    var n := size;
    result := 0;
    while n > 1
      invariant result + Log2(n) == Log2(size)
    {
      n := n / 2;
      result := result + 1;
    }
    if size >= 1 {
      Log2Bounds(size);
    }
  }

  lemma {:induction false} Log2Bounds(n: int)
    requires n >= 1
    ensures Pow2(Log2(n)) <= n < Pow2(Log2(n) + 1)
  {
    if n > 1 {
      Log2Bounds(n / 2);
    }
  }

  lemma {:induction false} Log2OfPow2(k: nat)
    ensures Log2(Pow2(k)) == k
  {
    if k > 0 {
      Log2OfPow2(k - 1);
    }
  }

  ghost predicate IsPowerOfTwo(n: int) {
    exists k: nat :: Pow2(k) == n
  }

  /** The written exponent gives the size back exactly when the size is a power of two. */
  lemma SizeComesBackIff(n: int)
    ensures Pow2(Log2(n)) == n <==> IsPowerOfTwo(n)
  {
    if k: nat :| Pow2(k) == n {
      Log2OfPow2(k);
    }
  }

  // ---------------------------------------------------------------- water borders

  function Bit(m: Section, border: Field, weight: nat): nat {
    if Truthy(Read(m, border, Int(0))) then weight else 0
  }

  /** 16 for random edges, 15 for water all round, and otherwise one bit for each border asked for. */
  function WaterMask(m: Section, edges: Value): nat {
    var resolved := if Truthy(edges) then edges else Read(m, MapEdges, Str("random"));
    if resolved == Str("random") then 16
    else if resolved == Str("all_water") then 15
    else Bit(m, BorderNE, 1) + Bit(m, BorderSE, 2) + Bit(m, BorderSW, 4) + Bit(m, BorderNW, 8)
  }

  lemma OrBit(mask: nat, k: nat)
    requires mask < Pow2(k)
    ensures Or(mask, Pow2(k)) == mask + Pow2(k)
  {
    OrBelowShiftIsSum(1, k, mask);
    OrCommutes(mask, Pow2(k));
  }

  lemma OrBorder(mask: nat, weight: nat)
    requires weight in {1, 2, 4, 8} && mask < weight
    ensures Or(mask, weight) == mask + weight
  {
    var k := if weight == 1 then 0 else if weight == 2 then 1 else if weight == 4 then 2 else 3;
    assert Pow2(k) == weight;
    OrBit(mask, k);
  }

  method ComputeWaterBorders(m: Section, edges: Value) returns (mask: int)
    ensures mask == WaterMask(m, edges)
  {
    var resolved := if Truthy(edges) then edges else Read(m, MapEdges, Str("random"));
    if resolved == Str("random") {
      return 16;
    }
    if resolved == Str("all_water") {
      mask := SetBorder(1, 2);
      mask := SetBorder(mask, 4);
      mask := SetBorder(mask, 8);
      return;
    }
    mask := 0;
    mask := AddBorder(m, mask, BorderNE, 1);
    mask := AddBorder(m, mask, BorderSE, 2);
    mask := AddBorder(m, mask, BorderSW, 4);
    mask := AddBorder(m, mask, BorderNW, 8);
  }

  method AddBorder(m: Section, before: int, border: Field, weight: nat) returns (mask: int)
    requires weight in {1, 2, 4, 8} && 0 <= before < weight
    ensures mask == before + Bit(m, border, weight)
  {
    mask := before;
    if Truthy(Read(m, border, Int(0))) {
      mask := SetBorder(mask, weight);
    }
  }

  method SetBorder(before: int, weight: nat) returns (mask: int)
    requires weight in {1, 2, 4, 8} && 0 <= before < weight
    ensures mask == before + weight
  {
    OrBorder(before, weight);
    mask := Or(before, weight);
  }

  // ---------------------------------------------------------------- settings

  function MapDefault(f: Field): Option<Value> {
    match f
    case SizeX => Some(Int(256))
    case SizeY => Some(Int(256))
    case Landscape => Some(Str("temperate"))
    case TerrainType => Some(Str("flat"))
    case _ => None
  }

  /** A map setting; in a scored run an omitted locked one takes the profile's value. */
  function LockedRead(p: Profile, m: Section, scored: bool, f: Field, fallback: Value): Value {
    if f in m then m[f]
    else if scored && Get(p.locked, f).Some? then Get(p.locked, f).value
    else fallback
  }

  function Reported(p: Profile): set<Field> {
    (set f | f in Keys(p.allowed)) + {Landscape} + (if p.sizes != [] then {SizeX, SizeY} else {})
  }

  /** What a reported field is recorded as, if anything. */
  function Recorded(p: Profile, m: Section, scored: bool, f: Field): Option<Value> {
    if f in m then Some(m[f])
    else if scored && Get(p.locked, f).Some? then Get(p.locked, f)
    else MapDefault(f)
  }

  /** Readable copies of the reported settings. */
  function Dimensions(p: Profile, m: Section, scored: bool): map<Field, string> {
    map f | f in Reported(p) && Recorded(p, m, scored, f).Some? :: AsText(Recorded(p, m, scored, f).value)
  }

  /** What a map block says, with defaults and locked values filled in. */
  datatype Choices = Choices(
    sizeX: Value, sizeY: Value, landscape: Value, terrain: Value, terrainHeight: Value,
    variety: Value, smoothness: Value, rivers: Value, seaLevel: Value, seaHeight: Value, borders: nat,
    townNames: Value, towns: Value, townNumber: Value, industries: Value, industryNumber: Value,
    year: Value, seed: Option<Value>)

  function ChoicesOf(p: Profile, m: Section, scored: bool): Choices {
    Choices(
      Read(m, SizeX, Int(256)), Read(m, SizeY, Int(256)), Read(m, Landscape, Str("temperate")),
      Read(m, TerrainType, Str("flat")), Read(m, CustomTerrainHeight, Int(30)),
      LockedRead(p, m, scored, Variety, Str("none")), LockedRead(p, m, scored, Smoothness, Str("smooth")),
      LockedRead(p, m, scored, Rivers, Str("medium")), LockedRead(p, m, scored, SeaLevel, Str("medium")),
      Read(m, CustomSeaLevel, Int(1)), WaterMask(m, LockedRead(p, m, scored, MapEdges, Str("random"))),
      LockedRead(p, m, scored, TownNames, Str("english")), LockedRead(p, m, scored, NumberTowns, Str("normal")),
      Read(m, CustomTownNumber, Int(1)), LockedRead(p, m, scored, IndustryDensity, Str("normal")),
      Read(m, CustomIndustryNumber, Int(1)), LockedRead(p, m, scored, StartingYear, Int(1960)),
      if Seed in m then Some(m[Seed]) else None)
  }

  /** The world's settings, a field for each key; an optional one is absent when not written. */
  datatype World = World(
    mapX: string, mapY: string, landscape: string, terrainType: string, customTerrain: Option<string>,
    variety: string, smoothness: string, rivers: string, seaLevel: string, customSea: Option<string>,
    waterBorders: string, townName: string, numberTowns: string, customTowns: Option<string>,
    industryDensity: string, customIndustries: Option<string>, startingYear: string, seed: Option<string>)

  /** The integer that a value is written as. */
  function IntText(v: Value): string {
    match AsInt(v) case None => "" case Some(n) => Written(n)
  }

  function Log2Text(v: Value): string {
    match AsInt(v) case None => "" case Some(n) => Decimal(Log2(n))
  }

  function IfCustom(choice: Value, number: Value): Option<string> {
    if choice == Str("custom") then Some(IntText(number)) else None
  }

  function WorldOf(c: Choices): World {
    World(
      Log2Text(c.sizeX), Log2Text(c.sizeY), Code(LANDSCAPES, c.landscape, "0"),
      Code(TERRAINS, c.terrain, "1"), IfCustom(c.terrain, c.terrainHeight),
      Code(VARIETIES, c.variety, "0"), Code(SMOOTHNESSES, c.smoothness, "1"), Code(RIVER_AMOUNTS, c.rivers, "2"),
      Code(SEA_LEVELS, c.seaLevel, "2"), IfCustom(c.seaLevel, c.seaHeight), Decimal(c.borders),
      Code(TOWN_NAMES, c.townNames, "0"), Code(TOWN_COUNTS, c.towns, "2"), IfCustom(c.towns, c.townNumber),
      Code(INDUSTRIES, c.industries, "4"), IfCustom(c.industries, c.industryNumber), IntText(c.year),
      match c.seed case None => None case Some(v) => Some(IntText(v)))
  }

  predicate CustomReads(choice: Value, number: Value) {
    choice == Str("custom") ==> AsInt(number).Some?
  }

  /** All that is read as an integer is one. */
  predicate IsReadable(c: Choices) {
    && AsInt(c.sizeX).Some? && AsInt(c.sizeY).Some? && AsInt(c.year).Some? && (c.seed.Some? ==> AsInt(c.seed.value).Some?)
    && CustomReads(c.terrain, c.terrainHeight) && CustomReads(c.seaLevel, c.seaHeight)
    && CustomReads(c.towns, c.townNumber) && CustomReads(c.industries, c.industryNumber)
  }

  datatype Run = Run(
    maxCompetitors: string, competitorsInterval: string, maxLoan: Option<string>, timekeeping: string,
    minutesPerYear: string, scenarioId: string, scored: bool, profileVersion: Option<string>)

  /** Companies, pacing and identity; `None` when an integer cannot be read. */
  function RunOf(version: string, c: Config, scored: bool): Option<Run> {
    var ai, interval := OrElse(c.numAi, Int(2)), OrElse(c.competitorsInterval, Int(0));
    var loan, minutes := OrElse(c.maxLoan, Int(300000)), OrElse(c.minutesPerYear, Int(12));
    if AsInt(ai).Some? && AsInt(interval).Some? && AsInt(loan).Some? && AsInt(minutes).Some? then
      Some(Run(IntText(ai), IntText(interval), if AsInt(loan) != Some(300000) then Some(IntText(loan)) else None,
               if AsText(OrElse(c.timekeeping, Str("calendar"))) == "wallclock" then "1" else "0",
               IntText(minutes), IdOf(c), scored, if scored then Some(version) else None))
    else None
  }

  datatype Settings = Settings(world: World, run: Run, dimensions: map<Field, string>)

  /** The settings of a scenario; `None` when a value to be read as an integer is none. */
  function SettingsOf(p: Profile, version: string, c: Config): Option<Settings> {
    var scored := Scored(p, c);
    var choices, run := ChoicesOf(p, c.world, scored), RunOf(version, c, scored);
    if IsReadable(choices) && run.Some? then Some(Settings(WorldOf(choices), run.value, Dimensions(p, c.world, scored)))
    else None
  }

  // ---------------------------------------------------------------- what a scored world is pinned to

  /** No number or truth value is written like this word. */
  ghost predicate IsWord(w: string) {
    forall v: Value :: AsText(v) == w ==> v == Str(w)
  }

  lemma WrittenStart(n: int)
    ensures Written(n) != "" && (Written(n)[0] == '-' || '0' <= Written(n)[0] <= '9')
  {
    NumeralOfDecimal(if n < 0 then -n else n);
  }

  lemma LowerCaseIsWord(w: string)
    requires w != "" && 'a' <= w[0] <= 'z'
    ensures IsWord(w)
  {
    forall v: Value ensures AsText(v) == w ==> v == Str(w) {
      match v
      case Int(n) => WrittenStart(n);
      case Str(_) =>
      case Bool(_) =>
    }
  }

  /** In a scored world of any profile, a setting locked to a word reads as that word and one
      locked to a number reads as that number, whether it was omitted or restated. */
  lemma LockedReadIsPinned(p: Profile, c: Config, f: Field, required: Value, fallback: Value)
    requires Scored(p, c) && Get(p.locked, f) == Some(required)
    ensures var v := LockedRead(p, c.world, true, f, fallback);
      && (required.Str? && IsWord(required.s) ==> v == required)
      && (required.Int? ==> AsInt(v) == Some(required.n))
  {
    ScoredIff(p, c.scored, c.world, IdOf(c));
    var i := IndexOf(p.locked, f);
    MatchesItself(required);
  }

  lemma {:induction false} IndexOf(locked: OrderedMap<Field, Value>, f: Field) returns (i: nat)
    requires Get(locked, f).Some?
    ensures i < |locked| && locked[i] == (f, Get(locked, f).value)
    decreases |locked|
  {
    if locked[0].0 == f {
      i := 0;
    } else {
      var j := IndexOf(locked[1..], f);
      i := j + 1;
    }
  }

  /** The profile locks what the built-in rules lock; what it allows is its own affair. */
  predicate LocksTheWorld(p: Profile) {
    && Get(p.locked, Variety) == Some(Str("none"))
    && Get(p.locked, Smoothness) == Some(Str("smooth"))
    && Get(p.locked, Rivers) == Some(Str("medium"))
    && Get(p.locked, SeaLevel) == Some(Str("medium"))
    && Get(p.locked, MapEdges) == Some(Str("random"))
    && Get(p.locked, StartingYear) == Some(Int(2020))
    && Get(p.locked, TownNames) == Some(Str("english"))
    && Get(p.locked, NumberTowns) == Some(Str("normal"))
    && Get(p.locked, IndustryDensity) == Some(Str("normal"))
    && Get(p.locked, Landscape) == Some(Str("temperate"))
  }

  lemma BuiltInLocksTheWorld()
    ensures LocksTheWorld(BUILT_IN)
  {
    var l := BUILT_IN.locked;
    assert Distinct(Keys(l));
    GetAt(l, 0);
    GetAt(l, 1);
    GetAt(l, 2);
    GetAt(l, 3);
    GetAt(l, 4);
    GetAt(l, 5);
    GetAt(l, 6);
    GetAt(l, 7);
    GetAt(l, 8);
    GetAt(l, 9);
  }

  /** What a scored world is generated from, as far as it is locked. */
  predicate ReadsPinned(c: Choices) {
    && c.variety == Str("none") && c.smoothness == Str("smooth") && c.rivers == Str("medium")
    && c.seaLevel == Str("medium") && c.borders == 16 && AsInt(c.year) == Some(2020)
    && c.townNames == Str("english") && c.towns == Str("normal") && c.industries == Str("normal")
    && c.landscape == Str("temperate")
  }

  lemma WordIsRead(p: Profile, c: Config, f: Field, w: string, fallback: Value)
    requires Scored(p, c) && Get(p.locked, f) == Some(Str(w)) && w != "" && 'a' <= w[0] <= 'z'
    ensures LockedRead(p, c.world, true, f, fallback) == Str(w)
  {
    LowerCaseIsWord(w);
    LockedReadIsPinned(p, c, f, Str(w), fallback);
  }

  lemma ScoredReadsPinned(p: Profile, c: Config)
    requires LocksTheWorld(p) && Scored(p, c)
    ensures ReadsPinned(ChoicesOf(p, c.world, true))
  {
    WordIsRead(p, c, Variety, "none", Str("none"));
    WordIsRead(p, c, Smoothness, "smooth", Str("smooth"));
    WordIsRead(p, c, Rivers, "medium", Str("medium"));
    WordIsRead(p, c, SeaLevel, "medium", Str("medium"));
    WordIsRead(p, c, MapEdges, "random", Str("random"));
    LockedReadIsPinned(p, c, StartingYear, Int(2020), Int(1960));
    WordIsRead(p, c, TownNames, "english", Str("english"));
    WordIsRead(p, c, NumberTowns, "normal", Str("normal"));
    WordIsRead(p, c, IndustryDensity, "normal", Str("normal"));
    WordIsRead(p, c, Landscape, "temperate", Str("temperate"));
  }

  /** The settings that every scored world is generated with. */
  predicate IsPinned(w: World) {
    && w.landscape == "0" && w.variety == "0" && w.smoothness == "1" && w.rivers == "2" && w.seaLevel == "2"
    && w.waterBorders == "16" && w.townName == "0" && w.numberTowns == "2" && w.industryDensity == "4"
    && w.startingYear == "2020" && w.customSea == None && w.customTowns == None && w.customIndustries == None
  }

  lemma ShortCodes()
    ensures Code(LANDSCAPES, Str("temperate"), "0") == "0" && Code(VARIETIES, Str("none"), "0") == "0"
    ensures Code(SMOOTHNESSES, Str("smooth"), "1") == "1" && Code(RIVER_AMOUNTS, Str("medium"), "2") == "2"
  {
  }

  lemma LevelCodes()
    ensures Code(SEA_LEVELS, Str("medium"), "2") == "2" && Code(TOWN_COUNTS, Str("normal"), "2") == "2"
    ensures Code(INDUSTRIES, Str("normal"), "4") == "4"
  {
  }

  lemma EnglishCode()
    ensures Code(TOWN_NAMES, Str("english"), "0") == "0"
  {
  }

  lemma Numbers()
    ensures Decimal(16) == "16" && Written(2020) == "2020"
  {
    assert Decimal(20) == "20" && Decimal(202) == "202";
  }

  lemma PinnedWorld(c: Choices)
    requires ReadsPinned(c)
    ensures IsPinned(WorldOf(c))
  {
    ShortCodes();
    LevelCodes();
    EnglishCode();
    Numbers();
  }

  /** Every scored world is generated with the same values for all that is locked, and with no
      custom sea level, town count or industry count. */
  lemma ScoredWorldIsPinned(p: Profile, version: string, c: Config)
    requires LocksTheWorld(p) && Scored(p, c) && SettingsOf(p, version, c).Some?
    ensures IsPinned(SettingsOf(p, version, c).value.world)
  {
    ScoredReadsPinned(p, c);
    PinnedWorld(ChoicesOf(p, c.world, true));
  }

  // ---------------------------------------------------------------- omitting or restating

  const LOCKED_FIELDS := {
    Variety, Smoothness, Rivers, SeaLevel, MapEdges, StartingYear, TownNames, NumberTowns, IndustryDensity, Landscape}

  ghost predicate SameUnlocked(a: Section, b: Section) {
    forall f :: f !in LOCKED_FIELDS ==> (f in a <==> f in b) && (f in a ==> a[f] == b[f])
  }

  lemma SameRead(a: Section, b: Section, f: Field, default: Value)
    requires SameUnlocked(a, b) && f !in LOCKED_FIELDS
    ensures Read(a, f, default) == Read(b, f, default) && (f in a <==> f in b)
  {
  }

  lemma SameChoices(p: Profile, a: Section, b: Section, year: Value)
    requires SameUnlocked(a, b)
    requires ReadsPinned(ChoicesOf(p, a, true)) && ReadsPinned(ChoicesOf(p, b, true))
    ensures ChoicesOf(p, a, true).(year := year) == ChoicesOf(p, b, true).(year := year)
  {
    SameRead(a, b, SizeX, Int(256));
    SameRead(a, b, SizeY, Int(256));
    SameRead(a, b, TerrainType, Str("flat"));
    SameRead(a, b, CustomTerrainHeight, Int(30));
    SameRead(a, b, CustomSeaLevel, Int(1));
    SameRead(a, b, CustomTownNumber, Int(1));
    SameRead(a, b, CustomIndustryNumber, Int(1));
    SameRead(a, b, Seed, Int(0));
  }

  /** A year is used as the number it is read as, however it is written. */
  lemma YearIsANumber(c: Choices, d: Choices)
    requires c.(year := d.year) == d && AsInt(c.year) == AsInt(d.year)
    ensures WorldOf(c) == WorldOf(d) && (IsReadable(c) <==> IsReadable(d))
  {
  }

  lemma SameDimensions(p: Profile, a: Section, b: Section)
    requires SameUnlocked(a, b) && Get(p.locked, Landscape) == Some(Str("temperate"))
    requires forall f :: f in Keys(p.allowed) ==> f !in LOCKED_FIELDS
    requires Read(a, Landscape, Str("temperate")) == Read(b, Landscape, Str("temperate")) == Str("temperate")
    ensures Dimensions(p, a, true) == Dimensions(p, b, true)
  {
    forall f | f in Reported(p) ensures Recorded(p, a, true, f) == Recorded(p, b, true, f) {
      assert f == Landscape || f !in LOCKED_FIELDS;
    }
  }

  lemma SameRun(version: string, a: Config, b: Config)
    requires b == a.(scored := b.scored, world := b.world)
    ensures RunOf(version, a, true) == RunOf(version, b, true)
  {
  }

  /** Two scored scenarios that differ only in which locked settings they restate, and in whether
      they claim to be scored, have the same settings: the same world, identity and columns. */
  lemma RestatingChangesNothing(p: Profile, version: string, a: Config, b: Config)
    requires LocksTheWorld(p) && Scored(p, a) && Scored(p, b)
    requires forall f :: f in Keys(p.allowed) ==> f !in LOCKED_FIELDS
    requires b == a.(scored := b.scored, world := b.world) && SameUnlocked(a.world, b.world)
    ensures SettingsOf(p, version, a) == SettingsOf(p, version, b)
  {
    ScoredReadsPinned(p, a);
    ScoredReadsPinned(p, b);
    var c, d := ChoicesOf(p, a.world, true), ChoicesOf(p, b.world, true);
    SameChoices(p, a.world, b.world, d.year);
    YearIsANumber(c, d);
    SameRun(version, a, b);
    SameDimensions(p, a.world, b.world);
  }

  // ---------------------------------------------------------------- where the profile does not reach

  /** Whatever word the profile locks the landscape to, an omitted landscape is generated as
      temperate: the lock is kept exactly when it is restated or is that default. */
  lemma LandscapeFollowsLockIff(p: Profile, c: Config, w: string)
    requires Scored(p, c) && Get(p.locked, Landscape) == Some(Str(w)) && IsWord(w)
    ensures ChoicesOf(p, c.world, true).landscape == Str(w) <==> Landscape in c.world || w == "temperate"
  {
    LockedReadIsPinned(p, c, Landscape, Str(w), Str("temperate"));
  }

  /** A scored size is one of the profile's exactly when it is written or the default is one. */
  lemma SizeIsListedIff(p: Profile, c: Config)
    requires Scored(p, c) && p.sizes != []
    ensures Admits(p.sizes, ChoicesOf(p, c.world, true).sizeX) <==> SizeX in c.world || Admits(p.sizes, Int(256))
    ensures Admits(p.sizes, ChoicesOf(p, c.world, true).sizeY) <==> SizeY in c.world || Admits(p.sizes, Int(256))
  {
    ScoredIff(p, c.scored, c.world, IdOf(c));
  }

  lemma ListedPowers()
    ensures IsPowerOfTwo(64) && IsPowerOfTwo(128) && IsPowerOfTwo(256) && IsPowerOfTwo(512) && IsPowerOfTwo(1024)
  {
    assert Pow2(4) == 16;
    assert Pow2(6) == 64 && Pow2(8) == 256;
    assert Pow2(7) == 128 && Pow2(9) == 512 && Pow2(10) == 1024;
  }

  /** The built-in rules meet what is asked of the sizes above. */
  lemma BuiltInSizes()
    ensures Admits(BUILT_IN.sizes, Int(256))
    ensures forall i :: 0 <= i < |BUILT_IN.sizes| ==> BUILT_IN.sizes[i].Int? && IsPowerOfTwo(BUILT_IN.sizes[i].n)
  {
    ListedPowers();
    assert Matches(Int(256), BUILT_IN.sizes[2]);
  }

  lemma BuiltInAllowsTerrain(f: Field)
    ensures f in Keys(BUILT_IN.allowed) ==> f !in LOCKED_FIELDS
  {
    assert |BUILT_IN.allowed| == 1 && BUILT_IN.allowed[0].0 == TerrainType;
  }

  /** With the built-in rules, restating a locked setting changes nothing. */
  lemma BuiltInWorldsAgree(version: string, a: Config, b: Config)
    requires Scored(BUILT_IN, a) && Scored(BUILT_IN, b)
    requires b == a.(scored := b.scored, world := b.world) && SameUnlocked(a.world, b.world)
    ensures SettingsOf(BUILT_IN, version, a) == SettingsOf(BUILT_IN, version, b)
  {
    BuiltInLocksTheWorld();
    forall f | f in Keys(BUILT_IN.allowed) ensures f !in LOCKED_FIELDS {
      BuiltInAllowsTerrain(f);
    }
    RestatingChangesNothing(BUILT_IN, version, a, b);
  }
}
