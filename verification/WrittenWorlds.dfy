/**
  What the written settings of a world say, read back: the sizes, the numbers, the borders, and the
  place of each word among the words of its kind.
*/
module WrittenWorlds {
  import opened Options
  import opened OrderedMaps
  import opened Decimals
  import opened Bits
  import opened BenchmarkProfiles
  import opened ScoredWorlds

  // ---------------------------------------------------------------- sizes

  function Width(c: Config): Option<int> {
    AsInt(Read(c.world, SizeX, Int(256)))
  }

  function Height(c: Config): Option<int> {
    AsInt(Read(c.world, SizeY, Int(256)))
  }

  lemma SizeIsWritten(v: Value) returns (k: nat)
    requires AsInt(v).Some?
    ensures Parsed(Log2Text(v)) == Some(k) && k == Log2(AsInt(v).value)
    ensures AsInt(v).value >= 1 ==> Pow2(k) <= AsInt(v).value < Pow2(k + 1)
  {
    k := Log2(AsInt(v).value);
    ParsedOfDecimal(k);
    if AsInt(v).value >= 1 {
      Log2Bounds(AsInt(v).value);
    }
  }

  /** Of every scenario: each axis is written as the exponent of the greatest power of two within its own size. */
  lemma SizesAreWritten(p: Profile, version: string, c: Config) returns (k: nat, l: nat)
    requires SettingsOf(p, version, c).Some?
    ensures Width(c).Some? && Height(c).Some?
    ensures var w := SettingsOf(p, version, c).value.world; Parsed(w.mapX) == Some(k) && Parsed(w.mapY) == Some(l)
    ensures Width(c).value >= 1 ==> Pow2(k) <= Width(c).value < Pow2(k + 1)
    ensures Height(c).value >= 1 ==> Pow2(l) <= Height(c).value < Pow2(l + 1)
  {
    k := SizeIsWritten(Read(c.world, SizeX, Int(256)));
    l := SizeIsWritten(Read(c.world, SizeY, Int(256)));
  }

  lemma PowersAreApart(n: int, k: nat)
    requires IsPowerOfTwo(n) && Pow2(k) <= n < Pow2(k + 1)
    ensures Pow2(k) == n
  {
    var j: nat :| Pow2(j) == n;
    if j < k {
      Pow2Grows(j, k);
    } else if k < j {
      Pow2Grows(k + 1, j);
    }
  }

  lemma {:induction false} Pow2Grows(j: nat, k: nat)
    requires j <= k
    ensures Pow2(j) <= Pow2(k) && (j < k ==> Pow2(j) < Pow2(k))
    decreases k - j
  {
    if j < k {
      Pow2Grows(j, k - 1);
    }
  }

  lemma ListedIsPower(sizes: seq<Value>, v: Value)
    requires Admits(sizes, v) && forall i :: 0 <= i < |sizes| ==> sizes[i].Int? && IsPowerOfTwo(sizes[i].n)
    ensures AsInt(v).Some? && IsPowerOfTwo(AsInt(v).value)
  {
    var i :| 0 <= i < |sizes| && Matches(v, sizes[i]);
  }

  /** Where all listed sizes are powers of two and 256 is one of them, the two written exponents of a
      scored world give its width and its height back. */
  lemma ScoredSizesComeBack(p: Profile, version: string, c: Config) returns (k: nat, l: nat)
    requires Scored(p, c) && SettingsOf(p, version, c).Some? && Admits(p.sizes, Int(256))
    requires forall i :: 0 <= i < |p.sizes| ==> p.sizes[i].Int? && IsPowerOfTwo(p.sizes[i].n)
    ensures var w := SettingsOf(p, version, c).value.world; Parsed(w.mapX) == Some(k) && Parsed(w.mapY) == Some(l)
    ensures Width(c) == Some(Pow2(k)) && Height(c) == Some(Pow2(l))
  {
    k, l := SizesAreWritten(p, version, c);
    SizeIsListedIff(p, c);
    ListedIsPower(p.sizes, Read(c.world, SizeX, Int(256)));
    ListedIsPower(p.sizes, Read(c.world, SizeY, Int(256)));
    PowerIsPositive(Width(c).value);
    PowerIsPositive(Height(c).value);
    PowersAreApart(Width(c).value, k);
    PowersAreApart(Height(c).value, l);
  }

  lemma PowerIsPositive(n: int)
    requires IsPowerOfTwo(n)
    ensures n >= 1
  {
    var k: nat :| Pow2(k) == n;
    Pow2Grows(0, k);
  }

  /** So they do under the built-in rules. */
  lemma BuiltInSizesComeBack(version: string, c: Config) returns (k: nat, l: nat)
    requires Scored(BUILT_IN, c) && SettingsOf(BUILT_IN, version, c).Some?
    ensures var w := SettingsOf(BUILT_IN, version, c).value.world; Parsed(w.mapX) == Some(k) && Parsed(w.mapY) == Some(l)
    ensures Width(c) == Some(Pow2(k)) && Height(c) == Some(Pow2(l)) && 6 <= k <= 10 && 6 <= l <= 10
  {
    BuiltInSizes();
    k, l := ScoredSizesComeBack(BUILT_IN, version, c);
    SizeIsListedIff(BUILT_IN, c);
    BuiltInExponent(Read(c.world, SizeX, Int(256)), k);
    BuiltInExponent(Read(c.world, SizeY, Int(256)), l);
  }

  lemma BuiltInExponent(v: Value, k: nat)
    requires Admits(BUILT_IN.sizes, v) && AsInt(v) == Some(Pow2(k))
    ensures 6 <= k <= 10
  {
    var i :| 0 <= i < |BUILT_IN.sizes| && Matches(v, BUILT_IN.sizes[i]);
    assert 64 <= Pow2(k) <= 1024;
    SixAndTen();
    if k < 6 {
      Pow2Grows(k, 6);
    } else if k > 10 {
      Pow2Grows(10, k);
    }
  }

  lemma SixAndTen()
    ensures Pow2(6) == 64 && Pow2(10) == 1024
  {
    assert Pow2(3) == 8 && Pow2(7) == 128;
  }

  // ---------------------------------------------------------------- numbers

  /** What is written of a choice that can be custom: a number exactly when it is. */
  ghost predicate WritesCustom(written: Option<string>, choice: Value, number: Value) {
    && (written.Some? <==> choice == Str("custom"))
    && (written.Some? ==> Parsed(written.value) == AsInt(number) && AsInt(number).Some?)
  }

  lemma IntIsWritten(v: Value)
    requires AsInt(v).Some?
    ensures Parsed(IntText(v)) == AsInt(v)
  {
    ParsedOfWritten(AsInt(v).value);
  }

  /** All numbers of a world are written so that they are read back. */
  lemma NumbersAreWritten(p: Profile, version: string, c: Config)
    requires SettingsOf(p, version, c).Some?
    ensures var s, scored := SettingsOf(p, version, c).value, Scored(p, c);
            var w, m := s.world, c.world;
            && Parsed(w.startingYear) == AsInt(LockedRead(p, m, scored, StartingYear, Int(1960)))
            && (w.seed.Some? <==> Seed in m) && (Seed in m ==> Parsed(w.seed.value) == AsInt(m[Seed]))
            && WritesCustom(w.customTerrain, Read(m, TerrainType, Str("flat")), Read(m, CustomTerrainHeight, Int(30)))
            && WritesCustom(w.customSea, LockedRead(p, m, scored, SeaLevel, Str("medium")), Read(m, CustomSeaLevel, Int(1)))
            && WritesCustom(w.customTowns, LockedRead(p, m, scored, NumberTowns, Str("normal")), Read(m, CustomTownNumber, Int(1)))
            && WritesCustom(w.customIndustries, LockedRead(p, m, scored, IndustryDensity, Str("normal")),
                            Read(m, CustomIndustryNumber, Int(1)))
  {
    var choices := ChoicesOf(p, c.world, Scored(p, c));
    IntIsWritten(choices.year);
    if choices.seed.Some? {
      IntIsWritten(choices.seed.value);
    }
    CustomIsWritten(choices.terrain, choices.terrainHeight);
    CustomIsWritten(choices.seaLevel, choices.seaHeight);
    CustomIsWritten(choices.towns, choices.townNumber);
    CustomIsWritten(choices.industries, choices.industryNumber);
  }

  lemma CustomIsWritten(choice: Value, number: Value)
    requires CustomReads(choice, number)
    ensures WritesCustom(IfCustom(choice, number), choice, number)
  {
    if choice == Str("custom") {
      IntIsWritten(number);
    }
  }

  /** Companies and pacing; the loan is written unless it is the usual one. */
  lemma RunIsWritten(version: string, c: Config, scored: bool)
    requires RunOf(version, c, scored).Some?
    ensures var r, loan := RunOf(version, c, scored).value, OrElse(c.maxLoan, Int(300000));
            && Parsed(r.maxCompetitors) == AsInt(OrElse(c.numAi, Int(2)))
            && Parsed(r.competitorsInterval) == AsInt(OrElse(c.competitorsInterval, Int(0)))
            && Parsed(r.minutesPerYear) == AsInt(OrElse(c.minutesPerYear, Int(12)))
            && (r.maxLoan == None <==> AsInt(loan) == Some(300000)) && (r.maxLoan.Some? ==> Parsed(r.maxLoan.value) == AsInt(loan))
  {
    IntIsWritten(OrElse(c.numAi, Int(2)));
    IntIsWritten(OrElse(c.competitorsInterval, Int(0)));
    IntIsWritten(OrElse(c.minutesPerYear, Int(12)));
    IntIsWritten(OrElse(c.maxLoan, Int(300000)));
  }

  lemma ClockIsWritten(version: string, c: Config, scored: bool)
    requires RunOf(version, c, scored).Some?
    ensures var r := RunOf(version, c, scored).value;
            && r.scored == scored && r.profileVersion == (if scored then Some(version) else None)
            && r.scenarioId == (if c.id.Some? then AsText(c.id.value) else if c.name.Some? then AsText(c.name.value) else "default")
            && r.timekeeping == if c.timekeeping.Some? && AsText(c.timekeeping.value) == "wallclock" then "1" else "0"
  {
    assert AsText(Str("calendar"))[0] == 'c' && "wallclock"[0] == 'w';
  }

  // ---------------------------------------------------------------- borders

  /** One bit for each border: north-east, south-east, south-west, north-west. */
  predicate Borders(mask: nat, ne: bool, se: bool, sw: bool, nw: bool) {
    && mask < 16 && (mask % 2 == 1 <==> ne) && (mask / 2 % 2 == 1 <==> se)
    && (mask / 4 % 2 == 1 <==> sw) && (mask / 8 == 1 <==> nw)
  }

  /** All borders are water, or some are, or none is said. */
  lemma BordersOf(m: Section, edges: Value)
    requires Truthy(edges)
    ensures edges == Str("random") ==> WaterMask(m, edges) == 16
    ensures edges == Str("all_water") ==> Borders(WaterMask(m, edges), true, true, true, true)
    ensures edges != Str("random") && edges != Str("all_water") ==>
              Borders(WaterMask(m, edges), Asked(m, BorderNE), Asked(m, BorderSE), Asked(m, BorderSW), Asked(m, BorderNW))
  {
    assert "random"[0] == 'r' && "all_water"[0] == 'a';
  }

  predicate Asked(m: Section, border: Field) {
    border in m && Truthy(m[border])
  }

  /** The borders as written: beyond four bits when random, all four when all is water, otherwise those asked for. */
  lemma BordersAreWritten(p: Profile, version: string, c: Config)
    requires SettingsOf(p, version, c).Some?
    ensures Parsed(SettingsOf(p, version, c).value.world.waterBorders)
            == Some(WaterMask(c.world, LockedRead(p, c.world, Scored(p, c), MapEdges, Str("random"))))
  {
    ParsedOfDecimal(WaterMask(c.world, LockedRead(p, c.world, Scored(p, c), MapEdges, Str("random"))));
  }

  // ---------------------------------------------------------------- words

  const LANDSCAPE_WORDS := ["temperate", "arctic", "tropic", "toyland"]
  const TERRAIN_WORDS := ["very_flat", "flat", "hilly", "mountainous", "alpinist", "custom"]
  const VARIETY_WORDS := ["none", "very_low", "low", "medium", "high", "very_high"]
  const SMOOTHNESS_WORDS := ["very_smooth", "smooth", "rough", "very_rough"]
  const RIVER_WORDS := ["none", "few", "medium", "many"]
  const SEA_WORDS := ["very_low", "low", "medium", "high", "custom"]
  const TOWN_WORDS := ["very_low", "low", "normal", "high", "custom"]
  const INDUSTRY_WORDS := ["funding_only", "minimal", "very_low", "low", "normal", "high", "custom"]

  /** The words of a table, in order, are written as their places. */
  ghost predicate Ranked(table: Table, words: seq<string>) {
    forall i :: 0 <= i < |words| ==> words[i] in table && table[words[i]] == Decimal(i)
  }

  lemma LandscapeRanks()
    ensures Ranked(LANDSCAPES, LANDSCAPE_WORDS)
  {
  }

  lemma TerrainRanks()
    ensures Ranked(TERRAINS, TERRAIN_WORDS)
  {
  }

  lemma VarietyRanks()
    ensures Ranked(VARIETIES, VARIETY_WORDS)
  {
  }

  lemma SmoothnessRanks()
    ensures Ranked(SMOOTHNESSES, SMOOTHNESS_WORDS)
  {
  }

  lemma RiverRanks()
    ensures Ranked(RIVER_AMOUNTS, RIVER_WORDS)
  {
  }

  lemma SeaRanks()
    ensures Ranked(SEA_LEVELS, SEA_WORDS)
  {
  }

  lemma TownRanks()
    ensures Ranked(TOWN_COUNTS, TOWN_WORDS)
  {
  }

  lemma IndustryRanks()
    ensures Ranked(INDUSTRIES, INDUSTRY_WORDS)
  {
  }

  /** A choice that is one of these words is written as the word's place. */
  ghost predicate WritesPlace(written: string, words: seq<string>, choice: Value) {
    forall i :: 0 <= i < |words| && choice == Str(words[i]) ==> written == Decimal(i)
  }

  lemma PlaceIsWritten(table: Table, words: seq<string>, choice: Value, default: string)
    requires Ranked(table, words)
    ensures WritesPlace(Code(table, choice, default), words, choice)
  {
  }

  lemma LandIsWritten(c: Choices)
    ensures WritesPlace(WorldOf(c).landscape, LANDSCAPE_WORDS, c.landscape)
    ensures WritesPlace(WorldOf(c).terrainType, TERRAIN_WORDS, c.terrain)
    ensures WritesPlace(WorldOf(c).variety, VARIETY_WORDS, c.variety)
    ensures WritesPlace(WorldOf(c).smoothness, SMOOTHNESS_WORDS, c.smoothness)
  {
    LandscapeRanks();
    TerrainRanks();
    VarietyRanks();
    SmoothnessRanks();
    PlaceIsWritten(LANDSCAPES, LANDSCAPE_WORDS, c.landscape, "0");
    PlaceIsWritten(TERRAINS, TERRAIN_WORDS, c.terrain, "1");
    PlaceIsWritten(VARIETIES, VARIETY_WORDS, c.variety, "0");
    PlaceIsWritten(SMOOTHNESSES, SMOOTHNESS_WORDS, c.smoothness, "1");
  }

  lemma LifeIsWritten(c: Choices)
    ensures WritesPlace(WorldOf(c).rivers, RIVER_WORDS, c.rivers)
    ensures WritesPlace(WorldOf(c).seaLevel, SEA_WORDS, c.seaLevel)
    ensures WritesPlace(WorldOf(c).numberTowns, TOWN_WORDS, c.towns)
    ensures WritesPlace(WorldOf(c).industryDensity, INDUSTRY_WORDS, c.industries)
  {
    RiverRanks();
    SeaRanks();
    TownRanks();
    IndustryRanks();
    PlaceIsWritten(RIVER_AMOUNTS, RIVER_WORDS, c.rivers, "2");
    PlaceIsWritten(SEA_LEVELS, SEA_WORDS, c.seaLevel, "2");
    PlaceIsWritten(TOWN_COUNTS, TOWN_WORDS, c.towns, "2");
    PlaceIsWritten(INDUSTRIES, INDUSTRY_WORDS, c.industries, "4");
  }

  /** Each word that a scenario chooses is written as its place among the words of its kind. */
  lemma WordsAreWritten(p: Profile, version: string, c: Config)
    requires SettingsOf(p, version, c).Some?
    ensures var w, m, scored := SettingsOf(p, version, c).value.world, c.world, Scored(p, c);
            && WritesPlace(w.landscape, LANDSCAPE_WORDS, Read(m, Landscape, Str("temperate")))
            && WritesPlace(w.terrainType, TERRAIN_WORDS, Read(m, TerrainType, Str("flat")))
            && WritesPlace(w.variety, VARIETY_WORDS, LockedRead(p, m, scored, Variety, Str("none")))
            && WritesPlace(w.smoothness, SMOOTHNESS_WORDS, LockedRead(p, m, scored, Smoothness, Str("smooth")))
            && WritesPlace(w.rivers, RIVER_WORDS, LockedRead(p, m, scored, Rivers, Str("medium")))
            && WritesPlace(w.seaLevel, SEA_WORDS, LockedRead(p, m, scored, SeaLevel, Str("medium")))
            && WritesPlace(w.numberTowns, TOWN_WORDS, LockedRead(p, m, scored, NumberTowns, Str("normal")))
            && WritesPlace(w.industryDensity, INDUSTRY_WORDS, LockedRead(p, m, scored, IndustryDensity, Str("normal")))
  {
    LandIsWritten(ChoicesOf(p, c.world, Scored(p, c)));
    LifeIsWritten(ChoicesOf(p, c.world, Scored(p, c)));
  }

  // ---------------------------------------------------------------- readable copies

  lemma BuiltInReported()
    ensures Reported(BUILT_IN) == {TerrainType, Landscape, SizeX, SizeY}
  {
    assert |BUILT_IN.allowed| == 1 && BUILT_IN.allowed[0].0 == TerrainType;
    assert Keys(BUILT_IN.allowed) == [TerrainType];
  }

  lemma NotLocked(f: Field)
    requires f == TerrainType || f == SizeX || f == SizeY
    ensures Get(BUILT_IN.locked, f) == None
  {
    GetIff(BUILT_IN.locked, f);
  }

  lemma CopiesOf(m: Section)
    ensures Recorded(BUILT_IN, m, true, TerrainType) == Some(Read(m, TerrainType, Str("flat")))
    ensures Recorded(BUILT_IN, m, true, SizeX) == Some(Read(m, SizeX, Int(256)))
    ensures Recorded(BUILT_IN, m, true, SizeY) == Some(Read(m, SizeY, Int(256)))
  {
    NotLocked(TerrainType);
    NotLocked(SizeX);
    NotLocked(SizeY);
  }

  lemma LandscapeCopy(c: Config)
    requires Scored(BUILT_IN, c)
    ensures Recorded(BUILT_IN, c.world, true, Landscape) == Some(Str("temperate"))
  {
    BuiltInLocksTheWorld();
    WordIsRead(BUILT_IN, c, Landscape, "temperate", Str("temperate"));
  }

  /** Under the built-in rules a scored run has copies of terrain, landscape and both sizes, as generated. */
  lemma BuiltInDimensions(c: Config)
    requires Scored(BUILT_IN, c)
    ensures var d := Dimensions(BUILT_IN, c.world, true);
            && d.Keys == {TerrainType, Landscape, SizeX, SizeY}
            && d[TerrainType] == AsText(Read(c.world, TerrainType, Str("flat"))) && d[Landscape] == "temperate"
            && d[SizeX] == AsText(Read(c.world, SizeX, Int(256))) && d[SizeY] == AsText(Read(c.world, SizeY, Int(256)))
  {
    BuiltInReported();
    CopiesOf(c.world);
    LandscapeCopy(c);
  }

  /** And those are what its settings carry. */
  lemma DimensionsAreCarried(p: Profile, version: string, c: Config)
    requires SettingsOf(p, version, c).Some?
    ensures SettingsOf(p, version, c).value.dimensions == Dimensions(p, c.world, Scored(p, c))
    ensures SettingsOf(p, version, c).value.run == RunOf(version, c, Scored(p, c)).value
  {
  }
}
