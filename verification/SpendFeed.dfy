/** The monitor's views of reported spend: per model, per game day, and in total. */
module SpendFeed {
  import opened Options
  import opened Sequences
  import opened OrderedMaps
  import opened Totals
  import opened KeyedSort
  import opened Spend
  import opened ParticipantReports

  datatype ModelEntry = ModelEntry(model: string, role: string, prompt: int, completion: int, cost: int, reports: int, priced: bool)

  type ModelTable = OrderedMap<string, ModelEntry>

  datatype Point = Point(day: int, cost: int, tokens: int)

  datatype Feed = Feed(
    models: seq<ModelEntry>,
    series: seq<Point>,
    turnDays: seq<int>,
    reports: int,
    prompt: int,
    completion: int,
    cost: int,
    priced: bool)

  function EntryPrompt(e: ModelEntry): int { e.prompt }
  function EntryCompletion(e: ModelEntry): int { e.completion }
  function EntryCost(e: ModelEntry): int { e.cost }
  function EntryReports(e: ModelEntry): int { e.reports }
  function EntryModel(e: ModelEntry): string { e.model }
  function ByFallingCost(e: ModelEntry): int { -e.cost }
  function PointCost(p: Point): int { p.cost }
  function PointTokens(p: Point): int { p.tokens }
  function AsIs(day: int): int { day }

  // ---------------------------------------------------------------- per model

  /** A row without a model name is listed under a question mark. */
  function FeedKey(r: Row): string {
    if r.entry.model == "" then "?" else r.entry.model
  }

  function Noted(e: ModelEntry, r: Row): ModelEntry {
    e.(prompt := e.prompt + Prompt(r), completion := e.completion + Completion(r), reports := e.reports + 1,
       cost := e.cost + Cost(r), priced := e.priced && Priced(r))
  }

  function NewEntry(r: Row): ModelEntry {
    ModelEntry(FeedKey(r), r.entry.role, 0, 0, 0, 0, true)
  }

  function ModelsOf(rows: seq<Row>): ModelTable {
    if rows == [] then []
    else
      var before, r := ModelsOf(rows[..|rows| - 1]), rows[|rows| - 1];
      Put(before, FeedKey(r), Noted(GetOr(before, FeedKey(r), NewEntry(r)), r))
  }

  /** An entry carries its model's rows; the role is that of the first. */
  ghost predicate EntryTells(e: ModelEntry, rows: seq<Row>, model: string) {
    && rows != [] && e.model == model && e.role == rows[0].entry.role
    && e.prompt == Sum(rows, Prompt) && e.completion == Sum(rows, Completion) && e.cost == Sum(rows, Cost)
    && e.reports == |rows| && (e.priced <==> AllPriced(rows))
  }

  lemma NotedTells(e: ModelEntry, rows: seq<Row>, r: Row)
    requires (rows == [] && e == NewEntry(r)) || EntryTells(e, rows, FeedKey(r))
    ensures EntryTells(Noted(e, r), rows + [r], FeedKey(r))
  {
    SumStep(rows, r, Prompt);
    SumStep(rows, r, Completion);
    SumStep(rows, r, Cost);
    assert forall x :: x in rows + [r] <==> x in rows || x == r;
  }

  lemma {:induction false} TableTells(rows: seq<Row>, k: string)
    ensures Get(ModelsOf(rows), k).None? <==> Part(rows, FeedKey, k) == []
    ensures Get(ModelsOf(rows), k).Some? ==> EntryTells(Get(ModelsOf(rows), k).value, Part(rows, FeedKey, k), k)
    decreases |rows|
  {
    if rows != [] {
      var front, r := rows[..|rows| - 1], rows[|rows| - 1];
      var before := ModelsOf(front);
      TableTells(front, k);
      PutGet(before, FeedKey(r), Noted(GetOr(before, FeedKey(r), NewEntry(r)), r), k);
      if FeedKey(r) == k {
        NotedTells(GetOr(before, k, NewEntry(r)), Part(front, FeedKey, k), r);
      } else {
        assert Part(rows, FeedKey, k) == Part(front, FeedKey, k);
      }
    }
  }

  lemma {:induction false} TableKeys(rows: seq<Row>)
    ensures Distinct(Keys(ModelsOf(rows)))
    ensures forall r :: r in rows ==> FeedKey(r) in Keys(ModelsOf(rows))
    decreases |rows|
  {
    if rows != [] {
      var front, r := rows[..|rows| - 1], rows[|rows| - 1];
      var before := ModelsOf(front);
      TableKeys(front);
      PutDistinct(before, FeedKey(r), Noted(GetOr(before, FeedKey(r), NewEntry(r)), r));
      assert rows == front + [r];
    }
  }

  lemma ModelsStep(rows: seq<Row>, i: nat)
    requires i < |rows|
    ensures ModelsOf(rows[..i + 1])
            == Put(ModelsOf(rows[..i]), FeedKey(rows[i]),
                   Noted(GetOr(ModelsOf(rows[..i]), FeedKey(rows[i]), NewEntry(rows[i])), rows[i]))
  {
    assert rows[..i + 1][..i] == rows[..i];
  }

  method PerModel(rows: seq<Row>) returns (table: ModelTable)
    ensures table == ModelsOf(rows)
  {
    table := [];
    for i := 0 to |rows|
      invariant table == ModelsOf(rows[..i])
    {
      var r := rows[i];
      var key := if r.entry.model == "" then "?" else r.entry.model;
      var entry := GetOr(table, key, ModelEntry(key, r.entry.role, 0, 0, 0, 0, true));
      entry := entry.(prompt := entry.prompt + r.entry.prompt, completion := entry.completion + r.entry.completion,
                      reports := entry.reports + 1);
      match r.entry.cost {
        case None => entry := entry.(priced := false);
        case Some(c) => entry := entry.(cost := entry.cost + c);
      }
      ModelsStep(rows, i);
      table := Put(table, key, entry);
    }
    assert rows[..|rows|] == rows;
  }

  function Entries(t: ModelTable): seq<ModelEntry> {
    seq(|t|, i requires 0 <= i < |t| => t[i].1)
  }

  predicate AllEntriesPriced(es: seq<ModelEntry>) {
    forall e :: e in es ==> e.priced
  }

  /** One entry a model, carrying that model's rows; together they are all rows. */
  ghost predicate TableIsWhole(es: seq<ModelEntry>, rows: seq<Row>) {
    && (forall e :: e in es ==> EntryTells(e, Part(rows, FeedKey, e.model), e.model))
    && (set e | e in es :: EntryModel(e)) == (set r | r in rows :: FeedKey(r))
    && Sum(es, EntryReports) == |rows|
    && Sum(es, EntryPrompt) == Sum(rows, Prompt)
    && Sum(es, EntryCompletion) == Sum(rows, Completion)
    && Sum(es, EntryCost) == Sum(rows, Cost)
    && (AllEntriesPriced(es) <==> AllPriced(rows))
  }

  function One(r: Row): int { 1 }

  lemma {:induction false} Count(rows: seq<Row>)
    ensures Sum(rows, One) == |rows|
    decreases |rows|
  {
    if rows != [] {
      Count(rows[..|rows| - 1]);
    }
  }

  lemma EntryAt(rows: seq<Row>, i: nat)
    requires i < |ModelsOf(rows)|
    ensures var t := ModelsOf(rows); EntryTells(t[i].1, Part(rows, FeedKey, t[i].0), t[i].0)
  {
    TableKeys(rows);
    GetAt(ModelsOf(rows), i);
    TableTells(rows, ModelsOf(rows)[i].0);
  }

  lemma EntriesSum(rows: seq<Row>, es: seq<ModelEntry>, keys: seq<string>)
    requires |es| == |keys| && Distinct(keys) && forall r :: r in rows ==> FeedKey(r) in keys
    requires forall i :: 0 <= i < |es| ==> EntryTells(es[i], Part(rows, FeedKey, keys[i]), keys[i])
    ensures Sum(es, EntryPrompt) == Sum(rows, Prompt) && Sum(es, EntryCompletion) == Sum(rows, Completion)
    ensures Sum(es, EntryCost) == Sum(rows, Cost) && Sum(es, EntryReports) == |rows|
  {
    PartsPartition(rows, FeedKey, Prompt, keys);
    ItemsSum(es, EntryPrompt, rows, FeedKey, Prompt, keys);
    PartsPartition(rows, FeedKey, Completion, keys);
    ItemsSum(es, EntryCompletion, rows, FeedKey, Completion, keys);
    PartsPartition(rows, FeedKey, Cost, keys);
    ItemsSum(es, EntryCost, rows, FeedKey, Cost, keys);
    forall i | 0 <= i < |es| ensures EntryReports(es[i]) == Sum(Part(rows, FeedKey, keys[i]), One) {
      Count(Part(rows, FeedKey, keys[i]));
    }
    PartsPartition(rows, FeedKey, One, keys);
    ItemsSum(es, EntryReports, rows, FeedKey, One, keys);
    Count(rows);
  }

  lemma EntriesNameModels(rows: seq<Row>, es: seq<ModelEntry>, keys: seq<string>)
    requires |es| == |keys| && forall r :: r in rows ==> FeedKey(r) in keys
    requires forall i :: 0 <= i < |es| ==> EntryTells(es[i], Part(rows, FeedKey, keys[i]), keys[i])
    ensures (set e | e in es :: EntryModel(e)) == (set r | r in rows :: FeedKey(r))
  {
    forall r | r in rows ensures exists e :: e in es && EntryModel(e) == FeedKey(r) {
      var i :| 0 <= i < |keys| && keys[i] == FeedKey(r);
      assert es[i] in es;
    }
    forall e | e in es ensures exists r :: r in rows && FeedKey(r) == EntryModel(e) {
      var i :| 0 <= i < |es| && es[i] == e;
      PartHas(rows, FeedKey, keys[i]);
      assert Part(rows, FeedKey, keys[i])[0] in rows;
    }
  }

  lemma EntriesPriced(rows: seq<Row>, es: seq<ModelEntry>, keys: seq<string>)
    requires |es| == |keys| && forall r :: r in rows ==> FeedKey(r) in keys
    requires forall i :: 0 <= i < |es| ==> EntryTells(es[i], Part(rows, FeedKey, keys[i]), keys[i])
    ensures AllEntriesPriced(es) <==> AllPriced(rows)
  {
    forall r | r in rows ensures AllEntriesPriced(es) ==> Priced(r) {
      var i :| 0 <= i < |keys| && keys[i] == FeedKey(r);
      PartHas(rows, FeedKey, keys[i]);
      assert es[i] in es;
    }
    forall e | e in es ensures AllPriced(rows) ==> e.priced {
      var i :| 0 <= i < |es| && es[i] == e;
      PartHas(rows, FeedKey, keys[i]);
    }
  }

  lemma ModelTableIsWhole(rows: seq<Row>)
    ensures TableIsWhole(Entries(ModelsOf(rows)), rows)
  {
    var t := ModelsOf(rows);
    var es, keys := Entries(t), Keys(t);
    TableKeys(rows);
    forall i | 0 <= i < |es| ensures EntryTells(es[i], Part(rows, FeedKey, keys[i]), keys[i]) {
      EntryAt(rows, i);
    }
    EntriesSum(rows, es, keys);
    EntriesNameModels(rows, es, keys);
    EntriesPriced(rows, es, keys);
  }

  lemma WholeInAnyOrder(es: seq<ModelEntry>, fs: seq<ModelEntry>, rows: seq<Row>)
    requires TableIsWhole(es, rows) && multiset(es) == multiset(fs)
    ensures TableIsWhole(fs, rows)
  {
    assert forall e :: e in es <==> e in multiset(es);
    assert forall e :: e in fs <==> e in multiset(fs);
    SumOfPermutation(es, fs, EntryReports);
    SumOfPermutation(es, fs, EntryPrompt);
    SumOfPermutation(es, fs, EntryCompletion);
    SumOfPermutation(es, fs, EntryCost);
  }

  // ---------------------------------------------------------------- per day

  function Banked(rows: seq<Row>, key: Row -> int, amount: Row -> int): OrderedMap<int, int> {
    if rows == [] then []
    else
      var before, r := Banked(rows[..|rows| - 1], key, amount), rows[|rows| - 1];
      Put(before, key(r), GetOr(before, key(r), 0) + amount(r))
  }

  lemma {:induction false} BankedHolds(rows: seq<Row>, key: Row -> int, amount: Row -> int, day: int)
    ensures GetOr(Banked(rows, key, amount), day, 0) == Sum(Part(rows, key, day), amount)
    decreases |rows|
  {
    if rows != [] {
      var front, r := rows[..|rows| - 1], rows[|rows| - 1];
      var before := Banked(front, key, amount);
      BankedHolds(front, key, amount, day);
      PutGet(before, key(r), GetOr(before, key(r), 0) + amount(r), day);
      if key(r) == day {
        SumStep(Part(front, key, day), r, amount);
      } else {
        assert Part(rows, key, day) == Part(front, key, day);
      }
    }
  }

  lemma {:induction false} BankedKeys(rows: seq<Row>, key: Row -> int, amount: Row -> int)
    ensures Distinct(Keys(Banked(rows, key, amount)))
    ensures forall day :: day in Keys(Banked(rows, key, amount)) <==> exists r :: r in rows && key(r) == day
    decreases |rows|
  {
    if rows != [] {
      var front, r := rows[..|rows| - 1], rows[|rows| - 1];
      var before := Banked(front, key, amount);
      BankedKeys(front, key, amount);
      PutDistinct(before, key(r), GetOr(before, key(r), 0) + amount(r));
      assert forall x :: x in rows <==> x in front || x == r by {
        assert rows == front + [r];
      }
    }
  }

  /** Day zero is the day the run opened; a row without a date counts as arriving then. */
  function DayOf(openedOn: int, r: Row): int {
    var day := (if r.gameDate != 0 then r.gameDate else openedOn) - openedOn;
    if day < 0 then 0 else day
  }

  function DayFrom(openedOn: int): Row -> int {
    r => DayOf(openedOn, r)
  }

  method PerDay(rows: seq<Row>, openedOn: int) returns (banked: OrderedMap<int, int>, counted: OrderedMap<int, int>)
    ensures banked == Banked(rows, DayFrom(openedOn), Cost) && counted == Banked(rows, DayFrom(openedOn), Tokens)
  {
    banked, counted := [], [];
    for i := 0 to |rows|
      invariant banked == Banked(rows[..i], DayFrom(openedOn), Cost)
      invariant counted == Banked(rows[..i], DayFrom(openedOn), Tokens)
    {
      assert rows[..i + 1][..i] == rows[..i];
      var r := rows[i];
      var day := DayOf(openedOn, r);
      banked := Put(banked, day, GetOr(banked, day, 0) + Cost(r));
      counted := Put(counted, day, GetOr(counted, day, 0) + r.entry.prompt + r.entry.completion);
    }
    assert rows[..|rows|] == rows;
  }

  function UpTo(n: nat): seq<int> {
    seq(n, i => i)
  }

  /** Every day has its point, with that day's rows; together the points are all rows. */
  ghost predicate SeriesIsWhole(series: seq<Point>, rows: seq<Row>, openedOn: int) {
    && (forall d :: 0 <= d < |series| ==>
         && series[d].day == d
         && series[d].cost == Sum(Part(rows, DayFrom(openedOn), d), Cost)
         && series[d].tokens == Sum(Part(rows, DayFrom(openedOn), d), Tokens))
    && Sum(series, PointCost) == Sum(rows, Cost)
    && Sum(series, PointTokens) == Sum(rows, Tokens)
  }

  lemma PointsSum(series: seq<Point>, rows: seq<Row>, openedOn: int)
    requires forall r :: r in rows ==> DayOf(openedOn, r) < |series|
    requires forall d :: 0 <= d < |series| ==>
         && series[d].day == d
         && series[d].cost == Sum(Part(rows, DayFrom(openedOn), d), Cost)
         && series[d].tokens == Sum(Part(rows, DayFrom(openedOn), d), Tokens)
    ensures SeriesIsWhole(series, rows, openedOn)
  {
    var days := UpTo(|series|);
    forall r | r in rows ensures DayFrom(openedOn)(r) in days {
      assert days[DayOf(openedOn, r)] == DayOf(openedOn, r);
    }
    PartsPartition(rows, DayFrom(openedOn), Cost, days);
    ItemsSum(series, PointCost, rows, DayFrom(openedOn), Cost, days);
    PartsPartition(rows, DayFrom(openedOn), Tokens, days);
    ItemsSum(series, PointTokens, rows, DayFrom(openedOn), Tokens, days);
  }

  // ---------------------------------------------------------------- the feed

  /** The least of the dates, or 0 when there is none. */
  function Least(dates: seq<int>): (least: int)
    ensures if dates == [] then least == 0 else least in dates && forall d :: d in dates ==> least <= d
  {
    if dates == [] then 0
    else
      var before, last := Least(dates[..|dates| - 1]), dates[|dates| - 1];
      assert dates == dates[..|dates| - 1] + [last];
      if |dates| == 1 || last < before then last else before
  }

  function Dates(rows: seq<Row>): seq<int> {
    if rows == [] then []
    else Dates(rows[..|rows| - 1]) + (if rows[|rows| - 1].gameDate != 0 then [rows[|rows| - 1].gameDate] else [])
  }

  /** The run's first snapshot date, or failing that the first dated report. */
  function OpenedOn(snapshotDates: seq<int>, rows: seq<Row>): int {
    if Least(snapshotDates) != 0 then Least(snapshotDates) else Least(Dates(rows))
  }

  /** The three views of one set of rows: they agree with the rows, and so with one another. */
  method SpendOf(rows: seq<Row>, snapshotDates: seq<int>, gameDays: nat) returns (feed: Option<Feed>)
    ensures feed.None? <==> rows == []
    ensures feed.Some? ==> FeedIsWhole(feed.value, rows, OpenedOn(snapshotDates, rows), gameDays)
  {
    if rows == [] {
      return None;
    }
    var openedOn := OpenedOn(snapshotDates, rows);
    var table := PerModel(rows);
    var banked, counted := PerDay(rows, openedOn);
    var turnDays := Sort(AsIs, Keys(banked));
    TurnDaysTell(rows, openedOn);
    var lastDay := if turnDays != [] && turnDays[|turnDays| - 1] > gameDays then turnDays[|turnDays| - 1] else gameDays;
    var series := Series(banked, counted, lastDay);
    SeriesCovers(rows, openedOn, turnDays, gameDays, lastDay);
    var models := Sort(ByFallingCost, Entries(table));
    ModelsTell(rows);
    feed := Some(Feed(models, series, turnDays, |rows|, Sum(models, EntryPrompt), Sum(models, EntryCompletion),
                      Sum(models, EntryCost), AllEntriesPriced(models)));
  }

  function Series(banked: OrderedMap<int, int>, counted: OrderedMap<int, int>, lastDay: nat): seq<Point> {
    seq(lastDay + 1, day => Point(day, GetOr(banked, day, 0), GetOr(counted, day, 0)))
  }

  /** The turn days are the days with a row, in order. */
  ghost predicate TurnDays(days: seq<int>, rows: seq<Row>, openedOn: int) {
    && (forall i, j :: 0 <= i < j < |days| ==> days[i] < days[j])
    && forall day :: day in days <==> exists r :: r in rows && DayOf(openedOn, r) == day
  }

  /** The dearest model comes first. */
  ghost predicate FallsInCost(models: seq<ModelEntry>) {
    forall i, j :: 0 <= i < j < |models| ==> models[i].cost >= models[j].cost
  }

  /** The series ends with the run's last day, or with the last turn when that is later. */
  ghost predicate Covers(series: seq<Point>, days: seq<int>, gameDays: nat) {
    && gameDays < |series| && (forall day :: day in days ==> day < |series|)
    && (|series| == gameDays + 1 || |series| - 1 in days)
  }

  lemma SortFallsInCost(entries: seq<ModelEntry>)
    ensures FallsInCost(Sort(ByFallingCost, entries)) && multiset(Sort(ByFallingCost, entries)) == multiset(entries)
  {
    SortSorts(ByFallingCost, entries);
    var models := Sort(ByFallingCost, entries);
    forall i, j | 0 <= i < j < |models| ensures models[i].cost >= models[j].cost {
      assert ByFallingCost(models[i]) <= ByFallingCost(models[j]);
    }
  }

  ghost predicate FeedIsWhole(f: Feed, rows: seq<Row>, openedOn: int, gameDays: nat) {
    && TableIsWhole(f.models, rows) && FallsInCost(f.models)
    && SeriesIsWhole(f.series, rows, openedOn) && TurnDays(f.turnDays, rows, openedOn)
    && Covers(f.series, f.turnDays, gameDays)
    && f.reports == |rows|
    && f.prompt == Sum(rows, Prompt) && f.completion == Sum(rows, Completion) && f.cost == Sum(rows, Cost)
    && (f.priced <==> AllPriced(rows))
  }

  lemma DistinctSortedIsStrict(days: seq<int>, sorted: seq<int>)
    requires Distinct(days) && multiset(sorted) == multiset(days) && Ascending(AsIs, sorted)
    ensures StrictlyAscending(AsIs, sorted)
  {
    forall i, j | 0 <= i < j < |sorted| ensures sorted[i] < sorted[j] {
      if sorted[i] == sorted[j] {
        TwiceInMultiset(sorted, i, j);
        OnceInMultiset(days, sorted[i]);
      }
    }
  }

  lemma TwiceInMultiset(xs: seq<int>, i: nat, j: nat)
    requires i < j < |xs| && xs[i] == xs[j]
    ensures multiset(xs)[xs[i]] >= 2
  {
    assert xs == xs[..j] + [xs[j]] + xs[j + 1..];
    assert xs[i] in xs[..j];
    assert multiset(xs[..j])[xs[i]] >= 1;
  }

  lemma {:induction false} OnceInMultiset(xs: seq<int>, x: int)
    requires Distinct(xs)
    ensures multiset(xs)[x] <= 1
    decreases |xs|
  {
    if xs != [] {
      var front, last := xs[..|xs| - 1], xs[|xs| - 1];
      assert xs == front + [last];
      OnceInMultiset(front, x);
      assert last !in front;
    }
  }

  lemma TurnDaysTell(rows: seq<Row>, openedOn: int)
    ensures var days := Sort(AsIs, Keys(Banked(rows, DayFrom(openedOn), Cost)));
      TurnDays(days, rows, openedOn) && (rows != [] ==> days != [])
  {
    var keys := Keys(Banked(rows, DayFrom(openedOn), Cost));
    var days := Sort(AsIs, keys);
    BankedKeys(rows, DayFrom(openedOn), Cost);
    SortSorts(AsIs, keys);
    DistinctSortedIsStrict(keys, days);
    assert forall day :: day in days <==> day in multiset(days);
    assert forall day :: day in keys <==> day in multiset(keys);
    forall day ensures day in days <==> exists r :: r in rows && DayOf(openedOn, r) == day {
      assert day in days <==> exists r :: r in rows && DayFrom(openedOn)(r) == day;
    }
    if rows != [] {
      assert DayOf(openedOn, rows[0]) in days;
    }
  }

  lemma RowsUpToLastTurn(rows: seq<Row>, openedOn: int, days: seq<int>, lastDay: int)
    requires TurnDays(days, rows, openedOn) && (days != [] ==> days[|days| - 1] <= lastDay)
    ensures forall r :: r in rows ==> DayOf(openedOn, r) <= lastDay
    ensures forall day :: day in days ==> day <= lastDay
  {
    forall day | day in days ensures day <= lastDay {
      var i :| 0 <= i < |days| && days[i] == day;
      assert i < |days| - 1 ==> days[i] < days[|days| - 1];
    }
    forall r | r in rows ensures DayOf(openedOn, r) <= lastDay {
      assert DayOf(openedOn, r) in days;
    }
  }

  /** The series up to the last day, of the run or of a turn. */
  lemma SeriesCovers(rows: seq<Row>, openedOn: int, days: seq<int>, gameDays: nat, lastDay: nat)
    requires TurnDays(days, rows, openedOn) && days != []
    requires lastDay == if days[|days| - 1] > gameDays then days[|days| - 1] else gameDays
    ensures var series := Series(Banked(rows, DayFrom(openedOn), Cost), Banked(rows, DayFrom(openedOn), Tokens), lastDay);
            SeriesIsWhole(series, rows, openedOn) && Covers(series, days, gameDays)
  {
    RowsUpToLastTurn(rows, openedOn, days, lastDay);
    SeriesTells(rows, openedOn, lastDay);
  }

  lemma ModelsTell(rows: seq<Row>)
    ensures var models := Sort(ByFallingCost, Entries(ModelsOf(rows))); TableIsWhole(models, rows) && FallsInCost(models)
  {
    SortFallsInCost(Entries(ModelsOf(rows)));
    ModelTableIsWhole(rows);
    WholeInAnyOrder(Entries(ModelsOf(rows)), Sort(ByFallingCost, Entries(ModelsOf(rows))), rows);
  }

  lemma SeriesTells(rows: seq<Row>, openedOn: int, lastDay: nat)
    requires forall r :: r in rows ==> DayOf(openedOn, r) <= lastDay
    ensures SeriesIsWhole(Series(Banked(rows, DayFrom(openedOn), Cost), Banked(rows, DayFrom(openedOn), Tokens), lastDay),
                          rows, openedOn)
  {
    var series := Series(Banked(rows, DayFrom(openedOn), Cost), Banked(rows, DayFrom(openedOn), Tokens), lastDay);
    forall d | 0 <= d < |series|
      ensures series[d].cost == Sum(Part(rows, DayFrom(openedOn), d), Cost)
      ensures series[d].tokens == Sum(Part(rows, DayFrom(openedOn), d), Tokens)
    {
      BankedHolds(rows, DayFrom(openedOn), Cost, d);
      BankedHolds(rows, DayFrom(openedOn), Tokens, d);
    }
    PointsSum(series, rows, openedOn);
  }

  // ---------------------------------------------------------------- what falls on a day

  /** A report falls on the day of its date; the first day also takes in what has no date, or an earlier one. */
  predicate FallsOn(openedOn: int, day: int, r: Row) {
    if day == 0 then r.gameDate == 0 || r.gameDate <= openedOn else r.gameDate != 0 && r.gameDate == openedOn + day
  }

  function Falling(rows: seq<Row>, openedOn: int, day: int): seq<Row> {
    if rows == [] then []
    else Falling(rows[..|rows| - 1], openedOn, day)
         + (if FallsOn(openedOn, day, rows[|rows| - 1]) then [rows[|rows| - 1]] else [])
  }

  lemma {:induction false} PartFalls(rows: seq<Row>, openedOn: int, day: nat)
    ensures Part(rows, DayFrom(openedOn), day) == Falling(rows, openedOn, day)
    decreases |rows|
  {
    if rows != [] {
      var r := rows[|rows| - 1];
      assert DayFrom(openedOn)(r) == day <==> FallsOn(openedOn, day, r);
      PartFalls(rows[..|rows| - 1], openedOn, day);
    }
  }

  /** Each day of the series shows the money and the tokens of the reports that fall on it; it is a turn day if any do. */
  lemma MoneyFallsOnItsDay(f: Feed, rows: seq<Row>, openedOn: int, gameDays: nat, day: nat)
    requires FeedIsWhole(f, rows, openedOn, gameDays)
    ensures day < |f.series| ==>
              && f.series[day].cost == Sum(Falling(rows, openedOn, day), Cost)
              && f.series[day].tokens == Sum(Falling(rows, openedOn, day), Tokens)
    ensures day in f.turnDays <==> exists r :: r in rows && FallsOn(openedOn, day, r)
    ensures day >= |f.series| ==> Falling(rows, openedOn, day) == []
  {
    PartFalls(rows, openedOn, day);
    PartHas(rows, DayFrom(openedOn), day);
    if r :| r in rows && FallsOn(openedOn, day, r) {
      assert DayOf(openedOn, r) == day;
    }
    if Falling(rows, openedOn, day) != [] {
      var r := Part(rows, DayFrom(openedOn), day)[0];
      assert r in rows && DayOf(openedOn, r) == day;
    }
  }

  lemma {:induction false} DatesAreTheDated(rows: seq<Row>)
    ensures forall d :: d in Dates(rows) <==> d != 0 && exists r :: r in rows && r.gameDate == d
    decreases |rows|
  {
    if rows != [] {
      var front, r := rows[..|rows| - 1], rows[|rows| - 1];
      DatesAreTheDated(front);
      assert rows == front + [r];
    }
  }

  /** The first day is the least date of a snapshot; where that is missing or zero, that of the first dated report. */
  lemma OpeningDay(snapshotDates: seq<int>, rows: seq<Row>)
    ensures var openedOn := OpenedOn(snapshotDates, rows);
            if snapshotDates != [] && (forall d :: d in snapshotDates ==> d > 0) then
              openedOn in snapshotDates && forall d :: d in snapshotDates ==> openedOn <= d
            else if snapshotDates == [] && exists r :: r in rows && r.gameDate != 0 then
              && (exists r :: r in rows && r.gameDate == openedOn != 0)
              && forall r :: r in rows && r.gameDate != 0 ==> openedOn <= r.gameDate
            else snapshotDates == [] ==> openedOn == 0
  {
    DatesAreTheDated(rows);
    forall r | r in rows && r.gameDate != 0 ensures r.gameDate in Dates(rows) {
    }
    if snapshotDates == [] && Dates(rows) != [] {
      assert Least(Dates(rows)) in Dates(rows);
    } else if snapshotDates == [] {
      assert forall r :: r in rows && r.gameDate != 0 ==> r.gameDate in Dates(rows);
    }
  }

  // ---------------------------------------------------------------- the feed against the result record

  /** One company's feed and its detail in the result name the same tokens; a price that the
      feed is willing to total is the one the result reports. */
  lemma FeedAgreesWithDetail(feed: Feed, detail: Detail, own: seq<Row>, openedOn: int, gameDays: nat)
    requires own != [] && FeedIsWhole(feed, own, openedOn, gameDays) && TellsSpend(detail, own)
    ensures feed.prompt == detail.prompt && feed.completion == detail.completion
    ensures Sum(feed.series, PointTokens) == detail.prompt + detail.completion
    ensures feed.priced ==> detail.costIsReported
    ensures detail.costIsReported ==> Sum(feed.series, PointCost) == feed.cost == detail.totalCost
  {
    TokensSum(own);
    if feed.priced {
      forall r | r in own ensures SomePriced(Part(own, Pair, Pair(r))) {
        PartHas(own, Pair, Pair(r));
      }
    }
  }

  /** The result reports a price while the feed declines to, exactly when some report lacks a
      price but its model and role were priced by another: a partial sum is then published. */
  lemma PriceDisagreesIff(feed: Feed, detail: Detail, own: seq<Row>, openedOn: int, gameDays: nat)
    requires own != [] && FeedIsWhole(feed, own, openedOn, gameDays) && TellsSpend(detail, own)
    ensures feed.priced != detail.costIsReported <==> PairsPriced(own) && exists r :: r in own && !Priced(r)
  {
    FeedAgreesWithDetail(feed, detail, own, openedOn, gameDays);
  }

  /** It does happen: one priced and one unpriced report of a single model. */
  lemma PartialPriceIsPublished(declared: map<string, string>, counts: Counts) returns (own: seq<Row>)
    ensures PairsPriced(own) && exists r :: r in own && !Priced(r)
    ensures DetailOf(declared, LedgerOf(own), counts).costIsReported
  {
    var e := Entry("m", "", 10, 5, Some(7));
    own := [Row(1, 100, e), Row(1, 101, e.(cost := None))];
    assert own[1] in own && !Priced(own[1]);
    forall r | r in own ensures SomePriced(Part(own, Pair, Pair(r))) {
      PartHas(own, Pair, Pair(r));
      assert own[0] in own && Pair(own[0]) == Pair(r);
    }
    DetailTells(declared, own, counts);
  }
}
