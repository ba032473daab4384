/** The end-condition checker of src/nttd/runtime/end_conditions.py: after each
    step it decides whether a run is over, by "any" or by "all" of the enabled
    conditions.  Wall-clock time is a real number handed in by the caller. */
module EndConditions {
  import opened Options
  import opened Sequences
  import Calendar

  datatype Condition = TimeLimit | GameDate | Bankruptcy | Revenue | Cargo | Heartbeats

  datatype Config = Config(
    requireAll: bool,
    timeLimit: bool, wallMinutes: real,
    gameDateLimit: bool, endYear: int,
    bankruptcy: bool,
    revenueThreshold: bool, totalRevenue: int,
    cargoThreshold: bool, totalCargo: int,
    maxHeartbeats: bool, count: int)

  datatype Company = Company(id: int, isActive: bool, income: int)

  datatype Snapshot = Snapshot(gameDate: int, companies: seq<Company>)

  /** Which condition fired, and the company that made it fire. */
  datatype Reason = Reason(condition: Condition, company: Option<int>)

  datatype EndResult = EndResult(triggered: bool, reasons: seq<Reason>)

  /** The checker's fields as a value. */
  datatype State = State(
    startTime: Option<real>,
    startGameDate: Option<int>,
    heartbeats: nat,
    cargo: int,
    prevIncome: map<int, int>)

  const FRESH := State(None, None, 0, 0, map[])

  // ---------------------------------------------------------------- the state

  function ClockStarted(s: State, now: real, gameDate: Option<int>): State {
    if s.startTime.Some? then s else s.(startTime := Some(now), startGameDate := gameDate)
  }

  function Rise(before: int, after: int): int {
    if before < after then after - before else 0
  }

  function OneCounted(s: State, c: Company): State {
    var prev := if c.id in s.prevIncome then s.prevIncome[c.id] else c.income;
    s.(cargo := s.cargo + Rise(prev, c.income), prevIncome := s.prevIncome[c.id := c.income])
  }

  function CargoCounted(s: State, companies: seq<Company>): State {
    if companies == [] then s
    else OneCounted(CargoCounted(s, companies[..|companies| - 1]), companies[|companies| - 1])
  }

  function Checked(cfg: Config, s: State, snap: Snapshot): State {
    var beat := s.(heartbeats := s.heartbeats + 1);
    if cfg.cargoThreshold then CargoCounted(beat, snap.companies) else beat
  }

  // ---------------------------------------------------------------- the verdict

  predicate Enabled(cfg: Config, c: Condition) {
    match c
    case TimeLimit => cfg.timeLimit
    case GameDate => cfg.gameDateLimit
    case Bankruptcy => cfg.bankruptcy
    case Revenue => cfg.revenueThreshold
    case Cargo => cfg.cargoThreshold
    case Heartbeats => cfg.maxHeartbeats
  }

  predicate TimeIsUp(cfg: Config, start: Option<real>, now: real) {
    start.Some? && now - start.value >= 60.0 * cfg.wallMinutes
  }

  predicate YearIsReached(cfg: Config, gameDate: int) {
    if gameDate <= 0 then cfg.endYear <= 0 else Calendar.YearStart(cfg.endYear) <= gameDate
  }

  predicate SomeIsGone(companies: seq<Company>) {
    exists c :: c in companies && !c.isActive
  }

  predicate SomeIsRich(cfg: Config, companies: seq<Company>) {
    exists c :: c in companies && c.income >= cfg.totalRevenue
  }

  /** Condition `c` holds at a check that left the checker in state `s`. */
  predicate Met(cfg: Config, s: State, snap: Snapshot, now: real, c: Condition) {
    match c
    case TimeLimit => TimeIsUp(cfg, s.startTime, now)
    case GameDate => YearIsReached(cfg, snap.gameDate)
    case Bankruptcy => SomeIsGone(snap.companies)
    case Revenue => SomeIsRich(cfg, snap.companies)
    case Cargo => s.cargo >= cfg.totalCargo
    case Heartbeats => s.heartbeats >= cfg.count
  }

  predicate Fires(cfg: Config, s: State, snap: Snapshot, now: real, c: Condition) {
    Enabled(cfg, c) && Met(cfg, s, snap, now, c)
  }

  /** The run is over: what the two logics are meant to say. */
  predicate Ends(cfg: Config, s: State, snap: Snapshot, now: real) {
    if cfg.requireAll then
      && (exists c :: Enabled(cfg, c))
      && (forall c :: Enabled(cfg, c) ==> Met(cfg, s, snap, now, c))
    else
      exists c :: Fires(cfg, s, snap, now, c)
  }

  /** The order in which the conditions are looked at. */
  const ORDER := [TimeLimit, GameDate, Bankruptcy, Revenue, Cargo, Heartbeats]

  function Selected(p: Condition -> bool, order: seq<Condition>): seq<Condition> {
    if order == [] then []
    else Selected(p, order[..|order| - 1]) + One(p(order[|order| - 1]), order[|order| - 1])
  }

  function One(reported: bool, c: Condition): seq<Condition> {
    if reported then [c] else []
  }

  function FiresIn(cfg: Config, s: State, snap: Snapshot, now: real): (p: Condition -> bool)
    ensures forall c :: p(c) == Fires(cfg, s, snap, now, c)
  {
    c => Fires(cfg, s, snap, now, c)
  }

  function EnabledIn(cfg: Config): (p: Condition -> bool)
    ensures forall c :: p(c) == Enabled(cfg, c)
  {
    c => Enabled(cfg, c)
  }

  /** The conditions that a check finds met, in order. */
  function Firing(cfg: Config, s: State, snap: Snapshot, now: real): seq<Condition> {
    Selected(FiresIn(cfg, s, snap, now), ORDER)
  }

  /** Those that the result names: all of them, or the first under "any". */
  function Named(cfg: Config, fired: seq<Condition>): seq<Condition> {
    if cfg.requireAll || fired == [] then fired else [fired[0]]
  }

  function EnabledCount(cfg: Config): nat {
    |Selected(EnabledIn(cfg), ORDER)|
  }

  /** Each condition reports at most once and only when enabled, so as many
      reports as enabled conditions means that every enabled one reports. */
  lemma {:induction false} CountIsConjunction(enabled: Condition -> bool, fires: Condition -> bool, order: seq<Condition>)
    requires forall c :: fires(c) ==> enabled(c)
    ensures |Selected(fires, order)| <= |Selected(enabled, order)|
    ensures |Selected(fires, order)| == |Selected(enabled, order)| <==> forall c :: c in order && enabled(c) ==> fires(c)
    decreases |order|
  {
    if order != [] {
      CountIsConjunction(enabled, fires, order[..|order| - 1]);
    }
  }

  lemma EveryConditionIsInOrder(c: Condition)
    ensures c in ORDER
  {
    var k := match c case TimeLimit => 0 case GameDate => 1 case Bankruptcy => 2
                     case Revenue => 3 case Cargo => 4 case Heartbeats => 5;
    assert ORDER[k] == c;
  }

  lemma {:induction false} SomeSelected(p: Condition -> bool, order: seq<Condition>)
    ensures Selected(p, order) != [] <==> exists c :: c in order && p(c)
    decreases |order|
  {
    if order != [] {
      SomeSelected(p, order[..|order| - 1]);
    }
  }

  /** The tests that `check` makes on its list of reports decide the two logics. */
  lemma CountingDecides(cfg: Config, s: State, snap: Snapshot, now: real)
    ensures var fired := Firing(cfg, s, snap, now);
      Ends(cfg, s, snap, now) <==> fired != [] && (cfg.requireAll ==> |fired| >= EnabledCount(cfg))
  {
    forall c: Condition ensures c in ORDER {
      EveryConditionIsInOrder(c);
    }
    var fires := FiresIn(cfg, s, snap, now);
    CountIsConjunction(EnabledIn(cfg), fires, ORDER);
    SomeSelected(fires, ORDER);
    assert forall c :: fires(c) == Fires(cfg, s, snap, now, c);
    if c :| fires(c) {
      assert c in ORDER;
    }
  }

  // ---------------------------------------------------------------- the checker

  /** A report names its condition, and the first company to meet it. */
  predicate Explains(cfg: Config, snap: Snapshot, r: Reason) {
    match r.condition
    case Bankruptcy =>
      exists k :: 0 <= k < |snap.companies| && r.company == Some(snap.companies[k].id)
        && !snap.companies[k].isActive && forall j :: 0 <= j < k ==> snap.companies[j].isActive
    case Revenue =>
      exists k :: 0 <= k < |snap.companies| && r.company == Some(snap.companies[k].id)
        && snap.companies[k].income >= cfg.totalRevenue
        && forall j :: 0 <= j < k ==> snap.companies[j].income < cfg.totalRevenue
    case _ => r.company == None
  }

  function Conditions(rs: seq<Reason>): seq<Condition> {
    seq(|rs|, i requires 0 <= i < |rs| => rs[i].condition)
  }

  function Bit(b: bool): nat {
    if b then 1 else 0
  }

  lemma SelectedThree(p: Condition -> bool, before: seq<Condition>, a: Condition, b: Condition, c: Condition)
    ensures Selected(p, before + [a, b, c]) == Selected(p, before) + One(p(a), a) + One(p(b), b) + One(p(c), c)
  {
    assert (before + [a, b, c])[..|before| + 2] == before + [a, b];
    assert (before + [a, b])[..|before| + 1] == before + [a];
    assert (before + [a])[..|before|] == before;
    assert Selected(p, before + [a]) == Selected(p, before) + One(p(a), a);
    assert Selected(p, before + [a, b]) == Selected(p, before + [a]) + One(p(b), b);
  }

  lemma NothingBefore(cs: seq<Condition>)
    ensures [] + cs == cs
  {
  }

  lemma OrderInHalves(first: seq<Condition>, last: seq<Condition>)
    requires first == [TimeLimit, GameDate, Bankruptcy] && last == [Revenue, Cargo, Heartbeats]
    ensures ORDER == first + last
  {
  }

  /** The six conditions one after the other. */
  lemma SelectedOfOrder(p: Condition -> bool)
    ensures Selected(p, ORDER)
            == One(p(TimeLimit), TimeLimit) + One(p(GameDate), GameDate) + One(p(Bankruptcy), Bankruptcy)
               + One(p(Revenue), Revenue) + One(p(Cargo), Cargo) + One(p(Heartbeats), Heartbeats)
  {
    var first, last := [TimeLimit, GameDate, Bankruptcy], [Revenue, Cargo, Heartbeats];
    SelectedThree(p, [], TimeLimit, GameDate, Bankruptcy);
    NothingBefore(first);
    NothingBefore(One(p(TimeLimit), TimeLimit));
    SelectedThree(p, first, Revenue, Cargo, Heartbeats);
    OrderInHalves(first, last);
  }

  function Quiet(cfg: Config, s: State, snap: Snapshot, now: real): seq<Condition> {
    One(cfg.timeLimit && TimeIsUp(cfg, s.startTime, now), TimeLimit)
    + One(cfg.gameDateLimit && YearIsReached(cfg, snap.gameDate), GameDate)
    + One(cfg.bankruptcy && SomeIsGone(snap.companies), Bankruptcy)
    + One(cfg.revenueThreshold && SomeIsRich(cfg, snap.companies), Revenue)
  }

  /** What a check finds met, condition by condition. */
  lemma FiringParts(cfg: Config, s: State, snap: Snapshot, now: real)
    ensures Firing(cfg, s, snap, now)
            == Quiet(cfg, s, snap, now)
               + One(cfg.cargoThreshold && s.cargo >= cfg.totalCargo, Cargo)
               + One(cfg.maxHeartbeats && s.heartbeats >= cfg.count, Heartbeats)
  {
    SelectedOfOrder(FiresIn(cfg, s, snap, now));
  }

  lemma AccountsJoin(cfg: Config, snap: Snapshot, a: seq<Reason>, b: seq<Reason>, ca: seq<Condition>, cb: seq<Condition>)
    requires Accounts(cfg, snap, a, ca) && Accounts(cfg, snap, b, cb)
    ensures Accounts(cfg, snap, a + b, ca + cb)
  {
  }

  lemma {:induction false} CountingTouchesCargoOnly(s: State, companies: seq<Company>)
    ensures var t := CargoCounted(s, companies);
      t.startTime == s.startTime && t.startGameDate == s.startGameDate && t.heartbeats == s.heartbeats
    ensures s.cargo <= CargoCounted(s, companies).cargo
    decreases |companies|
  {
    if companies != [] {
      CountingTouchesCargoOnly(s, companies[..|companies| - 1]);
    }
  }

  /** The reports name exactly these conditions, each explained. */
  predicate Accounts(cfg: Config, snap: Snapshot, rs: seq<Reason>, conditions: seq<Condition>) {
    Conditions(rs) == conditions && forall r :: r in rs ==> Explains(cfg, snap, r)
  }

  class EndConditionChecker {
    const config: Config
    var startTime: Option<real>
    var startGameDate: Option<int>
    var heartbeats: nat
    var cargo: int
    var prevIncome: map<int, int>

    constructor (config: Config, startTime: Option<real>)
      ensures this.config == config && Fields() == FRESH.(startTime := startTime)
    {
      this.config := config;
      this.startTime := startTime;
      startGameDate := None;
      heartbeats := 0;
      cargo := 0;
      prevIncome := map[];
    }

    ghost function Fields(): State
      reads this
    {
      State(startTime, startGameDate, heartbeats, cargo, prevIncome)
    }

    method StartClock(now: real, gameDate: Option<int>) returns (started: bool)
      modifies this
      ensures started <==> old(startTime) == None
      ensures Fields() == ClockStarted(old(Fields()), now, gameDate)
    {
      if startTime.Some? {
        return false;
      }
      startTime := Some(now);
      startGameDate := gameDate;
      return true;
    }

    method Reset()
      modifies this
      ensures Fields() == FRESH
    {
      startTime := None;
      startGameDate := None;
      heartbeats := 0;
      cargo := 0;
      prevIncome := map[];
    }

    method GameDaysTotal() returns (days: int)
      ensures days == DayBudget(config)
    {
      days := if !config.maxHeartbeats then 0 else config.count;
    }

    method GameDaysRemaining() returns (days: int)
      ensures days == DaysLeft(config, heartbeats)
    {
      var total := GameDaysTotal();
      if total == 0 {
        return 0;
      }
      days := if total - heartbeats > 0 then total - heartbeats else 0;
    }

    method CountEnabled() returns (n: nat)
      ensures n == EnabledCount(config)
    {
      SelectedOfOrder(EnabledIn(config));
      n := Bit(config.timeLimit) + Bit(config.gameDateLimit) + Bit(config.revenueThreshold)
        + Bit(config.cargoThreshold) + Bit(config.maxHeartbeats) + Bit(config.bankruptcy);
    }

    method CheckTimeLimit(snap: Snapshot, now: real) returns (rs: seq<Reason>)
      ensures Accounts(config, snap, rs, One(config.timeLimit && TimeIsUp(config, startTime, now), TimeLimit))
    {
      rs := [];
      if config.timeLimit && startTime.Some? {
        var elapsedMinutes := (now - startTime.value) / 60.0;
        if elapsedMinutes >= config.wallMinutes {
          rs := [Reason(TimeLimit, None)];
        }
      }
    }

    method CheckGameDate(snap: Snapshot) returns (rs: seq<Reason>)
      ensures Accounts(config, snap, rs, One(config.gameDateLimit && YearIsReached(config, snap.gameDate), GameDate))
    {
      rs := [];
      if config.gameDateLimit {
        var currentYear := Calendar.GameDateToYear(snap.gameDate);
        Calendar.ReachesYear(snap.gameDate, currentYear, config.endYear);
        if currentYear >= config.endYear {
          rs := [Reason(GameDate, None)];
        }
      }
    }

    method CheckBankruptcy(snap: Snapshot) returns (rs: seq<Reason>)
      ensures Accounts(config, snap, rs, One(config.bankruptcy && SomeIsGone(snap.companies), Bankruptcy))
    {
      rs := [];
      if config.bankruptcy {
        for k := 0 to |snap.companies|
          invariant rs == []
          invariant forall j :: 0 <= j < k ==> snap.companies[j].isActive
        {
          if !snap.companies[k].isActive {
            return [Reason(Bankruptcy, Some(snap.companies[k].id))];
          }
        }
      }
    }

    method CheckRevenue(snap: Snapshot) returns (rs: seq<Reason>)
      ensures Accounts(config, snap, rs, One(config.revenueThreshold && SomeIsRich(config, snap.companies), Revenue))
    {
      rs := [];
      if config.revenueThreshold {
        for k := 0 to |snap.companies|
          invariant rs == []
          invariant forall j :: 0 <= j < k ==> snap.companies[j].income < config.totalRevenue
        {
          if snap.companies[k].income >= config.totalRevenue {
            return [Reason(Revenue, Some(snap.companies[k].id))];
          }
        }
      }
    }

    method CheckCargo(snap: Snapshot) returns (rs: seq<Reason>)
      modifies this
      ensures Fields() == if config.cargoThreshold then CargoCounted(old(Fields()), snap.companies) else old(Fields())
      ensures Accounts(config, snap, rs, One(config.cargoThreshold && cargo >= config.totalCargo, Cargo))
    {
      rs := [];
      var companies := snap.companies;
      if config.cargoThreshold {
        for i := 0 to |companies|
          invariant Fields() == CargoCounted(old(Fields()), companies[..i])
        {
          assert companies[..i + 1][..i] == companies[..i];
          var c := companies[i];
          var prev := if c.id in prevIncome then prevIncome[c.id] else c.income;
          cargo := cargo + (if c.income - prev > 0 then c.income - prev else 0);
          prevIncome := prevIncome[c.id := c.income];
        }
        assert companies[..|companies|] == companies;
        if cargo >= config.totalCargo {
          rs := [Reason(Cargo, None)];
        }
      }
    }

    method CheckHeartbeats(snap: Snapshot) returns (rs: seq<Reason>)
      ensures Accounts(config, snap, rs, One(config.maxHeartbeats && heartbeats >= config.count, Heartbeats))
    {
      rs := [];
      if config.maxHeartbeats && heartbeats >= config.count {
        rs := [Reason(Heartbeats, None)];
      }
    }

    /** The reports of one check, in the order the conditions are looked at. */
    method EvaluateAll(snap: Snapshot, now: real) returns (results: seq<Reason>)
      modifies this
      ensures Fields() == if config.cargoThreshold then CargoCounted(old(Fields()), snap.companies) else old(Fields())
      ensures Accounts(config, snap, results, Firing(config, Fields(), snap, now))
    {
      CountingTouchesCargoOnly(Fields(), snap.companies);
      ghost var s := if config.cargoThreshold then CargoCounted(Fields(), snap.companies) else Fields();
      results := EvaluateQuietly(snap, now);
      var delivered := CheckCargo(snap);
      var beats := CheckHeartbeats(snap);
      ghost var quiet := Quiet(config, s, snap, now);
      AccountsJoin(config, snap, results, delivered, quiet, One(config.cargoThreshold && cargo >= config.totalCargo, Cargo));
      results := results + delivered;
      AccountsJoin(config, snap, results, beats, quiet + One(config.cargoThreshold && cargo >= config.totalCargo, Cargo),
        One(config.maxHeartbeats && heartbeats >= config.count, Heartbeats));
      results := results + beats;
      FiringParts(config, s, snap, now);
    }

    /** The four conditions that change nothing. */
    method EvaluateQuietly(snap: Snapshot, now: real) returns (results: seq<Reason>)
      ensures Accounts(config, snap, results, Quiet(config, Fields(), snap, now))
    {
      var timeLimit := CheckTimeLimit(snap, now);
      var gameDate := CheckGameDate(snap);
      var bankrupt := CheckBankruptcy(snap);
      var revenue := CheckRevenue(snap);
      results := timeLimit + gameDate + bankrupt + revenue;
      assert Conditions(results) == Conditions(timeLimit) + Conditions(gameDate) + Conditions(bankrupt) + Conditions(revenue);
    }

    /** One check: "any" reports the first condition met, "all" every one of them. */
    method Check(snap: Snapshot, now: real) returns (r: EndResult)
      modifies this
      ensures Fields() == Checked(config, old(Fields()), snap)
      ensures r.triggered <==> Ends(config, Fields(), snap, now)
      ensures var named := if r.triggered then Named(config, Firing(config, Fields(), snap, now)) else [];
        Accounts(config, snap, r.reasons, named)
    {
      heartbeats := heartbeats + 1;
      var triggered := EvaluateAll(snap, now);
      CountingDecides(config, Fields(), snap, now);
      assert |Conditions(triggered)| == |triggered|;
      if triggered == [] {
        return EndResult(false, []);
      }
      if config.requireAll {
        var enabledCount := CountEnabled();
        if |triggered| >= enabledCount {
          return EndResult(true, triggered);
        }
        return EndResult(false, []);
      }
      r := EndResult(true, [triggered[0]]);
    }
  }

  function DayBudget(cfg: Config): int {
    if cfg.maxHeartbeats then cfg.count else 0
  }

  function DaysLeft(cfg: Config, heartbeats: nat): (days: int) {
    if cfg.maxHeartbeats && cfg.count > heartbeats then cfg.count - heartbeats else 0
  }

  // ---------------------------------------------------------------- whole runs

  /** What happens to a checker between two resets. */
  datatype Event = ClockCall(now: real, gameDate: Option<int>) | StepCheck(snap: Snapshot, now: real)

  function After(cfg: Config, s: State, run: seq<Event>): State {
    if run == [] then s
    else
      match run[|run| - 1]
      case ClockCall(now, date) => ClockStarted(After(cfg, s, run[..|run| - 1]), now, date)
      case StepCheck(snap, _) => Checked(cfg, After(cfg, s, run[..|run| - 1]), snap)
  }

  function CheckCount(run: seq<Event>): (n: nat)
    ensures n <= |run|
  {
    if run == [] then 0 else CheckCount(run[..|run| - 1]) + (if run[|run| - 1].StepCheck? then 1 else 0)
  }

  /** The check at position k of the run ends it. */
  predicate EndsAt(cfg: Config, s: State, run: seq<Event>, k: nat)
    requires k < |run|
  {
    run[k].StepCheck? && Ends(cfg, After(cfg, s, run[..k + 1]), run[k].snap, run[k].now)
  }

  /** The run is still going after all its events. */
  predicate Goes(cfg: Config, s: State, run: seq<Event>) {
    forall k :: 0 <= k < |run| ==> !EndsAt(cfg, s, run, k)
  }

  /** The first call that starts the clock is the one that counts. */
  predicate StartedBy(run: seq<Event>, start: Option<real>, date: Option<int>) {
    if start == None then date == None && forall e :: e in run ==> !e.ClockCall?
    else exists k :: 0 <= k < |run| && run[k] == ClockCall(start.value, date) && forall j :: 0 <= j < k ==> !run[j].ClockCall?
  }

  lemma {:induction false} ClockStartsOnce(cfg: Config, s: State, run: seq<Event>)
    ensures s.startTime.Some? ==> After(cfg, s, run).startTime == s.startTime
    ensures s.startTime == None && s.startGameDate == None
            ==> StartedBy(run, After(cfg, s, run).startTime, After(cfg, s, run).startGameDate)
    decreases |run|
  {
    if run != [] {
      var front := run[..|run| - 1];
      ClockStartsOnce(cfg, s, front);
      var e := run[|run| - 1];
      assert forall j :: 0 <= j < |front| ==> run[j] == front[j];
      if e.StepCheck? {
        CountingTouchesCargoOnly(After(cfg, s, front).(heartbeats := After(cfg, s, front).heartbeats + 1), e.snap.companies);
      } else if s.startTime == None && s.startGameDate == None && After(cfg, s, front).startTime == None {
        assert run[|front|] == ClockCall(e.now, e.gameDate);
      }
    }
  }

  /** Before the clock starts no time is charged: the time limit does not fire,
      and where all conditions are required it keeps the run going. */
  lemma NoClockNoTimeLimit(cfg: Config, run: seq<Event>, snap: Snapshot, now: real)
    requires forall e :: e in run ==> !e.ClockCall?
    ensures !Met(cfg, After(cfg, FRESH, run), snap, now, TimeLimit)
    ensures cfg.timeLimit && cfg.requireAll ==> !Ends(cfg, After(cfg, FRESH, run), snap, now)
  {
    ClockStartsOnce(cfg, FRESH, run);
    assert cfg.timeLimit ==> Enabled(cfg, TimeLimit);
  }

  lemma {:induction false} ChecksAreCounted(cfg: Config, s: State, run: seq<Event>)
    ensures After(cfg, s, run).heartbeats == s.heartbeats + CheckCount(run)
    decreases |run|
  {
    if run != [] {
      var front := run[..|run| - 1];
      ChecksAreCounted(cfg, s, front);
      var e := run[|run| - 1];
      if e.StepCheck? {
        CountingTouchesCargoOnly(After(cfg, s, front).(heartbeats := After(cfg, s, front).heartbeats + 1), e.snap.companies);
      }
    }
  }

  /** The budget a contestant plans against: what is published is the budget
      less the checks made, and nothing when there is no budget. */
  lemma DaysLeftCountDown(cfg: Config, run: seq<Event>)
    ensures DaysLeft(cfg, After(cfg, FRESH, run).heartbeats)
            == if CheckCount(run) < DayBudget(cfg) then DayBudget(cfg) - CheckCount(run) else 0
  {
    ChecksAreCounted(cfg, FRESH, run);
  }

  /** With "any" and a budget of n steps, a run that is still going has made
      fewer than n checks, or none: check n ends it at the latest. */
  lemma {:induction false} BudgetStopsTheRun(cfg: Config, run: seq<Event>)
    requires !cfg.requireAll && cfg.maxHeartbeats && Goes(cfg, FRESH, run)
    ensures CheckCount(run) == 0 || CheckCount(run) < cfg.count
    decreases |run|
  {
    if run != [] {
      var front := run[..|run| - 1];
      if run[|run| - 1].StepCheck? {
        var last := run[|run| - 1];
        var s := After(cfg, FRESH, run);
        ChecksAreCounted(cfg, FRESH, run);
        assert run[..|run|] == run && !EndsAt(cfg, FRESH, run, |run| - 1);
        assert !Fires(cfg, s, last.snap, last.now, Heartbeats);
      } else {
        StillGoing(cfg, FRESH, run, |run| - 1);
        BudgetStopsTheRun(cfg, front);
      }
    }
  }

  lemma StillGoing(cfg: Config, s: State, run: seq<Event>, n: nat)
    requires n <= |run| && Goes(cfg, s, run)
    ensures Goes(cfg, s, run[..n])
  {
    forall k | 0 <= k < n ensures !EndsAt(cfg, s, run[..n], k) {
      assert run[..n][..k + 1] == run[..k + 1];
      assert !EndsAt(cfg, s, run, k);
    }
  }

  // ---------------------------------------------------------------- the cargo counter

  /** The incomes of one company, in the order they were read. */
  function SeriesOf(id: int, readings: seq<Company>): seq<int> {
    if readings == [] then []
    else
      var last := readings[|readings| - 1];
      SeriesOf(id, readings[..|readings| - 1]) + (if last.id == id then [last.income] else [])
  }

  /** The sum of the positive increments of a series. */
  function Climb(xs: seq<int>): int {
    if |xs| < 2 then 0
    else
      var before, after := xs[|xs| - 2], xs[|xs| - 1];
      Climb(xs[..|xs| - 1]) + (if after > before then after - before else 0)
  }

  function TotalClimb(ids: seq<int>, readings: seq<Company>): int {
    if ids == [] then 0 else TotalClimb(ids[..|ids| - 1], readings) + Climb(SeriesOf(ids[|ids| - 1], readings))
  }

  /** Every company reading of a run's checks, in order. */
  function Readings(run: seq<Event>): seq<Company> {
    if run == [] then []
    else Readings(run[..|run| - 1]) + (if run[|run| - 1].StepCheck? then run[|run| - 1].snap.companies else [])
  }

  lemma {:induction false} CountedConcat(s: State, a: seq<Company>, b: seq<Company>)
    ensures CargoCounted(s, a + b) == CargoCounted(CargoCounted(s, a), b)
    decreases |b|
  {
    if b == [] {
      assert a + b == a;
    } else {
      assert (a + b)[..|a + b| - 1] == a + b[..|b| - 1];
      CountedConcat(s, a, b[..|b| - 1]);
    }
  }

  lemma {:induction false} SameButCount(s: State, companies: seq<Company>, t: State)
    requires s.cargo == t.cargo && s.prevIncome == t.prevIncome
    ensures CargoCounted(s, companies).cargo == CargoCounted(t, companies).cargo
    ensures CargoCounted(s, companies).prevIncome == CargoCounted(t, companies).prevIncome
    decreases |companies|
  {
    if companies != [] {
      SameButCount(s, companies[..|companies| - 1], t);
    }
  }

  /** A run counts its readings as if they had come in one snapshot. */
  lemma {:induction false} RunCountsReadings(cfg: Config, s: State, run: seq<Event>)
    requires cfg.cargoThreshold
    ensures After(cfg, s, run).cargo == CargoCounted(s, Readings(run)).cargo
    ensures After(cfg, s, run).prevIncome == CargoCounted(s, Readings(run)).prevIncome
    decreases |run|
  {
    if run != [] {
      var front := run[..|run| - 1];
      RunCountsReadings(cfg, s, front);
      if run[|run| - 1].StepCheck? {
        var before := After(cfg, s, front);
        var companies := run[|run| - 1].snap.companies;
        CountedConcat(s, Readings(front), companies);
        SameButCount(before.(heartbeats := before.heartbeats + 1), companies, CargoCounted(s, Readings(front)));
      } else {
        assert Readings(run) == Readings(front);
      }
    }
  }

  /** The stored income of a company is the last one read. */
  lemma {:induction false} LastIncomeIsKept(readings: seq<Company>, id: int)
    ensures var m := CargoCounted(FRESH, readings).prevIncome; var xs := SeriesOf(id, readings);
      (id in m <==> xs != []) && (id in m ==> m[id] == xs[|xs| - 1])
    decreases |readings|
  {
    if readings != [] {
      LastIncomeIsKept(readings[..|readings| - 1], id);
    }
  }

  /** One more reading raises the total by that company's own increment. */
  lemma {:induction false} TotalStep(ids: seq<int>, readings: seq<Company>, c: Company)
    requires Distinct(ids)
    ensures TotalClimb(ids, readings + [c])
            == TotalClimb(ids, readings)
               + if c.id in ids then Climb(SeriesOf(c.id, readings + [c])) - Climb(SeriesOf(c.id, readings)) else 0
    decreases |ids|
  {
    if ids != [] {
      var front := ids[..|ids| - 1];
      TotalStep(front, readings, c);
      assert (readings + [c])[..|readings|] == readings;
      var last := ids[|ids| - 1];
      assert ids == front + [last];
      assert last !in front;
      assert last != c.id ==> SeriesOf(last, readings + [c]) == SeriesOf(last, readings);
    }
  }

  lemma {:induction false} CountedIsClimb(ids: seq<int>, readings: seq<Company>)
    requires Distinct(ids) && forall c :: c in readings ==> c.id in ids
    ensures CargoCounted(FRESH, readings).cargo == TotalClimb(ids, readings)
    decreases |readings|
  {
    if readings == [] {
      NothingClimbs(ids);
    } else {
      var front, c := readings[..|readings| - 1], readings[|readings| - 1];
      assert readings == front + [c];
      CountedIsClimb(ids, front);
      OneReadingClimbs(front, c);
      TotalStep(ids, front, c);
    }
  }

  /** A reading is counted as the rise of its own company's series. */
  lemma OneReadingClimbs(front: seq<Company>, c: Company)
    ensures CargoCounted(FRESH, front + [c]).cargo - CargoCounted(FRESH, front).cargo
            == Climb(SeriesOf(c.id, front + [c])) - Climb(SeriesOf(c.id, front))
  {
    LastIncomeIsKept(front, c.id);
    assert (front + [c])[..|front|] == front;
    ClimbStep(SeriesOf(c.id, front), c.income);
  }

  lemma ClimbStep(xs: seq<int>, x: int)
    ensures Climb(xs + [x]) == Climb(xs) + if xs == [] then 0 else Rise(xs[|xs| - 1], x)
  {
    assert (xs + [x])[..|xs|] == xs;
  }

  lemma {:induction false} NothingClimbs(ids: seq<int>)
    ensures TotalClimb(ids, []) == 0
    decreases |ids|
  {
    if ids != [] {
      NothingClimbs(ids[..|ids| - 1]);
    }
  }

  /** After any run, the cargo counter is the sum over the companies of the
      positive increments of each one's own income series, whatever the order
      and grouping of the readings: only how each series runs matters. */
  lemma CargoIsClimb(cfg: Config, run: seq<Event>, ids: seq<int>)
    requires cfg.cargoThreshold && Distinct(ids) && forall c :: c in Readings(run) ==> c.id in ids
    ensures After(cfg, FRESH, run).cargo == TotalClimb(ids, Readings(run))
  {
    RunCountsReadings(cfg, FRESH, run);
    CountedIsClimb(ids, Readings(run));
  }

  // ---------------------------------------------------------------- when a run ends

  /** The clock of the run first starts at position c. */
  predicate StartsAt(run: seq<Event>, c: nat) {
    c < |run| && run[c].ClockCall? && forall j :: 0 <= j < c ==> !run[j].ClockCall?
  }

  /** At the check at position k the wall clock has run for the minutes allowed, from the first call that started it. */
  predicate MinutesAreUp(run: seq<Event>, k: nat, minutes: real)
    requires k < |run|
  {
    exists c :: 0 <= c < k && StartsAt(run, c) && (run[k].now - run[c].now) / 60.0 >= minutes
  }

  /** The date lies in a year from `end` on. */
  ghost predicate InYearOrLater(date: int, end: int) {
    exists year :: Calendar.IsYearOf(date, year) && year >= end
  }

  /** Each condition as a run fulfils it at its check at position k. */
  ghost predicate Fulfils(cfg: Config, run: seq<Event>, k: nat, ids: seq<int>, c: Condition)
    requires k < |run| && run[k].StepCheck?
  {
    match c
    case TimeLimit => MinutesAreUp(run, k, cfg.wallMinutes)
    case GameDate => InYearOrLater(run[k].snap.gameDate, cfg.endYear)
    case Bankruptcy => exists i :: 0 <= i < |run[k].snap.companies| && !run[k].snap.companies[i].isActive
    case Revenue => exists i :: 0 <= i < |run[k].snap.companies| && run[k].snap.companies[i].income >= cfg.totalRevenue
    case Cargo => TotalClimb(ids, Readings(run[..k + 1])) >= cfg.totalCargo
    case Heartbeats => CheckCount(run[..k + 1]) >= cfg.count
  }

  lemma StartIsUnique(run: seq<Event>, c: nat, d: nat)
    requires StartsAt(run, c) && StartsAt(run, d)
    ensures c == d
  {
  }

  /** The time limit is met when its minutes have passed since the first clock call, however often the clock was started. */
  lemma TimeIsUpIff(cfg: Config, run: seq<Event>, k: nat)
    requires k < |run| && run[k].StepCheck?
    ensures TimeIsUp(cfg, After(cfg, FRESH, run[..k + 1]).startTime, run[k].now) <==> MinutesAreUp(run, k, cfg.wallMinutes)
  {
    var front := run[..k + 1];
    var start := After(cfg, FRESH, front).startTime;
    ClockStartsOnce(cfg, FRESH, front);
    if start.Some? {
      var c :| 0 <= c < |front| && front[c] == ClockCall(start.value, After(cfg, FRESH, front).startGameDate)
               && forall j :: 0 <= j < c ==> !front[j].ClockCall?;
      assert c < k && StartsAt(run, c);
      if MinutesAreUp(run, k, cfg.wallMinutes) {
        var d :| 0 <= d < k && StartsAt(run, d) && (run[k].now - run[d].now) / 60.0 >= cfg.wallMinutes;
        StartIsUnique(run, c, d);
      }
    } else {
      forall c | 0 <= c < k ensures !StartsAt(run, c) {
        assert run[c] in front;
      }
    }
  }

  lemma YearIsReachedIff(cfg: Config, date: int)
    ensures YearIsReached(cfg, date) <==> InYearOrLater(date, cfg.endYear)
  {
    var year := Calendar.YearFrom(date, 0);
    Calendar.ReachesYear(date, year, cfg.endYear);
    forall other | Calendar.IsYearOf(date, other) && other >= cfg.endYear ensures YearIsReached(cfg, date) {
      Calendar.ReachesYear(date, other, cfg.endYear);
    }
  }

  lemma FulfilsIff(cfg: Config, run: seq<Event>, k: nat, ids: seq<int>, c: Condition)
    requires k < |run| && run[k].StepCheck? && Distinct(ids) && forall r :: r in Readings(run[..k + 1]) ==> r.id in ids
    requires c == Cargo ==> cfg.cargoThreshold
    ensures Met(cfg, After(cfg, FRESH, run[..k + 1]), run[k].snap, run[k].now, c) <==> Fulfils(cfg, run, k, ids, c)
  {
    match c
    case TimeLimit => TimeIsUpIff(cfg, run, k);
    case GameDate => YearIsReachedIff(cfg, run[k].snap.gameDate);
    case Cargo => CargoIsClimb(cfg, run[..k + 1], ids);
    case Heartbeats => ChecksAreCounted(cfg, FRESH, run[..k + 1]);
    case _ =>
  }

  /** The check at position k ends the run exactly when the enabled conditions, read off the run itself, say so. */
  lemma RunEndsIff(cfg: Config, run: seq<Event>, k: nat, ids: seq<int>)
    requires k < |run| && run[k].StepCheck? && Distinct(ids) && forall r :: r in Readings(run[..k + 1]) ==> r.id in ids
    ensures EndsAt(cfg, FRESH, run, k) <==>
            if cfg.requireAll then
              && (cfg.timeLimit || cfg.gameDateLimit || cfg.bankruptcy || cfg.revenueThreshold || cfg.cargoThreshold || cfg.maxHeartbeats)
              && (cfg.timeLimit ==> Fulfils(cfg, run, k, ids, TimeLimit))
              && (cfg.gameDateLimit ==> Fulfils(cfg, run, k, ids, GameDate))
              && (cfg.bankruptcy ==> Fulfils(cfg, run, k, ids, Bankruptcy))
              && (cfg.revenueThreshold ==> Fulfils(cfg, run, k, ids, Revenue))
              && (cfg.cargoThreshold ==> Fulfils(cfg, run, k, ids, Cargo))
              && (cfg.maxHeartbeats ==> Fulfils(cfg, run, k, ids, Heartbeats))
            else
              || (cfg.timeLimit && Fulfils(cfg, run, k, ids, TimeLimit))
              || (cfg.gameDateLimit && Fulfils(cfg, run, k, ids, GameDate))
              || (cfg.bankruptcy && Fulfils(cfg, run, k, ids, Bankruptcy))
              || (cfg.revenueThreshold && Fulfils(cfg, run, k, ids, Revenue))
              || (cfg.cargoThreshold && Fulfils(cfg, run, k, ids, Cargo))
              || (cfg.maxHeartbeats && Fulfils(cfg, run, k, ids, Heartbeats))
  {
    var s := After(cfg, FRESH, run[..k + 1]);
    FulfilsIff(cfg, run, k, ids, TimeLimit);
    FulfilsIff(cfg, run, k, ids, GameDate);
    FulfilsIff(cfg, run, k, ids, Bankruptcy);
    FulfilsIff(cfg, run, k, ids, Revenue);
    FulfilsIff(cfg, run, k, ids, Heartbeats);
    if cfg.cargoThreshold {
      FulfilsIff(cfg, run, k, ids, Cargo);
    }
    EndsByFlags(cfg, s, run[k].snap, run[k].now);
  }

  /** The two logics, flag by flag. */
  lemma EndsByFlags(cfg: Config, s: State, snap: Snapshot, now: real)
    ensures Ends(cfg, s, snap, now) <==>
            if cfg.requireAll then
              && (cfg.timeLimit || cfg.gameDateLimit || cfg.bankruptcy || cfg.revenueThreshold || cfg.cargoThreshold || cfg.maxHeartbeats)
              && (cfg.timeLimit ==> Met(cfg, s, snap, now, TimeLimit))
              && (cfg.gameDateLimit ==> Met(cfg, s, snap, now, GameDate))
              && (cfg.bankruptcy ==> Met(cfg, s, snap, now, Bankruptcy))
              && (cfg.revenueThreshold ==> Met(cfg, s, snap, now, Revenue))
              && (cfg.cargoThreshold ==> Met(cfg, s, snap, now, Cargo))
              && (cfg.maxHeartbeats ==> Met(cfg, s, snap, now, Heartbeats))
            else
              || (cfg.timeLimit && Met(cfg, s, snap, now, TimeLimit))
              || (cfg.gameDateLimit && Met(cfg, s, snap, now, GameDate))
              || (cfg.bankruptcy && Met(cfg, s, snap, now, Bankruptcy))
              || (cfg.revenueThreshold && Met(cfg, s, snap, now, Revenue))
              || (cfg.cargoThreshold && Met(cfg, s, snap, now, Cargo))
              || (cfg.maxHeartbeats && Met(cfg, s, snap, now, Heartbeats))
  {
    FlagOf(cfg, s, snap, now, TimeLimit);
    FlagOf(cfg, s, snap, now, GameDate);
    FlagOf(cfg, s, snap, now, Bankruptcy);
    FlagOf(cfg, s, snap, now, Revenue);
    FlagOf(cfg, s, snap, now, Cargo);
    FlagOf(cfg, s, snap, now, Heartbeats);
  }

  lemma FlagOf(cfg: Config, s: State, snap: Snapshot, now: real, c: Condition)
    ensures Enabled(cfg, c) <==> match c
                                 case TimeLimit => cfg.timeLimit
                                 case GameDate => cfg.gameDateLimit
                                 case Bankruptcy => cfg.bankruptcy
                                 case Revenue => cfg.revenueThreshold
                                 case Cargo => cfg.cargoThreshold
                                 case Heartbeats => cfg.maxHeartbeats
    ensures Fires(cfg, s, snap, now, c) <==> Enabled(cfg, c) && Met(cfg, s, snap, now, c)
  {
  }

  /** Under "any" the result names the first enabled condition that is met; under "all", each of them once. */
  lemma NamesTheFirst(cfg: Config, s: State, snap: Snapshot, now: real)
    ensures var named := Named(cfg, Firing(cfg, s, snap, now));
            if cfg.requireAll then
              Distinct(named) && forall c :: c in named <==> Fires(cfg, s, snap, now, c)
            else
              named == if Fires(cfg, s, snap, now, TimeLimit) then [TimeLimit]
                       else if Fires(cfg, s, snap, now, GameDate) then [GameDate]
                       else if Fires(cfg, s, snap, now, Bankruptcy) then [Bankruptcy]
                       else if Fires(cfg, s, snap, now, Revenue) then [Revenue]
                       else if Fires(cfg, s, snap, now, Cargo) then [Cargo]
                       else if Fires(cfg, s, snap, now, Heartbeats) then [Heartbeats]
                       else []
  {
    if cfg.requireAll {
      SelectedIsSubset(FiresIn(cfg, s, snap, now), ORDER);
      forall c: Condition ensures c in ORDER {
        EveryConditionIsInOrder(c);
      }
    } else {
      SelectedOfOrder(FiresIn(cfg, s, snap, now));
    }
  }

  lemma {:induction false} SelectedIsSubset(p: Condition -> bool, order: seq<Condition>)
    requires Distinct(order)
    ensures Distinct(Selected(p, order)) && forall c :: c in Selected(p, order) <==> c in order && p(c)
    decreases |order|
  {
    if order != [] {
      var front, last := order[..|order| - 1], order[|order| - 1];
      SelectedIsSubset(p, front);
      assert order == front + [last] && last !in front;
    }
  }
}
