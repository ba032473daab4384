/** The calendar conversions of src/nttd/analysis/date_utils.py and
    src/nttd/utils/game_date.py.  OpenTTD reports a date as a count of days
    since 1 January of year 0.  The specification is the day count of a
    civil date, and what pins that count is `Tomorrow`: the leap rule of
    Appendix C and the month lengths of section 5.7 of RFC 3339. */
module Calendar {

  datatype Date = Date(year: int, month: int, day: int)

  predicate IsLeap(year: int) {
    (year % 4 == 0 && year % 100 != 0) || year % 400 == 0
  }

  function DaysInYear(year: int): (r: int)
    ensures r == 365 || r == 366
  {
    if IsLeap(year) then 366 else 365
  }

  function DaysInMonth(year: int, month: int): (r: int)
    requires 1 <= month <= 12
    ensures 28 <= r <= 31
  {
    if month == 2 then (if IsLeap(year) then 29 else 28)
    else if month in {4, 6, 9, 11} then 30
    else 31
  }

  predicate IsDate(d: Date) {
    1 <= d.month <= 12 && 1 <= d.day <= DaysInMonth(d.year, d.month)
  }

  /** The day after a date, by the rules of the calendar alone. */
  function Tomorrow(d: Date): Date
    requires IsDate(d)
  {
    if d.day < DaysInMonth(d.year, d.month) then d.(day := d.day + 1)
    else if d.month < 12 then Date(d.year, d.month + 1, 1)
    else Date(d.year + 1, 1, 1)
  }

  predicate Before(a: Date, b: Date) {
    a.year < b.year
    || (a.year == b.year && (a.month < b.month || (a.month == b.month && a.day < b.day)))
  }

  /** Days from 1 January of year 0 to 1 January of `year`, negative before it. */
  function YearStart(year: int): int
    decreases if year < 0 then -year else year
  {
    if year == 0 then 0
    else if year > 0 then YearStart(year - 1) + DaysInYear(year - 1)
    else YearStart(year + 1) - DaysInYear(year)
  }

  /** Days of the year that lie before the first of `month`. */
  function MonthStart(year: int, month: int): int
    requires 1 <= month <= 13
  {
    if month == 1 then 0 else MonthStart(year, month - 1) + DaysInMonth(year, month - 1)
  }

  function DayNumber(d: Date): int
    requires 1 <= d.month <= 12
  {
    YearStart(d.year) + MonthStart(d.year, d.month) + d.day - 1
  }

  /** The days before each month of a year, without its leap day. */
  const MONTHS := [0, 31, 59, 90, 120, 151, 181, 212, 243, 273, 304, 334, 365]

  /** A leap day falls between February and March, in the years that four divides but not those that only 100 does. */
  lemma MonthsOf(year: int, month: int)
    requires 1 <= month <= 13
    ensures MonthStart(year, month)
            == MONTHS[month - 1] + if month > 2 && (if year % 100 == 0 then year % 400 == 0 else year % 4 == 0) then 1 else 0
  {
    if month > 1 {
      MonthsOf(year, month - 1);
    }
  }

  lemma YearStartSteps(year: int)
    ensures YearStart(year + 1) == YearStart(year) + DaysInYear(year)
  {
  }

  /** Multiples of `n` among the years from 0 up to `year`. */
  function Multiples(year: int, n: int): int
    requires n > 0
  {
    (year + n - 1) / n
  }

  /** Leap years from year 0 up to `year`. */
  function LeapYearsBefore(year: int): int {
    Multiples(year, 4) - Multiples(year, 100) + Multiples(year, 400)
  }

  lemma MultiplesStep(year: int, n: int)
    requires n in {4, 100, 400}
    ensures Multiples(year + 1, n) == Multiples(year, n) + if year % n == 0 then 1 else 0
  {
  }

  lemma LeapByCenturies(year: int)
    ensures (if IsLeap(year) then 1 else 0)
            == (if year % 4 == 0 then 1 else 0) - (if year % 100 == 0 then 1 else 0) + (if year % 400 == 0 then 1 else 0)
  {
    MultipleOfMultiple(year, 100, 4);
    MultipleOfMultiple(year, 400, 100);
  }

  lemma MultipleOfMultiple(year: int, n: int, d: int)
    requires (n == 100 && d == 4) || (n == 400 && d == 100)
    ensures year % n == 0 ==> year % d == 0
  {
    if year % n == 0 {
      var q := year / n;
      assert year == if n == 100 then 4 * (25 * q) else 100 * (4 * q);
    }
  }

  lemma LeapYearsStep(year: int)
    ensures LeapYearsBefore(year + 1) == LeapYearsBefore(year) + if IsLeap(year) then 1 else 0
  {
    MultiplesStep(year, 4);
    MultiplesStep(year, 100);
    MultiplesStep(year, 400);
    LeapByCenturies(year);
  }

  /** `count` goes up by one over each leap year. */
  ghost predicate CountsLeapYear(count: int -> int, year: int) {
    count(year + 1) == count(year) + if IsLeap(year) then 1 else 0
  }

  /** Any count of leap years gives the start of a year. */
  lemma {:induction false} YearStartByCount(count: int -> int, year: int)
    requires count(0) == 0 && forall y :: CountsLeapYear(count, y)
    ensures YearStart(year) == 365 * year + count(year)
    decreases if year < 0 then -year else year
  {
    if year > 0 {
      YearStartByCount(count, year - 1);
      assert CountsLeapYear(count, year - 1);
    } else if year < 0 {
      YearStartByCount(count, year + 1);
      assert CountsLeapYear(count, year);
    }
  }

  lemma LeapYearCount(cycles: int) returns (count: int -> int)
    ensures count(0) == 0 && forall y :: CountsLeapYear(count, y)
    ensures count(400 * cycles) == 97 * cycles
  {
    count := LeapYearsBefore;
    forall y ensures CountsLeapYear(count, y) {
      LeapYearsStep(y);
    }
    LeapYearsOfCycle(cycles);
  }

  lemma YearStartOfCycle(cycles: int)
    ensures YearStart(400 * cycles) == 146097 * cycles
  {
    var count := LeapYearCount(cycles);
    YearStartByCount(count, 400 * cycles);
  }

  lemma LeapYearsOfCycle(cycles: int)
    ensures LeapYearsBefore(400 * cycles) == 97 * cycles
  {
    assert (400 * cycles + 3) / 4 == 100 * cycles;
    assert (400 * cycles + 99) / 100 == 4 * cycles;
    assert (400 * cycles + 399) / 400 == cycles;
  }

  lemma {:induction false} YearStartRises(a: int, b: int)
    requires a <= b
    ensures 365 * (b - a) <= YearStart(b) - YearStart(a)
    decreases b - a
  {
    if a < b {
      YearStartRises(a, b - 1);
      YearStartSteps(b - 1);
    }
  }

  lemma YearIsMonths(year: int)
    ensures MonthStart(year, 13) == DaysInYear(year)
  {
    var feb := DaysInMonth(year, 2);
    assert MonthStart(year, 1) == 0 && MonthStart(year, 2) == 31;
    assert MonthStart(year, 3) == 31 + feb && MonthStart(year, 4) == 62 + feb;
    assert MonthStart(year, 5) == 92 + feb && MonthStart(year, 6) == 123 + feb;
    assert MonthStart(year, 7) == 153 + feb && MonthStart(year, 8) == 184 + feb;
    assert MonthStart(year, 9) == 215 + feb && MonthStart(year, 10) == 245 + feb;
    assert MonthStart(year, 11) == 276 + feb && MonthStart(year, 12) == 306 + feb;
  }

  lemma {:induction false} MonthStartRises(year: int, a: int, b: int)
    requires 1 <= a <= b <= 13
    ensures MonthStart(year, a) + 28 * (b - a) <= MonthStart(year, b)
    ensures a < b ==> MonthStart(year, a) + DaysInMonth(year, a) <= MonthStart(year, b)
    decreases b - a
  {
    if a < b {
      MonthStartRises(year, a, b - 1);
    }
  }

  /** A date lies inside its own year. */
  lemma WithinYear(d: Date)
    requires IsDate(d)
    ensures YearStart(d.year) <= DayNumber(d) < YearStart(d.year + 1)
  {
    MonthStartRises(d.year, 1, d.month);
    MonthStartRises(d.year, d.month, 13);
    YearIsMonths(d.year);
    YearStartSteps(d.year);
  }

  lemma NewYear(d: Date)
    requires IsDate(d) && d.month == 12 && d.day == DaysInMonth(d.year, 12)
    ensures DayNumber(Date(d.year + 1, 1, 1)) == DayNumber(d) + 1
  {
    YearIsMonths(d.year);
    assert MonthStart(d.year, 13) == MonthStart(d.year, 12) + d.day;
    YearStartSteps(d.year);
    assert MonthStart(d.year + 1, 1) == 0;
  }

  lemma NewMonth(d: Date)
    requires IsDate(d) && d.month < 12 && d.day == DaysInMonth(d.year, d.month)
    ensures DayNumber(Date(d.year, d.month + 1, 1)) == DayNumber(d) + 1
  {
  }

  /** What makes `DayNumber` the count of days: it is one more on each
      following day of the calendar, and 0 on 1 January of year 0 (`DayZero`). */
  lemma DayNumberCountsDays(d: Date)
    requires IsDate(d)
    ensures IsDate(Tomorrow(d)) && DayNumber(Tomorrow(d)) == DayNumber(d) + 1
  {
    if d.day < DaysInMonth(d.year, d.month) {
      assert DayNumber(d.(day := d.day + 1)) == DayNumber(d) + 1;
    } else if d.month < 12 {
      NewMonth(d);
    } else {
      NewYear(d);
    }
  }

  /** Day counts order dates as the calendar does, so no two dates share one. */
  lemma DayNumberOrders(a: Date, b: Date)
    requires IsDate(a) && IsDate(b)
    ensures Before(a, b) <==> DayNumber(a) < DayNumber(b)
    ensures DayNumber(a) == DayNumber(b) <==> a == b
  {
    EarlierIsSmaller(a, b);
    EarlierIsSmaller(b, a);
    assert a == b || Before(a, b) || Before(b, a);
  }

  lemma EarlierIsSmaller(a: Date, b: Date)
    requires IsDate(a) && IsDate(b)
    ensures Before(a, b) ==> DayNumber(a) < DayNumber(b)
  {
    if a.year < b.year {
      WithinYear(a);
      WithinYear(b);
      YearStartRises(a.year + 1, b.year);
    } else if a.year == b.year && a.month < b.month {
      MonthStartRises(a.year, a.month, b.month);
    }
  }

  /** `game_date_to_ymd`: whole 400-year blocks by floor division, then years,
      then months.  The result is the one date with that count, and the year
      loop stays inside its block. */
  method GameDateToYmd(gameDate: int) returns (r: Date)
    ensures IsDate(r) && DayNumber(r) == gameDate
    ensures forall d: Date :: IsDate(d) && DayNumber(d) == gameDate ==> d == r
    ensures 0 <= r.year - gameDate / 146097 * 400 < 400
  {
    var blocks400 := gameDate / 146097;
    var year := blocks400 * 400;
    var remaining := gameDate - blocks400 * 146097;
    CycleBounds(gameDate);
    while remaining >= DaysInYear(year)
      invariant 0 <= remaining && YearStart(year) + remaining == gameDate
      invariant blocks400 * 400 <= year < blocks400 * 400 + 400
      decreases remaining
    {
      YearStartSteps(year);
      WithinCycle(gameDate, year + 1);
      remaining := remaining - DaysInYear(year);
      year := year + 1;
    }
    ghost var ofYear := remaining;
    YearIsMonths(year);
    var month := 0;
    while month < 12 && remaining >= DaysInMonth(year, month + 1)
      invariant 0 <= month <= 12
      invariant 0 <= remaining
      invariant MonthStart(year, month + 1) + remaining == ofYear
    {
      remaining := remaining - DaysInMonth(year, month + 1);
      month := month + 1;
    }
    r := Date(year, month + 1, remaining + 1);
    forall d: Date | IsDate(d) && DayNumber(d) == gameDate ensures d == r {
      DayNumberOrders(d, r);
    }
  }

  lemma CycleBounds(n: int)
    ensures YearStart(n / 146097 * 400) == n / 146097 * 146097 <= n
    ensures n < YearStart(n / 146097 * 400 + 400)
  {
    YearStartOfCycle(n / 146097);
    YearStartOfCycle(n / 146097 + 1);
  }

  /** A year that starts on or before day n is not past the block of n. */
  lemma WithinCycle(n: int, year: int)
    requires YearStart(year) <= n
    ensures year < n / 146097 * 400 + 400
  {
    CycleBounds(n);
    var next := n / 146097 * 400 + 400;
    if next <= year {
      YearStartRises(next, year);
    }
  }

  predicate IsYearOf(n: int, year: int) {
    if n <= 0 then year == 0 else YearStart(year) <= n < YearStart(year + 1)
  }

  /** Every day has a year. */
  lemma {:induction false} YearFrom(n: int, from: nat) returns (year: int)
    requires n > 0 ==> YearStart(from) <= n
    ensures IsYearOf(n, year)
    decreases n - YearStart(from)
  {
    if n <= 0 {
      year := 0;
    } else if n < YearStart(from + 1) {
      year := from;
    } else {
      YearStartSteps(from);
      year := YearFrom(n, from + 1);
    }
  }

  /** A day's year is at least `endYear` exactly when the day is not before the
      first of that year. */
  lemma ReachesYear(n: int, year: int, endYear: int)
    requires IsYearOf(n, year)
    ensures endYear <= year <==> if n <= 0 then endYear <= 0 else YearStart(endYear) <= n
  {
    if n > 0 && endYear <= year {
      YearStartRises(endYear, year);
    } else if n > 0 {
      YearStartRises(year + 1, endYear);
    }
  }

  function FirstDay(year: int): int {
    if year <= 0 then 0 else DayNumber(Date(year, 1, 1))
  }

  /** `game_date_to_year`: the year a day falls in, and 0 for every day that is
      not after day 0. */
  method GameDateToYear(gameDate: int) returns (year: int)
    ensures IsYearOf(gameDate, year)
    ensures forall d: Date :: IsDate(d) && DayNumber(d) == gameDate && gameDate >= 0 ==> d.year == year
  {
    if gameDate <= 0 {
      forall d: Date | IsDate(d) && DayNumber(d) == 0 ensures d.year == 0 {
        DayZero(d);
      }
      return 0;
    }
    year := gameDate / 146097 * 400;
    var remaining := gameDate % 146097;
    CycleBounds(gameDate);
    while remaining >= DaysInYear(year)
      invariant 0 <= remaining && YearStart(year) + remaining == gameDate
      decreases remaining
    {
      YearStartSteps(year);
      remaining := remaining - DaysInYear(year);
      year := year + 1;
    }
    YearStartSteps(year);
    ghost var found := year;
    forall d: Date | IsDate(d) && DayNumber(d) == gameDate ensures d.year == found {
      SameYear(d, found);
    }
  }

  lemma YearBegins(year: int)
    ensures IsDate(Date(year, 1, 1)) && DayNumber(Date(year, 1, 1)) == YearStart(year)
  {
  }

  lemma StartOfYear(d: Date, year: int)
    requires IsDate(d)
    ensures DayNumber(d) == YearStart(year) <==> d == Date(year, 1, 1)
  {
    YearBegins(year);
    DayNumberOrders(d, Date(year, 1, 1));
  }

  /** Day 0 is 1 January of year 0 and no other date. */
  lemma DayZero(d: Date)
    requires IsDate(d)
    ensures DayNumber(d) == 0 <==> d == Date(0, 1, 1)
  {
    YearStartOfCycle(0);
    StartOfYear(d, 0);
  }

  lemma SameYear(d: Date, year: int)
    requires IsDate(d) && YearStart(year) <= DayNumber(d) < YearStart(year + 1)
    ensures d.year == year
  {
    WithinYear(d);
    if d.year < year {
      YearStartRises(d.year + 1, year);
    } else if year < d.year {
      YearStartRises(year + 1, d.year);
    }
  }

  /** `year_to_game_date`: the count of 1 January, and 0 for years before 1. */
  method YearToGameDate(year: int) returns (gameDate: int)
    ensures gameDate == FirstDay(year)
  {
    if year <= 0 {
      return 0;
    }
    var fullCycles := year / 400;
    gameDate := fullCycles * 146097;
    YearStartOfCycle(fullCycles);
    for y := fullCycles * 400 to year
      invariant gameDate == YearStart(y)
    {
      YearStartSteps(y);
      gameDate := gameDate + DaysInYear(y);
    }
  }

  /** A deadline given as a year decides the same once it is turned into a day
      count, unless the year is not positive and the day is before day 0. */
  lemma DeadlineByDayIsByYear(n: int, year: int, endYear: int)
    requires IsYearOf(n, year)
    ensures (FirstDay(endYear) <= n <==> endYear <= year) <==> (endYear > 0 || n >= 0)
  {
    YearStartOfCycle(0);
    if 0 < endYear <= year {
      YearStartRises(endYear, year);
    } else if 0 < endYear && 0 < n {
      YearStartRises(year + 1, endYear);
    } else if 0 < endYear {
      YearStartRises(0, endYear);
    } else if 0 < n {
      YearNotNegative(n, year);
    }
  }

  lemma YearNotNegative(n: int, year: int)
    requires YearStart(year) <= n < YearStart(year + 1) && n >= 0
    ensures 0 <= year
  {
    YearStartOfCycle(0);
    if year < 0 {
      YearStartRises(year + 1, 0);
    }
  }
}
