/**
 The proleptic Gregorian calendar in UTC, as far as the cron engine reads it. Days count from
 day 0, Monday 1 January of year 1; minutes from its midnight.
 */
module Calendar {

  const MINUTES_PER_DAY := 1440

  datatype Date = Date(year: int, month: int, day: int)

  predicate IsLeap(y: int) {
    y % 4 == 0 && (y % 100 != 0 || y % 400 == 0)
  }

  function YearLength(y: int): int {
    if IsLeap(y) then 366 else 365
  }

  /** The number of days from day 0 to 1 January of year y. */
  function YearStart(y: int): int
    decreases if y > 1 then y - 1 else 1 - y
  {
    if y == 1 then 0
    else if y > 1 then YearStart(y - 1) + YearLength(y - 1)
    else YearStart(y + 1) - YearLength(y)
  }

  function MonthLength(y: int, m: int): int
    requires 1 <= m <= 12
  {
    if m == 2 then if IsLeap(y) then 29 else 28
    else if m == 4 || m == 6 || m == 9 || m == 11 then 30
    else 31
  }

  /** The number of days from 1 January to the first of month m; m = 13 is the next year. */
  function MonthStart(y: int, m: int): int
    requires 1 <= m <= 13
  {
    if m == 1 then 0 else MonthStart(y, m - 1) + MonthLength(y, m - 1)
  }

  predicate ValidDate(d: Date) {
    1 <= d.month <= 12 && 1 <= d.day <= MonthLength(d.year, d.month)
  }

  /** The day a date stands for; months and days past the end run over, as in time.Date. */
  function DayNumber(y: int, m: int, day: int): int {
    DayOf(y + (m - 1) / 12, (m - 1) % 12 + 1, day)
  }

  function DayOf(y: int, m: int, day: int): int
    requires 1 <= m <= 12
  {
    YearStart(y) + MonthStart(y, m) + day - 1
  }

  /** The year that day d lies in, looking forward from year y, or back. */
  function YearFrom(d: int, y: int): (z: int)
    requires YearStart(y) <= d
    ensures YearStart(z) <= d < YearStart(z + 1)
    decreases d - YearStart(y)
  {
    if d < YearStart(y + 1) then y else YearFrom(d, y + 1)
  }

  function YearBack(d: int, y: int): (z: int)
    requires d < YearStart(y + 1)
    ensures YearStart(z) <= d < YearStart(z + 1)
    decreases YearStart(y + 1) - d
  {
    if YearStart(y) <= d then y else YearBack(d, y - 1)
  }

  function YearOf(d: int): (y: int)
    ensures YearStart(y) <= d < YearStart(y + 1)
  {
    if d >= 0 then YearFrom(d, 1) else YearBack(d, 0)
  }

  /** The month, at most m, that a day of the year lies in. */
  function MonthOf(y: int, dayOfYear: int, m: int): (k: int)
    requires 1 <= m <= 12
    ensures 1 <= k <= m
  {
    if m == 1 || MonthStart(y, m) <= dayOfYear then m else MonthOf(y, dayOfYear, m - 1)
  }

  function Civil(d: int): Date {
    var y := YearOf(d);
    var m := MonthOf(y, d - YearStart(y), 12);
    Date(y, m, d - YearStart(y) - MonthStart(y, m) + 1)
  }

  /** Sunday is 0; day 0 was a Monday. */
  function Weekday(d: int): int {
    (d + 1) % 7
  }

  // ----- Years -----

  lemma {:induction false} YearsAscend(y: int, z: int)
    requires y <= z
    ensures YearStart(y) + 365 * (z - y) <= YearStart(z)
    decreases z - y
  {
    if y < z {
      YearsAscend(y, z - 1);
    }
  }

  lemma YearUnique(y: int, d: int)
    requires YearStart(y) <= d < YearStart(y + 1)
    ensures YearOf(d) == y
  {
    var z := YearOf(d);
    if z < y {
      YearsAscend(z + 1, y);
    } else if y < z {
      YearsAscend(y + 1, z);
    }
  }

  // ----- Months -----

  lemma MonthStarts(y: int, feb: int)
    requires feb == if IsLeap(y) then 29 else 28
    ensures MonthStart(y, 1) == 0 && MonthStart(y, 2) == 31 && MonthStart(y, 3) == 31 + feb
    ensures MonthStart(y, 4) == 62 + feb && MonthStart(y, 5) == 92 + feb && MonthStart(y, 6) == 123 + feb
    ensures MonthStart(y, 7) == 153 + feb && MonthStart(y, 8) == 184 + feb && MonthStart(y, 9) == 215 + feb
    ensures MonthStart(y, 10) == 245 + feb && MonthStart(y, 11) == 276 + feb && MonthStart(y, 12) == 306 + feb
    ensures MonthStart(y, 13) == 337 + feb
  {
    assert MonthStart(y, 2) == 31;
    assert MonthStart(y, 3) == 31 + feb;
    assert MonthStart(y, 4) == 62 + feb;
    assert MonthStart(y, 5) == 92 + feb;
    assert MonthStart(y, 6) == 123 + feb;
    assert MonthStart(y, 7) == 153 + feb;
    assert MonthStart(y, 8) == 184 + feb;
    assert MonthStart(y, 9) == 215 + feb;
    assert MonthStart(y, 10) == 245 + feb;
    assert MonthStart(y, 11) == 276 + feb;
  }

  lemma MonthTable(y: int)
    ensures MonthStart(y, 13) == if IsLeap(y) then 366 else 365
  {
    MonthStarts(y, if IsLeap(y) then 29 else 28);
  }

  lemma {:induction false} MonthsAscend(y: int, m: int, k: int)
    requires 1 <= m <= k <= 13
    ensures MonthStart(y, m) + 28 * (k - m) <= MonthStart(y, k)
    decreases k
  {
    if m < k {
      MonthsAscend(y, m, k - 1);
    }
  }

  lemma {:induction false} MonthOfIs(y: int, dayOfYear: int, m: int)
    requires 1 <= m <= 12 && 0 <= dayOfYear < MonthStart(y, m + 1)
    ensures var k := MonthOf(y, dayOfYear, m);
      1 <= k <= m && MonthStart(y, k) <= dayOfYear < MonthStart(y, k + 1)
  {
    if m > 1 && dayOfYear < MonthStart(y, m) {
      MonthOfIs(y, dayOfYear, m - 1);
    }
  }

  // ----- Round trips -----

  lemma InRange(y: int, m: int, day: int)
    requires 1 <= m <= 12
    ensures DayNumber(y, m, day) == DayOf(y, m, day)
  {
    assert (m - 1) / 12 == 0 && (m - 1) % 12 == m - 1;
  }

  /** Where a day lies in its year, and in its month. */
  lemma CivilParts(d: int, y: int, m: int, start: int)
    requires y == YearOf(d) && start == YearStart(y) && m == MonthOf(y, d - start, 12)
    ensures 0 <= d - start < MonthStart(y, 13)
    ensures MonthStart(y, m) <= d - start < MonthStart(y, m) + MonthLength(y, m)
  {
    MonthTable(y);
    MonthOfIs(y, d - start, 12);
  }

  /** The date of a day exists, and is that day. */
  lemma CivilDay(d: int)
    ensures ValidDate(Civil(d))
    ensures DayNumber(Civil(d).year, Civil(d).month, Civil(d).day) == d
  {
    var y := YearOf(d);
    var start := YearStart(y);
    var m := MonthOf(y, d - start, 12);
    CivilParts(d, y, m, start);
    InRange(y, m, d - start - MonthStart(y, m) + 1);
  }

  lemma MonthUnique(y: int, m: int, k: int, dayOfYear: int)
    requires 1 <= m <= 12 && 1 <= k <= 12
    requires MonthStart(y, m) <= dayOfYear < MonthStart(y, m + 1)
    requires MonthStart(y, k) <= dayOfYear < MonthStart(y, k + 1)
    ensures k == m
  {
    if k < m {
      MonthsAscend(y, k + 1, m);
    } else if m < k {
      MonthsAscend(y, m + 1, k);
    }
  }

  lemma WithinYear(y: int, m: int, dayOfYear: int)
    requires 1 <= m <= 12 && MonthStart(y, m) <= dayOfYear < MonthStart(y, m + 1)
    ensures 0 <= dayOfYear < MonthStart(y, 13)
    ensures MonthOf(y, dayOfYear, 12) == m
  {
    MonthsAscend(y, 1, m);
    MonthsAscend(y, m + 1, 13);
    MonthOfIs(y, dayOfYear, 12);
    MonthUnique(y, m, MonthOf(y, dayOfYear, 12), dayOfYear);
  }

  lemma YearHas(y: int, dayOfYear: int)
    requires 0 <= dayOfYear < MonthStart(y, 13)
    ensures YearOf(YearStart(y) + dayOfYear) == y
  {
    MonthTable(y);
    YearUnique(y, YearStart(y) + dayOfYear);
  }

  /** The day of an existing date has that date. */
  lemma DayCivil(date: Date)
    requires ValidDate(date)
    ensures Civil(DayNumber(date.year, date.month, date.day)) == date
  {
    var y, m := date.year, date.month;
    var dayOfYear := MonthStart(y, m) + date.day - 1;
    InRange(y, m, date.day);
    WithinYear(y, m, dayOfYear);
    YearHas(y, dayOfYear);
  }

  lemma NextMonth(y: int, m: int)
    requires 1 <= m <= 12
    ensures DayNumber(y, m + 1, 1) == DayOf(y, m, 1) + MonthLength(y, m)
  {
    if m == 12 {
      MonthTable(y);
      assert m / 12 == 1 && m % 12 == 0;
    } else {
      InRange(y, m + 1, 1);
    }
  }

  lemma MonthDay(y: int, m: int, day: int)
    requires 1 <= m <= 12 && 1 <= day <= MonthLength(y, m)
    ensures Civil(DayOf(y, m, day)) == Date(y, m, day)
  {
    InRange(y, m, day);
    DayCivil(Date(y, m, day));
  }

  /** The days of one month, from any of them to the first of the next, share year and month. */
  lemma SameMonth(d: int, d': int, date: Date)
    requires date == Civil(d) && d <= d'
    requires 1 <= date.month <= 12 && d' < DayNumber(date.year, date.month + 1, 1)
    ensures Civil(d').year == date.year && Civil(d').month == date.month
  {
    CivilDay(d);
    InRange(date.year, date.month, date.day);
    NextMonth(date.year, date.month);
    MonthDay(date.year, date.month, date.day + d' - d);
  }

  // ----- The calendar is the Gregorian one -----

  lemma Fourth(n: int)
    ensures n / 4 - (n - 1) / 4 == if n % 4 == 0 then 1 else 0
  {}

  lemma Hundredth(n: int)
    ensures n / 100 - (n - 1) / 100 == if n % 100 == 0 then 1 else 0
  {}

  lemma FourHundredth(n: int)
    ensures n / 400 - (n - 1) / 400 == if n % 400 == 0 then 1 else 0
    ensures n % 400 == 0 ==> n % 100 == 0
    ensures n % 100 == 0 ==> n % 4 == 0
  {}

  /** The number of leap years after year 0 and up to year n, negative before. */
  function LeapYears(n: int): int {
    n / 4 - n / 100 + n / 400
  }

  lemma LeapYearsStep(n: int)
    ensures LeapYears(n) == LeapYears(n - 1) + if IsLeap(n) then 1 else 0
  {
    Fourth(n);
    Hundredth(n);
    FourHundredth(n);
  }

  /** 365 days a year, and the leap days of the Gregorian rule. */
  lemma {:induction false} YearStartFormula(y: int)
    ensures YearStart(y) == 365 * (y - 1) + LeapYears(y - 1)
    decreases if y > 1 then y - 1 else 1 - y
  {
    if y > 1 {
      YearStartFormula(y - 1);
      LeapYearsStep(y - 1);
    } else if y < 1 {
      YearStartFormula(y + 1);
      LeapYearsStep(y);
    }
  }

  /** The weekday of 1 January: Monday in year 1, a day later after each year, two after a leap year. */
  lemma NewYearWeekday(y: int)
    ensures Weekday(DayNumber(y, 1, 1)) == (1 + (y - 1) + LeapYears(y - 1)) % 7
  {
    InRange(y, 1, 1);
    YearStartFormula(y);
    WholeWeeks(1 + (y - 1) + LeapYears(y - 1), 52 * (y - 1));
  }

  lemma WholeWeeks(d: int, weeks: int)
    ensures (d + 7 * weeks) % 7 == d % 7
  {}

  // ----- The whole calendar as one formula -----

  /** From 1 March on, months take 31, 30, 31, 30, 31 days in turn. */
  lemma MonthFromMarch(y: int, m: int, k: int)
    requires 1 <= m <= 12 && k == (m + 9) % 12
    ensures MonthStart(y, m) == (153 * k + 2) / 5 + if m <= 2 then -306 else if IsLeap(y) then 60 else 59
  {
    MonthStarts(y, if IsLeap(y) then 29 else 28);
  }

  /**
   The day a date stands for, in one formula without any table: the years before, counted from
   1 March and with their leap days, the months since March, and the day.
   */
  lemma DayFormula(y: int, m: int, day: int, years: int, months: int)
    requires 1 <= m <= 12 && years == (if m <= 2 then y - 1 else y) && months == (m + 9) % 12
    ensures DayNumber(y, m, day)
         == 365 * years + years / 4 - years / 100 + years / 400 + (153 * months + 2) / 5 + day - 307
  {
    InRange(y, m, day);
    YearStartFormula(y);
    LeapYearsStep(y);
    MonthFromMarch(y, m, months);
  }

  /** How long the months are, February by the rule of fourths, hundredths and four-hundredths. */
  lemma MonthLengths(y: int, m: int)
    requires 1 <= m <= 12
    ensures DayNumber(y, m + 1, 1) - DayNumber(y, m, 1) ==
      [31, if y % 400 == 0 || (y % 4 == 0 && y % 100 != 0) then 29 else 28, 31, 30, 31, 30, 31, 31, 30, 31, 30, 31][m - 1]
  {
    NextMonth(y, m);
    InRange(y, m, 1);
    FourHundredth(y);
  }
}
