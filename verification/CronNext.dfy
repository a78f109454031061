/**
 The search for the next activation of a cron expression. It skips whole months, days and
 hours, and is proved to find what looking at every minute would find.
 */
module CronNext {
  import opened Commands
  import opened Calendar
  import opened Masks
  import opened Search

  /** One bit per admissible value of a field. */
  datatype Expression = Expression(minute: bv64, hour: bv64, dayOfMonth: bv64, month: bv64, dayOfWeek: bv64)

  const NANOS_PER_MINUTE := 60_000_000_000

  // ----- Reading a minute -----

  function DayOfMinute(m: int): int {
    m / MINUTES_PER_DAY
  }

  function HourOf(m: int): (h: nat)
    ensures h < 24
  {
    m / 60 % 24
  }

  function MinuteOf(m: int): (k: nat)
    ensures k < 60
  {
    m % 60
  }

  predicate MonthMatches(e: Expression, date: Date) {
    0 <= date.month < 64 && Bit(e.month, date.month)
  }

  /** Either day field is enough, even when the other is a star. */
  predicate DayMatches(e: Expression, date: Date, weekday: int) {
    (0 <= date.day < 64 && Bit(e.dayOfMonth, date.day)) || (0 <= weekday < 64 && Bit(e.dayOfWeek, weekday))
  }

  predicate DateMatches(e: Expression, d: int) {
    MonthMatches(e, Civil(d)) && DayMatches(e, Civil(d), Weekday(d))
  }

  predicate Matches(e: Expression, m: int) {
    DateMatches(e, DayOfMinute(m)) && Bit(e.hour, HourOf(m)) && Bit(e.minute, MinuteOf(m))
  }

  /** The property the naive search tests, minute by minute. */
  function Matching(e: Expression): int -> bool {
    m => Matches(e, m)
  }

  function FirstMatch(e: Expression, m: int, limit: int): Option<int> {
    First(Matching(e), m, limit)
  }

  // ----- Moving on -----

  function Midnight(y: int, month: int, day: int): int {
    DayNumber(y, month, day) * MINUTES_PER_DAY
  }

  function AddYears(m: int, years: int): int {
    var date := Civil(DayOfMinute(m));
    Midnight(date.year + years, date.month, date.day) + m % MINUTES_PER_DAY
  }

  function AdvanceMonth(m: int): int {
    var date := Civil(DayOfMinute(m));
    Midnight(date.year, date.month + 1, 1)
  }

  function AdvanceDay(m: int): int {
    var date := Civil(DayOfMinute(m));
    var next := Civil(DayNumber(date.year, date.month, date.day + 1));
    Midnight(next.year, next.month, next.day)
  }

  function AdvanceHour(m: int): int {
    var next := (m + 60) - (m + 60) % 60;
    var date := Civil(DayOfMinute(next));
    Midnight(date.year, date.month, date.day) + HourOf(next) * 60
  }

  /** Until the next month begins, the month field keeps failing. */
  lemma MonthSkip(e: Expression, m: int, m': int)
    requires !MonthMatches(e, Civil(DayOfMinute(m))) && m' == AdvanceMonth(m)
    ensures m < m' && NoneIn(Matching(e), m, m')
  {
    var d := DayOfMinute(m);
    var date := Civil(d);
    CivilDay(d);
    InRange(date.year, date.month, date.day);
    NextMonth(date.year, date.month);
    forall k | m <= k < m'
      ensures !Matching(e)(k)
    {
      SameMonth(d, DayOfMinute(k), date);
    }
  }

  lemma AdvanceDayIs(m: int, d: int)
    requires d == DayOfMinute(m)
    ensures AdvanceDay(m) == (d + 1) * MINUTES_PER_DAY
  {
    var date := Civil(d);
    CivilDay(d);
    InRange(date.year, date.month, date.day);
    InRange(date.year, date.month, date.day + 1);
    CivilDay(d + 1);
  }

  /** Until midnight, the day fields keep failing. */
  lemma DaySkip(e: Expression, m: int, m': int)
    requires !DayMatches(e, Civil(DayOfMinute(m)), Weekday(DayOfMinute(m))) && m' == AdvanceDay(m)
    ensures m < m' && NoneIn(Matching(e), m, m')
  {
    AdvanceDayIs(m, DayOfMinute(m));
    forall k | m <= k < m'
      ensures !Matching(e)(k)
    {
      assert DayOfMinute(k) == DayOfMinute(m);
    }
  }

  lemma MidnightIs(d: int, date: Date)
    requires date == Civil(d)
    ensures Midnight(date.year, date.month, date.day) == d * MINUTES_PER_DAY
  {
    CivilDay(d);
  }

  lemma AdvanceHourIs(m: int)
    ensures AdvanceHour(m) == (m + 60) - (m + 60) % 60
  {
    var next := (m + 60) - (m + 60) % 60;
    MidnightIs(DayOfMinute(next), Civil(DayOfMinute(next)));
    HourMinutes(next);
  }

  lemma HourMinutes(m: int)
    requires m % 60 == 0
    ensures DayOfMinute(m) * MINUTES_PER_DAY + HourOf(m) * 60 == m
  {
    var q := m / 60;
    assert m == 1440 * (q / 24) + 60 * (q % 24);
  }

  lemma SameHour(m: int, k: int)
    requires m <= k < (m + 60) - (m + 60) % 60
    ensures HourOf(k) == HourOf(m)
  {
    assert k / 60 == m / 60;
  }

  /** Until the hour is over, the hour field keeps failing. */
  lemma HourSkip(e: Expression, m: int, m': int)
    requires !Bit(e.hour, HourOf(m)) && m' == AdvanceHour(m)
    ensures m < m' && NoneIn(Matching(e), m, m')
  {
    AdvanceHourIs(m);
    forall k | m <= k < m'
      ensures !Matching(e)(k)
    {
      SameHour(m, k);
    }
  }

  /** The minute the search starts at: the first one after t. */
  function StartMinute(t: Instant): int {
    t / NANOS_PER_MINUTE + 1
  }

  function Limit(t: Instant): int {
    AddYears(StartMinute(t), 4)
  }

  /** The search loop: skip to the next month, day, hour or minute, whichever field fails first. */
  method Find(e: Expression, start: int, limit: int) returns (found: Option<int>)
    ensures found == FirstMatch(e, start, limit)
  {
    var m := start;
    while m < limit
      invariant FirstMatch(e, m, limit) == FirstMatch(e, start, limit)
      decreases limit - m
    {
      var date := Civil(DayOfMinute(m));
      var m' := m + 1;
      if !MonthMatches(e, date) {
        m' := AdvanceMonth(m);
        MonthSkip(e, m, m');
      } else if !DayMatches(e, date, Weekday(DayOfMinute(m))) {
        m' := AdvanceDay(m);
        DaySkip(e, m, m');
      } else if !Bit(e.hour, HourOf(m)) {
        m' := AdvanceHour(m);
        HourSkip(e, m, m');
      } else if Bit(e.minute, MinuteOf(m)) {
        return Some(m);
      }
      Skip(Matching(e), m, m', limit);
      m := m';
    }
    found := None;
  }

  /**
   The next activation after t is the least matching minute after t and before the four-year
   limit, or the zero time if there is none.
   */
  method Next(e: Expression, t: Instant) returns (r: Instant)
    ensures r == NextAfter(e, t)
  {
    var m := StartMinute(t);
    var found := Find(e, m, AddYears(m, 4));
    match found {
      case Some(k) => r := k * NANOS_PER_MINUTE;
      case None => r := ZERO_TIME;
    }
  }

  function NextAfter(e: Expression, t: Instant): Instant {
    match FirstMatch(e, StartMinute(t), Limit(t))
    case Some(m) => m * NANOS_PER_MINUTE
    case None => ZERO_TIME
  }

  /** A result other than the zero time is a matching minute after t, and the least one. */
  lemma NextIsLeast(e: Expression, t: Instant)
    requires NextAfter(e, t) != ZERO_TIME
    ensures var r := NextAfter(e, t);
      && t < r && r % NANOS_PER_MINUTE == 0 && r / NANOS_PER_MINUTE < Limit(t)
      && Matches(e, r / NANOS_PER_MINUTE)
      && forall k :: t < k * NANOS_PER_MINUTE < r ==> !Matching(e)(k)
  {
    FirstIsLeast(Matching(e), StartMinute(t), Limit(t));
    var m := FirstMatch(e, StartMinute(t), Limit(t)).value;
    assert NextAfter(e, t) / NANOS_PER_MINUTE == m;
    forall k | t < k * NANOS_PER_MINUTE < m * NANOS_PER_MINUTE
      ensures !Matching(e)(k)
    {
      assert StartMinute(t) <= k < m;
    }
  }

  /** Minute 0, the zero time itself, is the first match after t; only an instant before it can have that. */
  ghost predicate FirstAtZero(e: Expression, t: Instant) {
    StartMinute(t) <= 0 < Limit(t) && Matching(e)(0) && NoneIn(Matching(e), StartMinute(t), 0)
  }

  /**
   The zero time is returned exactly when no minute before the limit matches, or when the first
   match is the zero time itself.
   */
  lemma NextZeroExactly(e: Expression, t: Instant)
    ensures NextAfter(e, t) == ZERO_TIME <==> NoneIn(Matching(e), StartMinute(t), Limit(t)) || FirstAtZero(e, t)
    ensures FirstAtZero(e, t) ==> t < ZERO_TIME
  {
    FirstIsLeast(Matching(e), StartMinute(t), Limit(t));
    var found := FirstMatch(e, StartMinute(t), Limit(t));
    if found.Some? && FirstAtZero(e, t) {
      assert !Matching(e)(found.value) || found.value >= 0;
      assert found.value <= 0;
    }
  }

  // ----- An admissible expression always has a next activation -----

  /** No field is empty: what every accepted expression guarantees. */
  ghost predicate Admissible(e: Expression) {
    && (exists i: nat :: i < 60 && Bit(e.minute, i))
    && (exists i: nat :: i < 24 && Bit(e.hour, i))
    && (exists i: nat :: 1 <= i <= 12 && Bit(e.month, i))
    && (exists i: nat :: i < 7 && Bit(e.dayOfWeek, i))
  }

  lemma WeekdayAhead(first: int, weekday: nat, ahead: int)
    requires weekday < 7 && ahead == (weekday - Weekday(first)) % 7
    ensures 0 <= ahead < 7 && Weekday(first + ahead) == weekday
  {}

  /** Every month contains every weekday, so a month that matches has a day that matches. */
  lemma MonthHasMatch(e: Expression, y: int, month: nat, weekday: nat) returns (d: int)
    requires 1 <= month <= 12 && Bit(e.month, month) && weekday < 7 && Bit(e.dayOfWeek, weekday)
    ensures DateMatches(e, d) && DayOf(y, month, 1) <= d < DayNumber(y, month + 1, 1)
  {
    var first := DayOf(y, month, 1);
    var ahead := (weekday - Weekday(first)) % 7;
    WeekdayAhead(first, weekday, ahead);
    d := first + ahead;
    NextMonth(y, month);
    assert d == DayOf(y, month, 1 + ahead);
    MonthDay(y, month, 1 + ahead);
  }

  lemma ClockParts(d: int, hour: nat, minute: nat, m: int)
    requires hour < 24 && minute < 60 && m == d * MINUTES_PER_DAY + hour * 60 + minute
    ensures DayOfMinute(m) == d && HourOf(m) == hour && MinuteOf(m) == minute
  {
    assert m / 60 == 24 * d + hour;
  }

  lemma DayHasMatch(e: Expression, d: int, hour: nat, minute: nat) returns (m: int)
    requires DateMatches(e, d) && hour < 24 && Bit(e.hour, hour) && minute < 60 && Bit(e.minute, minute)
    ensures Matches(e, m) && d * MINUTES_PER_DAY <= m < (d + 1) * MINUTES_PER_DAY
  {
    m := d * MINUTES_PER_DAY + hour * 60 + minute;
    ClockParts(d, hour, minute, m);
  }

  /** The first of a month comes before the same month of a later year, and before later months. */
  lemma MonthsOrdered(y: int, m: int, y': int, m': int)
    requires 1 <= m <= 12 && 1 <= m' <= 12 && (y < y' || (y == y' && m < m'))
    ensures DayNumber(y, m + 1, 1) <= DayOf(y', m', 1)
  {
    NextMonth(y, m);
    if y == y' {
      MonthsAscend(y, m + 1, m');
    } else {
      MonthTable(y);
      MonthsAscend(y, m + 1, 13);
      YearsAscend(y + 1, y');
      MonthsAscend(y', 1, m');
    }
  }

  lemma AddYearsIs(m: int, years: int, date: Date)
    requires date == Civil(DayOfMinute(m)) && 1 <= date.month <= 12
    ensures AddYears(m, years) == DayOf(date.year + years, date.month, date.day) * MINUTES_PER_DAY + m % MINUTES_PER_DAY
  {
    InRange(date.year + years, date.month, date.day);
  }

  lemma SameClock(d: int, m: int, k: int)
    requires k == d * MINUTES_PER_DAY + m % MINUTES_PER_DAY
    ensures DayOfMinute(k) == d && HourOf(k) == HourOf(m) && MinuteOf(k) == MinuteOf(m)
  {
    ClockParts(DayOfMinute(m), HourOf(m), MinuteOf(m), m);
    ClockParts(d, HourOf(m), MinuteOf(m), k);
  }

  /** The search ends at the same date and time four years on, or on 1 March for a 29 February without one. */
  lemma LimitFourYearsOn(t: Instant, m: int, k: int, date: Date)
    requires m == StartMinute(t) && k == Limit(t) && date == Civil(DayOfMinute(m))
    ensures HourOf(k) == HourOf(m) && MinuteOf(k) == MinuteOf(m)
    ensures Civil(DayOfMinute(k)) ==
      if date.month == 2 && date.day == 29 && !IsLeap(date.year + 4) then Date(date.year + 4, 3, 1)
      else Date(date.year + 4, date.month, date.day)
  {
    CivilDay(DayOfMinute(m));
    AddYearsIs(m, 4, date);
    var y := date.year + 4;
    SameClock(DayOf(y, date.month, date.day), m, k);
    if date.day <= MonthLength(y, date.month) {
      MonthDay(y, date.month, date.day);
    } else {
      assert DayOf(y, 2, 29) == DayOf(y, 3, 1);
      MonthDay(y, 3, 1);
    }
  }

  lemma LimitBeyondTwoYears(m: int)
    ensures m < AddYears(m, 2) <= AddYears(m, 4)
  {
    var date := Civil(DayOfMinute(m));
    CivilDay(DayOfMinute(m));
    InRange(date.year, date.month, date.day);
    AddYearsIs(m, 2, date);
    AddYearsIs(m, 4, date);
    DatesAscend(date.year, date.year + 2, date.month);
    DatesAscend(date.year + 2, date.year + 4, date.month);
  }

  lemma DatesAscend(y: int, y': int, m: int)
    requires 1 <= m <= 12 && y + 2 == y'
    ensures DayOf(y, m, 1) + 100 < DayOf(y', m, 1)
  {
    YearsAscend(y, y');
    MonthsAscend(y', 1, m);
    MonthLead(y, y', m);
  }

  /** A month starts at most a day later in one year than in another. */
  lemma MonthLead(y: int, y': int, m: int)
    requires 1 <= m <= 13
    ensures MonthStart(y, m) <= MonthStart(y', m) + 1
  {
    MonthAfter(y, m);
    MonthAfter(y', m);
  }

  lemma {:induction false} MonthAfter(y: int, m: int)
    requires 1 <= m <= 13
    ensures MonthStart(y, m) == MonthStart(2001, m) + if m > 2 && IsLeap(y) then 1 else 0
  {
    if m > 1 {
      MonthAfter(y, m - 1);
    }
  }

  lemma DayInMonth(d: int, date: Date)
    requires date == Civil(d)
    ensures 1 <= date.month <= 12 && 1 <= date.day
    ensures d == DayOf(date.year, date.month, date.day) < DayNumber(date.year, date.month + 1, 1)
  {
    CivilDay(d);
    InRange(date.year, date.month, date.day);
    NextMonth(date.year, date.month);
  }

  /** Later in this year or within next year: after day d, before its month two years on. */
  lemma MonthAhead(d: int, date: Date, month: int, y: int)
    requires date == Civil(d) && 1 <= month <= 12
    requires y == if month > date.month then date.year else date.year + 1
    ensures 1 <= date.month <= 12
    ensures d < DayOf(y, month, 1) && DayNumber(y, month + 1, 1) <= DayOf(date.year + 2, date.month, date.day)
  {
    DayInMonth(d, date);
    MonthsOrdered(date.year, date.month, y, month);
    MonthsOrdered(y, month, date.year + 2, date.month);
  }

  /** A matching minute no later than the end of the same month of next year. */
  lemma MatchWithinTwoYears(e: Expression, m: int) returns (k: int)
    requires Admissible(e)
    ensures m <= k < AddYears(m, 2) && Matches(e, k)
  {
    var minute: nat :| minute < 60 && Bit(e.minute, minute);
    var hour: nat :| hour < 24 && Bit(e.hour, hour);
    var month: nat :| 1 <= month <= 12 && Bit(e.month, month);
    var weekday: nat :| weekday < 7 && Bit(e.dayOfWeek, weekday);
    var today := DayOfMinute(m);
    var date := Civil(today);
    var y := if month > date.month then date.year else date.year + 1;
    MonthAhead(today, date, month, y);
    AddYearsIs(m, 2, date);
    var d := MonthHasMatch(e, y, month, weekday);
    k := DayHasMatch(e, d, hour, minute);
  }

  /** An expression without an empty field has a next activation, less than two years ahead. */
  lemma NextExists(e: Expression, t: Instant)
    requires Admissible(e)
    ensures FirstMatch(e, StartMinute(t), Limit(t)).Some?
    ensures FirstMatch(e, StartMinute(t), Limit(t)).value < AddYears(StartMinute(t), 2)
  {
    var k := MatchWithinTwoYears(e, StartMinute(t));
    LimitBeyondTwoYears(StartMinute(t));
    FirstIsLeast(Matching(e), StartMinute(t), Limit(t));
    assert Matching(e)(k);
  }
}
