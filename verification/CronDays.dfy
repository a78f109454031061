/**
 Which days a cron line stands for: by its documentation, and by the code, and when the two agree.
 */
module CronDays {
  import opened Commands
  import opened Calendar
  import opened CronNext
  import opened CronParse
  import opened Masks
  import opened Text

  const STAR := "*"

  predicate DayAdmitted(mask: bv64, date: Date) {
    0 <= date.day < 64 && Bit(mask, date.day)
  }

  predicate WeekdayAdmitted(mask: bv64, d: int) {
    Bit(mask, Weekday(d))
  }

  /**
   The documented day test, given which of the two fields is a star: a star leaves the other field to
   decide, and two restrictions are alternatives.
   */
  predicate DocumentedDay(domStar: bool, dowStar: bool, e: Expression, d: int) {
    if domStar && dowStar then true
    else if domStar then WeekdayAdmitted(e.dayOfWeek, d)
    else if dowStar then DayAdmitted(e.dayOfMonth, Civil(d))
    else DayAdmitted(e.dayOfMonth, Civil(d)) || WeekdayAdmitted(e.dayOfWeek, d)
  }

  /** The test the code makes. */
  predicate CodeDay(e: Expression, d: int) {
    DayMatches(e, Civil(d), Weekday(d))
  }

  lemma CodeDayIs(e: Expression, d: int)
    ensures CodeDay(e, d) <==> DayAdmitted(e.dayOfMonth, Civil(d)) || WeekdayAdmitted(e.dayOfWeek, d)
  {}

  ghost predicate AdmitsAll(mask: bv64, min: nat, max: nat)
    requires max < 64
  {
    forall j: nat :: min <= j <= max ==> Bit(mask, j)
  }

  /** What a star does to the mask of its field. */
  ghost predicate Starred(domStar: bool, dowStar: bool, e: Expression) {
    (domStar ==> AdmitsAll(e.dayOfMonth, 1, 31)) && (dowStar ==> AdmitsAll(e.dayOfWeek, 0, 6))
  }

  lemma StarredDay(domStar: bool, dowStar: bool, e: Expression, d: int)
    requires Starred(domStar, dowStar, e) && (domStar || dowStar)
    ensures CodeDay(e, d)
  {
    CivilDay(d);
    CodeDayIs(e, d);
  }

  /** Every weekday, and every day of a month, does come up. */
  lemma WeekdayComes(j: nat)
    requires j < 7
    ensures Weekday(j + 6) == j
  {}

  lemma DayComes(j: nat) returns (d: int)
    requires 1 <= j <= 31
    ensures Civil(d).day == j
  {
    d := DayOf(1, 1, j);
    MonthDay(1, 1, j);
  }

  /** When an expression can be taken as documented. */
  ghost predicate Plain(domStar: bool, dowStar: bool, e: Expression) {
    || (domStar <==> dowStar)
    || (domStar && AdmitsAll(e.dayOfWeek, 0, 6))
    || (dowStar && AdmitsAll(e.dayOfMonth, 1, 31))
  }

  lemma PlainAgrees(domStar: bool, dowStar: bool, e: Expression, d: int)
    requires Starred(domStar, dowStar, e) && Plain(domStar, dowStar, e)
    ensures CodeDay(e, d) <==> DocumentedDay(domStar, dowStar, e, d)
  {
    CodeDayIs(e, d);
    CivilDay(d);
  }

  lemma OtherDisagrees(domStar: bool, dowStar: bool, e: Expression) returns (d: int)
    requires Starred(domStar, dowStar, e) && !Plain(domStar, dowStar, e)
    ensures CodeDay(e, d) && !DocumentedDay(domStar, dowStar, e, d)
  {
    if domStar {
      var j: nat :| 0 <= j <= 6 && !Bit(e.dayOfWeek, j);
      WeekdayComes(j);
      d := j + 6;
    } else {
      var j: nat :| 1 <= j <= 31 && !Bit(e.dayOfMonth, j);
      d := DayComes(j);
    }
    StarredDay(domStar, dowStar, e, d);
  }

  // ----- For accepted lines -----

  /** A field that is a lone star admits every value of its range. */
  lemma StarBits(text: string, min: nat, max: int, mask: bv64)
    requires min <= max < 64 && text == STAR && FieldMask(text, min, max) == Ok(mask)
    ensures AdmitsAll(mask, min, max)
  {
    StarField(min, max);
    forall j: nat | min <= j <= max
      ensures Bit(mask, j)
    {
      FillBits(min, max, 1, j);
    }
  }

  lemma ReadStars(fields: seq<string>, e: Expression)
    requires |fields| == 5 && ReadFields(fields) == Ok(e)
    ensures Starred(fields[2] == STAR, fields[4] == STAR, e)
  {
    if fields[2] == STAR {
      StarBits(fields[2], 1, 31, e.dayOfMonth);
    }
    if fields[4] == STAR {
      StarBits(fields[4], 0, 6, e.dayOfWeek);
    }
  }

  /** For an accepted line, a lone star in either day field makes the other one void: every day matches. */
  lemma StarDayAdmitsAll(line: string, fields: seq<string>, e: Expression, d: int)
    requires fields == Fields(line) && Reading(line) == Ok(e) && (fields[2] == STAR || fields[4] == STAR)
    ensures CodeDay(e, d)
  {
    ReadStars(fields, e);
    StarredDay(fields[2] == STAR, fields[4] == STAR, e, d);
  }

  /**
   For an accepted line the code meets its documentation on all days exactly when both day fields
   are stars or neither is, or the one that is not admits every day anyway.
   */
  lemma DaysAsDocumented(line: string, fields: seq<string>, e: Expression, domStar: bool, dowStar: bool)
    requires fields == Fields(line) && Reading(line) == Ok(e)
    requires domStar == (fields[2] == STAR) && dowStar == (fields[4] == STAR)
    ensures (forall d: int :: CodeDay(e, d) <==> DocumentedDay(domStar, dowStar, e, d))
            <==> Plain(domStar, dowStar, e)
  {
    ReadStars(fields, e);
    if Plain(domStar, dowStar, e) {
      forall d: int
        ensures CodeDay(e, d) <==> DocumentedDay(domStar, dowStar, e, d)
      {
        PlainAgrees(domStar, dowStar, e, d);
      }
    } else {
      var d := OtherDisagrees(domStar, dowStar, e);
    }
  }

  // ----- The documented examples -----

  /** A line whose fields are numbers or stars. */
  datatype Simple = Simple(minute: Option<nat>, hour: Option<nat>, dayOfMonth: Option<nat>, month: Option<nat>,
                           dayOfWeek: Option<nat>)

  function FieldText(v: Option<nat>): string {
    if v.None? then STAR else Decimal(v.value)
  }

  predicate InLimits(v: Option<nat>, min: nat, max: nat) {
    min <= max < 64 && (v.Some? ==> min <= v.value <= max)
  }

  function FieldFill(v: Option<nat>, min: nat, max: nat): bv64
    requires InLimits(v, min, max)
  {
    if v.None? then Fill(min, max, 1, 0, Set) else Fill(v.value, v.value, 1, 0, Set)
  }

  lemma DigitsOnly(text: string)
    requires text != [] && forall c :: c in text ==> IsDigit(c)
    ensures '/' !in text && '-' !in text && ',' !in text && text != STAR && Word(text)
  {
    assert text[0] in text && !IsDigit('*');
  }

  lemma NumberPart(n: nat, min: nat, max: nat)
    requires InLimits(Some(n), min, max)
    ensures PartMask(Decimal(n), min, max) == Ok(Fill(n, n, 1, 0, Set))
  {
    DigitsOnly(Decimal(n));
    SyntaxOfRender(Part(Single(Decimal(n)), None));
    AtoiDecimal(n);
  }

  lemma LonePart(text: string, min: nat, max: nat, mask: bv64)
    requires max < 64 && ',' !in text && PartMask(text, min, max) == Ok(mask)
    ensures FieldMask(text, min, max) == Ok(mask)
  {
    IndexOfIsFirst(text, ',');
    assert Split(text, ',') == [text];
    assert Gather([text], PartReader(min, max), Or, 0) == Gather([], PartReader(min, max), Or, 0 | mask);
    ZeroHas(mask);
  }

  lemma SimpleWord(v: Option<nat>)
    ensures Word(FieldText(v))
  {
    if v.Some? {
      DigitsOnly(Decimal(v.value));
    }
  }

  /** A number is read as itself, a star as the whole range. */
  lemma SimpleField(v: Option<nat>, min: nat, max: nat)
    requires InLimits(v, min, max)
    ensures FieldMask(FieldText(v), min, max) == Ok(FieldFill(v, min, max))
  {
    if v.None? {
      StarField(min, max);
    } else {
      DigitsOnly(Decimal(v.value));
      NumberPart(v.value, min, max);
      LonePart(Decimal(v.value), min, max, FieldFill(v, min, max));
    }
  }

  predicate Legal(s: Simple) {
    && InLimits(s.minute, 0, 59) && InLimits(s.hour, 0, 23) && InLimits(s.dayOfMonth, 1, 31)
    && InLimits(s.month, 1, 12) && InLimits(s.dayOfWeek, 0, 6)
  }

  function TextOf(s: Simple): seq<string> {
    [FieldText(s.minute), FieldText(s.hour), FieldText(s.dayOfMonth), FieldText(s.month), FieldText(s.dayOfWeek)]
  }

  function MeaningOf(s: Simple): Expression
    requires Legal(s)
  {
    Expression(FieldFill(s.minute, 0, 59), FieldFill(s.hour, 0, 23), FieldFill(s.dayOfMonth, 1, 31),
               FieldFill(s.month, 1, 12), FieldFill(s.dayOfWeek, 0, 6))
  }

  lemma ReadFive(fields: seq<string>, minute: string, hour: string, dayOfMonth: string, month: string,
                 dayOfWeek: string, e: Expression)
    requires fields == [minute, hour, dayOfMonth, month, dayOfWeek]
    requires FieldMask(minute, 0, 59) == Ok(e.minute) && FieldMask(hour, 0, 23) == Ok(e.hour)
    requires FieldMask(dayOfMonth, 1, 31) == Ok(e.dayOfMonth) && FieldMask(month, 1, 12) == Ok(e.month)
    requires FieldMask(dayOfWeek, 0, 6) == Ok(e.dayOfWeek)
    ensures ReadFields(fields) == Ok(e)
  {}

  lemma SimpleWords(s: Simple)
    ensures forall w :: w in TextOf(s) ==> Word(w)
  {
    SimpleWord(s.minute);
    SimpleWord(s.hour);
    SimpleWord(s.dayOfMonth);
    SimpleWord(s.month);
    SimpleWord(s.dayOfWeek);
  }

  lemma SimpleFields(s: Simple)
    requires Legal(s)
    ensures ReadFields(TextOf(s)) == Ok(MeaningOf(s))
  {
    SimpleField(s.minute, 0, 59);
    SimpleField(s.hour, 0, 23);
    SimpleField(s.dayOfMonth, 1, 31);
    SimpleField(s.month, 1, 12);
    SimpleField(s.dayOfWeek, 0, 6);
    ReadFive(TextOf(s), FieldText(s.minute), FieldText(s.hour), FieldText(s.dayOfMonth), FieldText(s.month),
             FieldText(s.dayOfWeek), MeaningOf(s));
  }

  lemma SimpleLine(s: Simple, line: string)
    requires Legal(s) && line == Join(TextOf(s), ' ')
    ensures Fields(line) == TextOf(s) && Reading(line) == Ok(MeaningOf(s))
  {
    SimpleFields(s);
    SimpleWords(s);
    FieldsJoin(TextOf(s));
  }

  lemma FillAdmits(v: Option<nat>, min: nat, max: nat, j: nat)
    requires InLimits(v, min, max) && min <= j <= max && (v.None? || v.value == j)
    ensures Bit(FieldFill(v, min, max), j)
  {
    if v.None? {
      FillBits(min, max, 1, j);
    } else {
      FillFirst(j, j, 1);
    }
  }

  lemma FillStars(s: Simple)
    requires Legal(s)
    ensures Starred(s.dayOfMonth.None?, s.dayOfWeek.None?, MeaningOf(s))
  {
    forall j: nat | 1 <= j <= 31 && s.dayOfMonth.None?
      ensures Bit(MeaningOf(s).dayOfMonth, j)
    {
      FillAdmits(s.dayOfMonth, 1, 31, j);
    }
    forall j: nat | j <= 6 && s.dayOfWeek.None?
      ensures Bit(MeaningOf(s).dayOfWeek, j)
    {
      FillAdmits(s.dayOfWeek, 0, 6, j);
    }
  }

  lemma DailyDate(s: Simple, d: int)
    requires Legal(s) && s.month.None? && (s.dayOfMonth.None? || s.dayOfWeek.None?)
    ensures DateMatches(MeaningOf(s), d)
  {
    FillStars(s);
    StarredDay(s.dayOfMonth.None?, s.dayOfWeek.None?, MeaningOf(s), d);
    CivilDay(d);
    FillAdmits(s.month, 1, 12, Civil(d).month);
  }

  /** A line that gives a time of day, no month, and at most one of the day fields, runs every day. */
  lemma RunsDaily(s: Simple, e: Expression, hour: nat, minute: nat, d: int, m: int)
    requires Legal(s) && e == MeaningOf(s) && s.month.None? && (s.dayOfMonth.None? || s.dayOfWeek.None?)
    requires s.hour == Some(hour) && s.minute == Some(minute) && m == d * MINUTES_PER_DAY + hour * 60 + minute
    ensures Matches(e, m)
  {
    DailyDate(s, d);
    ClockParts(d, hour, minute, m);
    FillAdmits(s.minute, 0, 59, minute);
    FillAdmits(s.hour, 0, 23, hour);
  }

  lemma JoinMore(w: seq<string>, rest: string)
    requires |w| > 1 && rest == Join(w[1..], ' ')
    ensures Join(w, ' ') == w[0] + [' '] + rest
  {}

  lemma JoinFive(w: seq<string>)
    requires |w| == 5
    ensures Join(w, ' ') == w[0] + [' '] + (w[1] + [' '] + (w[2] + [' '] + (w[3] + [' '] + w[4])))
  {
    JoinMore(w[3..], w[4]);
    assert w[2..][1..] == w[3..] && w[1..][1..] == w[2..];
    JoinMore(w[2..], Join(w[3..], ' '));
    JoinMore(w[1..], Join(w[2..], ' '));
    JoinMore(w, Join(w[1..], ' '));
  }

  const EVERY_MONDAY := Simple(Some(0), Some(9), None, None, Some(1))
  const FEBRUARY_31 := Simple(Some(0), Some(0), Some(31), Some(2), None)

  lemma MondayText()
    ensures Join(TextOf(EVERY_MONDAY), ' ') == "0 9 * * 1"
  {
    assert Decimal(0) == "0" && Decimal(9) == "9" && Decimal(1) == "1";
    JoinFive(TextOf(EVERY_MONDAY));
  }

  lemma FebruaryText()
    ensures Join(TextOf(FEBRUARY_31), ' ') == "0 0 31 2 *"
  {
    assert Decimal(0) == "0" && Decimal(2) == "2" && Decimal(3) == "3";
    DecimalAppend(3, 1, "3");
    JoinFive(TextOf(FEBRUARY_31));
  }

  /** "0 9 * * 1", documented as 9:00 every Monday, runs at 9:00 every day. */
  lemma QuotedMonday(line: string, d: int, m: int)
    requires line == "0 9 * * 1" && m == d * MINUTES_PER_DAY + 9 * 60
    ensures Reading(line).Ok? && Matches(Reading(line).value, m)
  {
    MondayText();
    SimpleLine(EVERY_MONDAY, line);
    RunsDaily(EVERY_MONDAY, Reading(line).value, 9, 0, d, m);
  }

  /** "0 0 31 2 *", documented as impossible, has a next activation less than two years after any instant. */
  lemma QuotedImpossible(line: string, t: Instant)
    requires line == "0 0 31 2 *"
    ensures Reading(line).Ok?
    ensures t < NextAfter(Reading(line).value, t) < AddYears(StartMinute(t), 2) * NANOS_PER_MINUTE
  {
    FebruaryText();
    SimpleLine(FEBRUARY_31, line);
    AcceptedRuns(line, t);
  }

  // ----- A step that wraps around -----

  lemma DecimalAppend(n: nat, digit: nat, text: string)
    requires n > 0 && digit < 10 && text == Decimal(n)
    ensures Decimal(10 * n + digit) == text + ['0' + digit as char]
  {}

  lemma GreatestInt(n: nat)
    requires n == MAX_INT
    ensures Decimal(n) == "9223372036854775807"
  {
    assert Decimal(9) == "9";
    DecimalAppend(9, 2, "9");
    DecimalAppend(92, 2, "92");
    DecimalAppend(922, 3, "922");
    DecimalAppend(9223, 3, "9223");
    DecimalAppend(92233, 7, "92233");
    DecimalAppend(922337, 2, "922337");
    DecimalAppend(9223372, 0, "9223372");
    DecimalAppend(92233720, 3, "92233720");
    DecimalAppend(922337203, 6, "922337203");
    DecimalAppend(9223372036, 8, "9223372036");
    DecimalAppend(92233720368, 5, "92233720368");
    DecimalAppend(922337203685, 4, "922337203685");
    DecimalAppend(9223372036854, 7, "9223372036854");
    DecimalAppend(92233720368547, 7, "92233720368547");
    DecimalAppend(922337203685477, 5, "922337203685477");
    DecimalAppend(9223372036854775, 8, "9223372036854775");
    DecimalAppend(92233720368547758, 0, "92233720368547758");
    DecimalAppend(922337203685477580, 7, "922337203685477580");
  }

  /** A number with a step is read as the fill that starts and ends at it. */
  lemma NumberStepPart(n: nat, step: nat, text: string, min: nat, max: nat)
    requires InLimits(Some(n), min, max) && 0 < step <= MAX_INT && text == Decimal(n) + ['/'] + Decimal(step)
    ensures PartMask(text, min, max) == Ok(Fill(n, n, step, 0, Set))
  {
    DigitsOnly(Decimal(n));
    SyntaxOfRender(Part(Single(Decimal(n)), Some(Decimal(step))));
    AtoiDecimal(n);
    AtoiDecimal(step);
  }

  const HUGE_STEP := "2/9223372036854775807"

  lemma HugeStepText(number: string, step: string)
    requires number == "2" && step == "9223372036854775807"
    ensures number + ['/'] + step == HUGE_STEP
  {}

  lemma HugeStepWord()
    ensures ',' !in HUGE_STEP && Word(HUGE_STEP)
  {}

  lemma StraysToZero(step: nat)
    requires step == MAX_INT
    ensures Bit(Fill(2, 2, step, 0, Set), 0)
  {
    BitTells(0);
    FillStray(2, 2, step, 0, Set, Tester(0), 0);
  }

  /** The field "2/9223372036854775807" is accepted and also sets 0, even where its range starts at 1. */
  lemma QuotedField(text: string, min: nat, max: nat)
    requires text == "2/9223372036854775807" && min <= 2 <= max < 64
    ensures FieldMask(text, min, max).Ok? && Bit(FieldMask(text, min, max).value, 0)
  {
    var step: nat := MAX_INT;
    GreatestInt(step);
    HugeStepText(Decimal(2), Decimal(step));
    HugeStepWord();
    NumberStepPart(2, step, text, min, max);
    LonePart(text, min, max, Fill(2, 2, step, 0, Set));
    StraysToZero(step);
  }

  const MIDNIGHT := Simple(Some(0), Some(0), None, None, None)

  /** The fields of a line of numbers and stars except for its hours. */
  function TextWith(s: Simple, hours: string): seq<string> {
    [FieldText(s.minute), hours, FieldText(s.dayOfMonth), FieldText(s.month), FieldText(s.dayOfWeek)]
  }

  lemma HugeStepLine()
    ensures Join(TextWith(MIDNIGHT, HUGE_STEP), ' ') == "0 2/9223372036854775807 * * *"
  {
    assert Decimal(0) == "0";
    JoinFive(TextWith(MIDNIGHT, HUGE_STEP));
  }

  lemma OtherHours(s: Simple, text: string, e: Expression)
    requires Legal(s) && FieldMask(text, 0, 23) == Ok(e.hour) && e == MeaningOf(s).(hour := e.hour)
    ensures ReadFields(TextWith(s, text)) == Ok(e)
  {
    SimpleField(s.minute, 0, 59);
    SimpleField(s.dayOfMonth, 1, 31);
    SimpleField(s.month, 1, 12);
    SimpleField(s.dayOfWeek, 0, 6);
    ReadFive(TextWith(s, text), FieldText(s.minute), text, FieldText(s.dayOfMonth), FieldText(s.month),
             FieldText(s.dayOfWeek), e);
  }

  lemma WordsWith(s: Simple, text: string)
    requires Word(text)
    ensures forall w :: w in TextWith(s, text) ==> Word(w)
  {
    SimpleWord(s.minute);
    SimpleWord(s.dayOfMonth);
    SimpleWord(s.month);
    SimpleWord(s.dayOfWeek);
  }

  lemma OtherHoursLine(s: Simple, text: string, e: Expression, line: string)
    requires Legal(s) && FieldMask(text, 0, 23) == Ok(e.hour) && e == MeaningOf(s).(hour := e.hour)
    requires Word(text) && line == Join(TextWith(s, text), ' ')
    ensures Reading(line) == Ok(e)
  {
    OtherHours(s, text, e);
    WordsWith(s, text);
    FieldsJoin(TextWith(s, text));
  }

  lemma RunsDailyAt(s: Simple, hours: bv64, e: Expression, hour: nat, minute: nat, d: int, m: int)
    requires Legal(s) && e == MeaningOf(s).(hour := hours) && s.month.None? && s.dayOfMonth.None?
    requires s.minute == Some(minute) && hour < 24 && Bit(hours, hour)
    requires m == d * MINUTES_PER_DAY + hour * 60 + minute
    ensures Matches(e, m)
  {
    DailyDate(s, d);
    ClockParts(d, hour, minute, m);
    FillAdmits(s.minute, 0, 59, minute);
  }

  /** "0 2/9223372036854775807 * * *", which asks for hours from 2 on, runs at midnight of every day. */
  lemma QuotedStep(line: string, d: int, m: int)
    requires line == "0 2/9223372036854775807 * * *" && m == d * MINUTES_PER_DAY
    ensures Reading(line).Ok? && Matches(Reading(line).value, m)
  {
    QuotedField(HUGE_STEP, 0, 23);
    var hours := FieldMask(HUGE_STEP, 0, 23).value;
    HugeStepLine();
    HugeStepWord();
    OtherHoursLine(MIDNIGHT, HUGE_STEP, MeaningOf(MIDNIGHT).(hour := hours), line);
    RunsDailyAt(MIDNIGHT, hours, Reading(line).value, 0, 0, d, m);
  }
}
