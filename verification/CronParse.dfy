/** Reading the five fields of a cron line into one bit mask per field. */
module CronParse {
  import opened Commands
  import opened CronNext
  import opened Masks
  import opened Text

  datatype Error =
    | FieldCount(count: nat)
    | InField(field: string, cause: Error)
    | InvalidStep(text: string)
    | InvalidRangeStart(text: string)
    | InvalidRangeEnd(text: string)
    | InvalidValue(text: string)
    | OutOfRange(low: int, high: int, min: int, max: int)

  datatype Result<+T> = Ok(value: T) | Err(error: Error)

  // ----- The syntax of a part -----

  datatype Range = Star | Single(text: string) | Between(low: string, high: string)

  datatype Part = Part(range: Range, step: Option<string>)

  function RenderRange(range: Range): string {
    match range
    case Star => "*"
    case Single(text) => text
    case Between(low, high) => low + ['-'] + high
  }

  function Render(part: Part): string {
    match part.step
    case None => RenderRange(part.range)
    case Some(step) => RenderRange(part.range) + ['/'] + step
  }

  /** Syntax trees that are read back as they were written. */
  predicate Proper(part: Part) {
    && '/' !in RenderRange(part.range)
    && match part.range
       case Star => true
       case Single(text) => text != "*" && '-' !in text
       case Between(low, _) => '-' !in low
  }

  function RangeSyntax(text: string): Range {
    var i := IndexOf(text, '-');
    if text == "*" then Star
    else if i >= 0 then Between(text[..i], text[i + 1..])
    else Single(text)
  }

  function Syntax(text: string): Part {
    var i := IndexOf(text, '/');
    if i >= 0 then Part(RangeSyntax(text[..i]), Some(text[i + 1..])) else Part(RangeSyntax(text), None)
  }

  lemma RangeOfRender(range: Range)
    requires Proper(Part(range, None))
    ensures RangeSyntax(RenderRange(range)) == range
  {
    if range.Single? {
      IndexOfIsFirst(range.text, '-');
    } else if range.Between? {
      IndexOfFirst(range.low, '-', range.high);
      var text := RenderRange(range);
      assert text[..|range.low|] == range.low && text[|range.low| + 1..] == range.high;
    }
  }

  /** Writing a part down and reading it gives the part back. */
  lemma SyntaxOfRender(part: Part)
    requires Proper(part)
    ensures Syntax(Render(part)) == part
  {
    var range := RenderRange(part.range);
    RangeOfRender(part.range);
    IndexOfIsFirst(range, '/');
    if part.step.Some? {
      IndexOfFirst(range, '/', part.step.value);
      var text := Render(part);
      assert text[..|range|] == range && text[|range| + 1..] == part.step.value;
    }
  }

  lemma RenderOfBetween(text: string, i: nat)
    requires text != "*" && '/' !in text && i == IndexOf(text, '-')
    ensures RenderRange(RangeSyntax(text)) == text && Proper(Part(RangeSyntax(text), None))
  {
    Cut(text, '-', i);
    assert RangeSyntax(text) == Between(text[..i], text[i + 1..]);
  }

  lemma RenderOfRange(text: string)
    requires '/' !in text
    ensures RenderRange(RangeSyntax(text)) == text && Proper(Part(RangeSyntax(text), None))
  {
    if text != "*" {
      if IndexOf(text, '-') >= 0 {
        RenderOfBetween(text, IndexOf(text, '-'));
      } else {
        IndexOfIsFirst(text, '-');
      }
    }
  }

  /** Every text is the writing of one proper part: reading loses nothing. */
  lemma RenderOfSyntax(text: string)
    ensures Proper(Syntax(text)) && Render(Syntax(text)) == text
  {
    var i := IndexOf(text, '/');
    if i >= 0 {
      Cut(text, '/', i);
      RenderOfRange(text[..i]);
    } else {
      IndexOfIsFirst(text, '/');
      RenderOfRange(text);
    }
  }

  // ----- What a part means -----

  function StepOf(step: Option<string>): Result<int> {
    match step
    case None => Ok(1)
    case Some(text) =>
      var n := Atoi(text);
      if n.None? || n.value <= 0 then Err(InvalidStep(text)) else Ok(n.value)
  }

  function BoundsOf(range: Range, min: int, max: int): Result<(int, int)> {
    match range
    case Star => Ok((min, max))
    case Single(text) =>
      var v := Atoi(text);
      if v.None? then Err(InvalidValue(text)) else Ok((v.value, v.value))
    case Between(low, high) =>
      var lo, hi := Atoi(low), Atoi(high);
      if lo.None? then Err(InvalidRangeStart(low))
      else if hi.None? then Err(InvalidRangeEnd(high))
      else Ok((lo.value, hi.value))
  }

  /** The span of a step and two bounds; a bad step is reported before bad bounds. */
  function SpanFrom(step: Result<int>, bounds: Result<(int, int)>, min: int, max: int): Result<Span> {
    if step.Err? then Err(step.error)
    else if bounds.Err? then Err(bounds.error)
    else
      var (lo, hi) := bounds.value;
      if lo < min || hi > max || lo > hi then Err(OutOfRange(lo, hi, min, max)) else Ok(Span(lo, hi, step.value))
  }

  /** The values a part stands for in a field with the given limits, or the first thing wrong with it. */
  function SpanOf(part: Part, min: int, max: int): (r: Result<Span>)
    ensures r.Ok? ==> 0 < r.value.step <= MAX_INT && min <= r.value.low <= r.value.high <= max
  {
    SpanFrom(StepOf(part.step), BoundsOf(part.range, min, max), min, max)
  }

  // ----- Parts and fields -----

  function PartMask(text: string, min: nat, max: int): Result<bv64>
    requires max < 64
  {
    var span := SpanOf(Syntax(text), min, max);
    if span.Err? then Err(span.error) else Ok(Fill(span.value.low, span.value.high, span.value.step, 0, Set))
  }

  /** The step of a part, and the text in front of it. */
  method ParseStep(text: string) returns (step: Result<int>, part: string)
    ensures step == StepOf(Syntax(text).step) && RangeSyntax(part) == Syntax(text).range
  {
    step, part := Ok(1), text;
    var slash := IndexOf(text, '/');
    if slash >= 0 {
      part := text[..slash];
      var s := Atoi(text[slash + 1..]);
      if s.None? || s.value <= 0 {
        return Err(InvalidStep(text[slash + 1..])), part;
      }
      step := Ok(s.value);
    }
  }

  method ParseBounds(part: string, min: int, max: int) returns (r: Result<(int, int)>)
    ensures r == BoundsOf(RangeSyntax(part), min, max)
  {
    var lo, hi := min, max;
    ghost var range := RangeSyntax(part);
    if part != "*" {
      var hyphen := IndexOf(part, '-');
      if hyphen >= 0 {
        assert range == Between(part[..hyphen], part[hyphen + 1..]);
        var low, high := Atoi(part[..hyphen]), Atoi(part[hyphen + 1..]);
        if low.None? {
          return Err(InvalidRangeStart(part[..hyphen]));
        }
        if high.None? {
          return Err(InvalidRangeEnd(part[hyphen + 1..]));
        }
        lo, hi := low.value, high.value;
      } else {
        assert range == Single(part);
        var v := Atoi(part);
        if v.None? {
          return Err(InvalidValue(part));
        }
        lo, hi := v.value, v.value;
      }
    }
    r := Ok((lo, hi));
  }

  method ParseSpan(text: string, min: int, max: int) returns (r: Result<Span>)
    ensures r == SpanOf(Syntax(text), min, max)
  {
    var step, part := ParseStep(text);
    if step.Err? {
      return Err(step.error);
    }
    var bounds := ParseBounds(part, min, max);
    assert SpanOf(Syntax(text), min, max) == SpanFrom(step, bounds, min, max);
    if bounds.Err? {
      return Err(bounds.error);
    }
    var (lo, hi) := bounds.value;
    if lo < min || hi > max || lo > hi {
      return Err(OutOfRange(lo, hi, min, max));
    }
    r := Ok(Span(lo, hi, step.value));
  }

  method ParsePart(text: string, min: nat, max: int) returns (r: Result<bv64>)
    requires max < 64
    ensures r == PartMask(text, min, max)
  {
    var span := ParseSpan(text, min, max);
    if span.Err? {
      return Err(span.error);
    }
    var mask := FillRangeStep(span.value.low, span.value.high, span.value.step);
    r := Ok(mask);
  }

  function PartReader(min: nat, max: int): string -> Result<bv64>
    requires max < 64
  {
    text => PartMask(text, min, max)
  }

  /** The union of what the parts are read as on top of mask, or the first part's error. */
  function Gather<M>(parts: seq<string>, read: string -> Result<M>, union: (M, M) -> M, mask: M): Result<M> {
    if parts == [] then Ok(mask)
    else
      var m := read(parts[0]);
      if m.Err? then m else Gather(parts[1..], read, union, union(mask, m.value))
  }

  function Or(a: bv64, b: bv64): bv64 {
    a | b
  }

  function FieldMask(field: string, min: nat, max: int): Result<bv64>
    requires max < 64
  {
    Gather(Split(field, ','), PartReader(min, max), Or, 0)
  }

  predicate PartAllows(text: string, min: nat, max: int, j: int) {
    var span := SpanOf(Syntax(text), min, max);
    span.Ok? && On(span.value, j)
  }

  /** No step of the field is so large that it would wrap around onto another value. */
  ghost predicate StepsFit(field: string, min: nat, max: int) {
    forall text :: text in Split(field, ',') ==> PartFits(text, min, max)
  }

  ghost predicate PartFits(text: string, min: nat, max: int) {
    var span := SpanOf(Syntax(text), min, max);
    span.Ok? ==> StepFits(span.value.low, span.value.step)
  }

  /** A part's mask has exactly the part's values as its bits. */
  lemma PartBits(text: string, min: nat, max: int, j: nat)
    requires max < 64 && j < 64 && PartMask(text, min, max).Ok? && PartFits(text, min, max)
    ensures Bit(PartMask(text, min, max).value, j) <==> PartAllows(text, min, max, j)
  {
    var span := SpanOf(Syntax(text), min, max).value;
    FillBits(span.low, span.high, span.step, j);
  }

  ghost predicate Splits<M>(test: M -> bool, union: (M, M) -> M, a: M, b: M) {
    test(union(a, b)) <==> test(a) || test(b)
  }

  predicate SomePasses<M>(parts: seq<string>, read: string -> Result<M>, test: M -> bool) {
    exists text :: text in parts && read(text).Ok? && test(read(text).value)
  }

  lemma {:induction false} GatherTest<M(!new)>(parts: seq<string>, read: string -> Result<M>, union: (M, M) -> M,
                                               mask: M, test: M -> bool)
    requires Gather(parts, read, union, mask).Ok? && forall a, b :: Splits(test, union, a, b)
    ensures test(Gather(parts, read, union, mask).value) <==> test(mask) || SomePasses(parts, read, test)
    ensures forall text :: text in parts ==> read(text).Ok?
    decreases |parts|
  {
    if parts != [] {
      var m := read(parts[0]).value;
      assert Splits(test, union, mask, m);
      GatherTest(parts[1..], read, union, union(mask, m), test);
      assert forall text :: text in parts <==> text == parts[0] || text in parts[1..];
    }
  }

  /** A field admits j when one of its parts does. */
  predicate Allows(field: string, min: nat, max: int, j: int) {
    exists text :: text in Split(field, ',') && PartAllows(text, min, max, j)
  }

  predicate PartSets(text: string, min: nat, max: int, j: nat)
    requires max < 64 && j < 64
  {
    var mask := PartMask(text, min, max);
    mask.Ok? && Bit(mask.value, j)
  }

  /** A field's mask is the union of its parts' masks, all of which are accepted. */
  lemma FieldUnion(field: string, min: nat, max: int, j: nat)
    requires max < 64 && j < 64 && FieldMask(field, min, max).Ok?
    ensures Bit(FieldMask(field, min, max).value, j)
            <==> exists text :: text in Split(field, ',') && PartSets(text, min, max, j)
    ensures PartsAccepted(field, min, max)
  {
    var parts, read := Split(field, ','), PartReader(min, max);
    var test := Tester(j);
    forall a, b
      ensures Splits(test, Or, a, b)
    {
      BitOr(a, b, j);
    }
    GatherTest(parts, read, Or, 0, test);
    NoBits(j);
    forall text | text in parts
      ensures SpanOf(Syntax(text), min, max).Ok?
      ensures test(read(text).value) <==> PartSets(text, min, max, j)
    {
      assert read(text).Ok?;
    }
  }

  ghost predicate PartsAccepted(field: string, min: nat, max: int) {
    forall text :: text in Split(field, ',') ==> SpanOf(Syntax(text), min, max).Ok?
  }

  /** A field's mask has the union of its parts' values as its bits. */
  lemma FieldBits(field: string, min: nat, max: int, j: nat)
    requires max < 64 && j < 64 && FieldMask(field, min, max).Ok? && StepsFit(field, min, max)
    ensures Bit(FieldMask(field, min, max).value, j) <==> Allows(field, min, max, j)
  {
    FieldUnion(field, min, max, j);
    forall text | text in Split(field, ',')
      ensures PartSets(text, min, max, j) <==> PartAllows(text, min, max, j)
    {
      assert PartFits(text, min, max);
      PartBits(text, min, max, j);
    }
  }

  lemma {:induction false} GatherAll<M>(parts: seq<string>, read: string -> Result<M>, union: (M, M) -> M, mask: M)
    requires forall text :: text in parts ==> read(text).Ok?
    ensures Gather(parts, read, union, mask).Ok?
    decreases |parts|
  {
    if parts != [] {
      assert parts[0] in parts;
      GatherAll(parts[1..], read, union, union(mask, read(parts[0]).value));
    }
  }

  /** A field is accepted exactly when each of its parts is. */
  lemma FieldAccepted(field: string, min: nat, max: int)
    requires max < 64
    ensures FieldMask(field, min, max).Ok? <==> PartsAccepted(field, min, max)
  {
    if FieldMask(field, min, max).Ok? {
      FieldUnion(field, min, max, 0);
    } else {
      var parts, read := Split(field, ','), PartReader(min, max);
      if forall text :: text in parts ==> read(text).Ok? {
        GatherAll(parts, read, Or, 0);
      }
    }
  }

  /** An accepted field has a value within its limits, whatever its steps. */
  lemma FieldFilled(field: string, min: nat, max: int)
    requires max < 64 && FieldMask(field, min, max).Ok?
    ensures exists j: nat :: min <= j <= max && Bit(FieldMask(field, min, max).value, j)
  {
    var text := Split(field, ',')[0];
    FieldUnion(field, min, max, 0);
    var span := SpanOf(Syntax(text), min, max).value;
    FillFirst(span.low, span.high, span.step);
    assert PartSets(text, min, max, span.low);
    FieldUnion(field, min, max, span.low);
  }

  /** None of its values lies outside the limits, unless a step wraps around. */
  lemma FieldWithin(field: string, min: nat, max: int, j: nat)
    requires max < 64 && FieldMask(field, min, max).Ok? && StepsFit(field, min, max)
    requires j < 64 && Bit(FieldMask(field, min, max).value, j)
    ensures min <= j <= max
  {
    FieldBits(field, min, max, j);
  }

  /** The shortcut for a lone star agrees with reading it as a list of one part. */
  lemma StarField(min: nat, max: int)
    requires min <= max < 64
    ensures FieldMask("*", min, max) == Ok(Fill(min, max, 1, 0, Set))
  {
    var star := "*";
    var mask := Fill(min, max, 1, 0, Set);
    assert Split(star, ',') == [star];
    assert Syntax(star) == Part(Star, None);
    assert PartMask(star, min, max) == Ok(mask);
    assert Gather([star], PartReader(min, max), Or, 0) == Gather([], PartReader(min, max), Or, 0 | mask);
    ZeroHas(mask);
  }

  lemma GatherAt<M>(parts: seq<string>, k: nat, read: string -> Result<M>, union: (M, M) -> M, mask: M)
    requires k < |parts|
    ensures Gather(parts[k..], read, union, mask)
         == if read(parts[k]).Err? then read(parts[k])
            else Gather(parts[k + 1..], read, union, union(mask, read(parts[k]).value))
  {
    assert parts[k..][1..] == parts[k + 1..];
  }

  method ParseField(field: string, min: nat, max: int) returns (r: Result<bv64>)
    requires min <= max < 64
    ensures r == FieldMask(field, min, max)
  {
    if field == "*" {
      var all := FillRangeStep(min, max, 1);
      StarField(min, max);
      return Ok(all);
    }
    var parts := Split(field, ',');
    ghost var read := PartReader(min, max);
    var mask: bv64 := 0;
    var k := 0;
    while k < |parts|
      invariant 0 <= k <= |parts|
      invariant Gather(parts[k..], read, Or, mask) == FieldMask(field, min, max)
    {
      var m := ParsePart(parts[k], min, max);
      assert read(parts[k]) == m;
      GatherAt(parts, k, read, Or, mask);
      if m.Err? {
        return m;
      }
      mask := Or(mask, m.value);
      k := k + 1;
    }
    r := Ok(mask);
  }

  // ----- The whole line -----

  /** The expression of five masks, or the first error, naming its field. */
  function Assemble(minute: Result<bv64>, hour: Result<bv64>, dayOfMonth: Result<bv64>, month: Result<bv64>,
                    dayOfWeek: Result<bv64>): Result<Expression> {
    if minute.Err? then Err(InField("minute", minute.error))
    else if hour.Err? then Err(InField("hour", hour.error))
    else if dayOfMonth.Err? then Err(InField("dom", dayOfMonth.error))
    else if month.Err? then Err(InField("month", month.error))
    else if dayOfWeek.Err? then Err(InField("dow", dayOfWeek.error))
    else Ok(Expression(minute.value, hour.value, dayOfMonth.value, month.value, dayOfWeek.value))
  }

  function ReadFields(fields: seq<string>): Result<Expression>
    requires |fields| == 5
  {
    Assemble(FieldMask(fields[0], 0, 59), FieldMask(fields[1], 0, 23), FieldMask(fields[2], 1, 31),
             FieldMask(fields[3], 1, 12), FieldMask(fields[4], 0, 6))
  }

  /** What a line means, or the first thing wrong with it. */
  function Reading(line: string): Result<Expression> {
    var fields := Fields(line);
    if |fields| != 5 then Err(FieldCount(|fields|)) else ReadFields(fields)
  }

  method Parse(line: string) returns (r: Result<Expression>)
    ensures r == Reading(line)
  {
    var fields := Fields(line);
    if |fields| != 5 {
      return Err(FieldCount(|fields|));
    }
    var minute := ParseField(fields[0], 0, 59);
    if minute.Err? {
      return Err(InField("minute", minute.error));
    }
    var hour := ParseField(fields[1], 0, 23);
    if hour.Err? {
      return Err(InField("hour", hour.error));
    }
    var dayOfMonth := ParseField(fields[2], 1, 31);
    if dayOfMonth.Err? {
      return Err(InField("dom", dayOfMonth.error));
    }
    var month := ParseField(fields[3], 1, 12);
    if month.Err? {
      return Err(InField("month", month.error));
    }
    var dayOfWeek := ParseField(fields[4], 0, 6);
    if dayOfWeek.Err? {
      return Err(InField("dow", dayOfWeek.error));
    }
    r := Ok(Expression(minute.value, hour.value, dayOfMonth.value, month.value, dayOfWeek.value));
  }

  /** A line is accepted exactly when it has five fields and every part of each is accepted. */
  lemma LineAccepted(line: string, fields: seq<string>)
    requires fields == Fields(line)
    ensures Reading(line).Ok? <==>
      && |fields| == 5
      && PartsAccepted(fields[0], 0, 59) && PartsAccepted(fields[1], 0, 23) && PartsAccepted(fields[2], 1, 31)
      && PartsAccepted(fields[3], 1, 12) && PartsAccepted(fields[4], 0, 6)
  {
    if |fields| == 5 {
      FieldAccepted(fields[0], 0, 59);
      FieldAccepted(fields[1], 0, 23);
      FieldAccepted(fields[2], 1, 31);
      FieldAccepted(fields[3], 1, 12);
      FieldAccepted(fields[4], 0, 6);
    }
  }

  lemma ReadingAdmissible(line: string)
    requires Reading(line).Ok?
    ensures Admissible(Reading(line).value)
  {
    var fields := Fields(line);
    FieldFilled(fields[0], 0, 59);
    FieldFilled(fields[1], 0, 23);
    FieldFilled(fields[3], 1, 12);
    FieldFilled(fields[4], 0, 6);
  }

  /**
   Every accepted line has a next activation after any instant, less than two years ahead. It is the
   zero time only if that is the first match after an instant before it.
   */
  lemma AcceptedRuns(line: string, t: Instant)
    requires Reading(line).Ok?
    ensures t < NextAfter(Reading(line).value, t) < AddYears(StartMinute(t), 2) * NANOS_PER_MINUTE
    ensures NextAfter(Reading(line).value, t) == ZERO_TIME <==> FirstAtZero(Reading(line).value, t)
    ensures t >= ZERO_TIME ==> NextAfter(Reading(line).value, t) != ZERO_TIME
  {
    var e := Reading(line).value;
    ReadingAdmissible(line);
    NextExists(e, t);
    FirstMatchAfter(e, t);
    NextZeroExactly(e, t);
  }

  lemma FirstMatchAfter(e: Expression, t: Instant)
    requires FirstMatch(e, StartMinute(t), Limit(t)).Some?
    ensures t < NextAfter(e, t) == FirstMatch(e, StartMinute(t), Limit(t)).value * NANOS_PER_MINUTE
    ensures !Search.NoneIn(Matching(e), StartMinute(t), Limit(t))
  {
    Search.FirstIsLeast(Matching(e), StartMinute(t), Limit(t));
  }

  // ----- Printing spans -----

  predicate Fits(span: Span, min: nat, max: int) {
    0 < span.step <= MAX_INT && StepFits(span.low, span.step) && min <= span.low <= span.high <= max < 64
  }

  function Printed(span: Span): string
    requires span.low >= 0 && span.high >= 0 && span.step >= 0
  {
    Render(Part(Between(Decimal(span.low), Decimal(span.high)), Some(Decimal(span.step))))
  }

  lemma PrintedClean(span: Span, c: char)
    requires span.low >= 0 && span.high >= 0 && span.step >= 0
    ensures c in Printed(span) ==> IsDigit(c) || c == '-' || c == '/'
  {}

  lemma PrintedSpan(span: Span, min: nat, max: int)
    requires Fits(span, min, max)
    ensures SpanOf(Syntax(Printed(span)), min, max) == Ok(span)
  {
    var low, high, step := Decimal(span.low), Decimal(span.high), Decimal(span.step);
    var part := Part(Between(low, high), Some(step));
    assert Proper(part);
    SyntaxOfRender(part);
    AtoiDecimal(span.low);
    AtoiDecimal(span.high);
    AtoiDecimal(span.step);
    assert StepOf(part.step) == Ok(span.step);
    assert BoundsOf(part.range, min, max) == Ok((span.low, span.high));
  }

  function PrintedAll(spans: seq<Span>): (parts: seq<string>)
    requires forall span :: span in spans ==> span.low >= 0 && span.high >= 0 && span.step >= 0
    ensures |parts| == |spans|
    ensures forall k :: 0 <= k < |spans| ==> parts[k] == Printed(spans[k])
  {
    if spans == [] then []
    else
      assert spans[0] in spans;
      [Printed(spans[0])] + PrintedAll(spans[1..])
  }

  ghost predicate AllFit(spans: seq<Span>, min: nat, max: int) {
    spans != [] && forall span :: span in spans ==> Fits(span, min, max)
  }

  function PrintedField(spans: seq<Span>): string
    requires spans != [] && forall span :: span in spans ==> span.low >= 0 && span.high >= 0 && span.step >= 0
  {
    Join(PrintedAll(spans), ',')
  }

  lemma {:induction false} JoinedChars(parts: seq<string>, separator: char, c: char)
    requires parts != [] && c in Join(parts, separator)
    ensures c == separator || exists k :: 0 <= k < |parts| && c in parts[k]
    decreases |parts|
  {
    if |parts| > 1 && c != separator && c !in parts[0] {
      JoinedChars(parts[1..], separator, c);
      var k :| 0 <= k < |parts[1..]| && c in parts[1..][k];
      assert c in parts[k + 1];
    }
  }

  lemma InkNotBlank(c: char)
    requires IsDigit(c) || c == '-' || c == '/' || c == ','
    ensures !IsSpace(c)
  {}

  lemma PrintedChars(spans: seq<Span>, min: nat, max: int, c: char)
    requires AllFit(spans, min, max) && c in PrintedField(spans)
    ensures !IsSpace(c)
  {
    var parts := PrintedAll(spans);
    JoinedChars(parts, ',', c);
    if c != ',' {
      var k :| 0 <= k < |parts| && c in parts[k];
      PrintedClean(spans[k], c);
    }
    InkNotBlank(c);
  }

  lemma PrintedNotEmpty(spans: seq<Span>, min: nat, max: int)
    requires AllFit(spans, min, max)
    ensures PrintedField(spans) != []
  {
    assert spans[0] in spans && Fits(spans[0], min, max);
    assert PrintedAll(spans)[0] == Printed(spans[0]) != [];
  }

  /** A printed list of spans is one word, and it is split into the printed spans. */
  lemma PrintedParts(spans: seq<Span>, min: nat, max: int)
    requires AllFit(spans, min, max)
    ensures Split(PrintedField(spans), ',') == PrintedAll(spans) && Word(PrintedField(spans))
  {
    var parts, field := PrintedAll(spans), PrintedField(spans);
    forall p | p in parts
      ensures ',' !in p
    {
      var k :| 0 <= k < |parts| && parts[k] == p;
      PrintedClean(spans[k], ',');
    }
    SplitJoin(parts, ',');
    PrintedNotEmpty(spans, min, max);
    forall c | c in field
      ensures !IsSpace(c)
    {
      PrintedChars(spans, min, max, c);
    }
  }

  /** The bits of mask are the values of the spans. */
  ghost predicate Covers(mask: bv64, spans: seq<Span>) {
    forall j: nat :: j < 64 ==> (Bit(mask, j) <==> exists span :: span in spans && On(span, j))
  }

  lemma PrintedSpans(spans: seq<Span>, min: nat, max: int, parts: seq<string>)
    requires AllFit(spans, min, max) && parts == PrintedAll(spans)
    ensures forall k :: 0 <= k < |spans| ==> SpanOf(Syntax(parts[k]), min, max) == Ok(spans[k])
  {
    forall k | 0 <= k < |spans|
      ensures SpanOf(Syntax(parts[k]), min, max) == Ok(spans[k])
    {
      PrintedSpan(spans[k], min, max);
    }
  }

  lemma PrintedAccepted(spans: seq<Span>, min: nat, max: int, field: string)
    requires AllFit(spans, min, max) && max < 64 && field == PrintedField(spans)
    ensures FieldMask(field, min, max).Ok? && StepsFit(field, min, max)
  {
    var parts := PrintedAll(spans);
    PrintedParts(spans, min, max);
    PrintedSpans(spans, min, max, parts);
    FieldAccepted(field, min, max);
    forall text | text in parts
      ensures PartFits(text, min, max) && SpanOf(Syntax(text), min, max).Ok?
    {
      var k :| 0 <= k < |parts| && parts[k] == text;
      assert Fits(spans[k], min, max);
    }
  }

  lemma PrintedAllows(spans: seq<Span>, min: nat, max: int, field: string, j: int)
    requires AllFit(spans, min, max) && field == PrintedField(spans)
    ensures Allows(field, min, max, j) <==> exists span :: span in spans && On(span, j)
  {
    var parts := PrintedAll(spans);
    PrintedParts(spans, min, max);
    PrintedSpans(spans, min, max, parts);
    if Allows(field, min, max, j) {
      var text :| text in parts && PartAllows(text, min, max, j);
      var k :| 0 <= k < |parts| && parts[k] == text;
      assert spans[k] in spans;
    }
    if span :| span in spans && On(span, j) {
      var k :| 0 <= k < |spans| && spans[k] == span;
      assert parts[k] in parts && PartAllows(parts[k], min, max, j);
    }
  }

  /** A printed list of spans is read back as the union of the spans. */
  lemma PrintedFieldRead(spans: seq<Span>, min: nat, max: int)
    requires AllFit(spans, min, max) && max < 64
    ensures var r := FieldMask(PrintedField(spans), min, max);
      r.Ok? && Covers(r.value, spans)
  {
    var field := PrintedField(spans);
    PrintedAccepted(spans, min, max, field);
    forall j: nat | j < 64
      ensures Bit(FieldMask(field, min, max).value, j) <==> exists span :: span in spans && On(span, j)
    {
      FieldBits(field, min, max, j);
      PrintedAllows(spans, min, max, field, j);
    }
  }

  /** What the five fields of an expression admit, as spans. */
  datatype Schedule = Schedule(minute: seq<Span>, hour: seq<Span>, dayOfMonth: seq<Span>, month: seq<Span>,
                               dayOfWeek: seq<Span>)

  ghost predicate Sound(s: Schedule) {
    && AllFit(s.minute, 0, 59) && AllFit(s.hour, 0, 23) && AllFit(s.dayOfMonth, 1, 31)
    && AllFit(s.month, 1, 12) && AllFit(s.dayOfWeek, 0, 6)
  }

  ghost function PrintedLine(s: Schedule): string
    requires Sound(s)
  {
    Join([PrintedField(s.minute), PrintedField(s.hour), PrintedField(s.dayOfMonth), PrintedField(s.month),
          PrintedField(s.dayOfWeek)], ' ')
  }

  /** Every schedule can be written down, and the parser reads it back as exactly that schedule. */
  lemma ScheduleRoundTrip(s: Schedule)
    requires Sound(s)
    ensures var r := Reading(PrintedLine(s));
      && r.Ok?
      && Covers(r.value.minute, s.minute) && Covers(r.value.hour, s.hour)
      && Covers(r.value.dayOfMonth, s.dayOfMonth) && Covers(r.value.month, s.month)
      && Covers(r.value.dayOfWeek, s.dayOfWeek)
  {
    var words := [PrintedField(s.minute), PrintedField(s.hour), PrintedField(s.dayOfMonth), PrintedField(s.month),
                  PrintedField(s.dayOfWeek)];
    PrintedParts(s.minute, 0, 59);
    PrintedParts(s.hour, 0, 23);
    PrintedParts(s.dayOfMonth, 1, 31);
    PrintedParts(s.month, 1, 12);
    PrintedParts(s.dayOfWeek, 0, 6);
    FieldsJoin(words);
    PrintedFieldRead(s.minute, 0, 59);
    PrintedFieldRead(s.hour, 0, 23);
    PrintedFieldRead(s.dayOfMonth, 1, 31);
    PrintedFieldRead(s.month, 1, 12);
    PrintedFieldRead(s.dayOfWeek, 0, 6);
  }
}
