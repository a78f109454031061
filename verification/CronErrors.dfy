/** What each form of a cron part is read as, and which error a rejected line reports. */
module CronErrors {
  import opened Commands
  import opened CronParse
  import opened Masks
  import opened Text

  // ----- The accepted forms -----

  lemma StepRead(range: Range, step: nat, text: string, min: nat, max: int, span: Span)
    requires Proper(Part(range, None)) && 0 < step <= MAX_INT && text == RenderRange(range) + ['/'] + Decimal(step)
    requires BoundsOf(range, min, max) == Ok((span.low, span.high)) && min <= span.low <= span.high <= max
    ensures SpanOf(Syntax(text), min, max) == Ok(span.(step := step))
    ensures SpanOf(Syntax(RenderRange(range)), min, max) == Ok(span.(step := 1))
  {
    SyntaxOfRender(Part(range, Some(Decimal(step))));
    SyntaxOfRender(Part(range, None));
    AtoiDecimal(step);
  }

  /** A star with a step is the whole range in steps. */
  lemma StarRead(step: nat, text: string, min: nat, max: int)
    requires min <= max && 0 < step <= MAX_INT && text == ['*', '/'] + Decimal(step)
    ensures SpanOf(Syntax(text), min, max) == Ok(Span(min, max, step))
    ensures SpanOf(Syntax("*"), min, max) == Ok(Span(min, max, 1))
  {
    assert "*" + ['/'] == ['*', '/'];
    StepRead(Star, step, text, min, max, Span(min, max, 1));
  }

  lemma Numeral(n: nat)
    ensures '-' !in Decimal(n) && '/' !in Decimal(n) && Decimal(n) != "*"
  {
    var s := Decimal(n);
    assert s[0] in s && !IsDigit('*');
  }

  /** A number is itself alone, with a step or without. */
  lemma ValueRead(n: nat, step: nat, text: string, min: nat, max: int)
    requires min <= n <= max <= MAX_INT && 0 < step <= MAX_INT && text == Decimal(n) + ['/'] + Decimal(step)
    ensures SpanOf(Syntax(text), min, max) == Ok(Span(n, n, step))
    ensures SpanOf(Syntax(Decimal(n)), min, max) == Ok(Span(n, n, 1))
  {
    Numeral(n);
    AtoiDecimal(n);
    StepRead(Single(Decimal(n)), step, text, min, max, Span(n, n, 1));
  }

  /** A range is its values, one by one unless it has a step. */
  lemma RangeRead(low: nat, high: nat, step: nat, range: string, text: string, min: nat, max: int)
    requires min <= low <= high <= max <= MAX_INT && 0 < step <= MAX_INT
    requires range == Decimal(low) + ['-'] + Decimal(high) && text == range + ['/'] + Decimal(step)
    ensures SpanOf(Syntax(text), min, max) == Ok(Span(low, high, step))
    ensures SpanOf(Syntax(range), min, max) == Ok(Span(low, high, 1))
  {
    Numeral(low);
    Numeral(high);
    AtoiDecimal(low);
    AtoiDecimal(high);
    StepRead(Between(Decimal(low), Decimal(high)), step, text, min, max, Span(low, high, 1));
  }

  // ----- What is wrong with a part -----

  predicate Positive(text: string) {
    Atoi(text).Some? && Atoi(text).value > 0
  }

  /** Whatever stands before it, the text after the first slash must be a positive number, or is reported. */
  lemma BadStep(front: string, step: string, min: int, max: int)
    requires '/' !in front && !Positive(step)
    ensures SpanOf(Syntax(front + ['/'] + step), min, max) == Err(InvalidStep(step))
  {
    IndexOfFirst(front, '/', step);
    var text := front + ['/'] + step;
    assert text[..|front|] == front && text[|front| + 1..] == step;
  }

  lemma BadBoundsOf(part: Part, min: int, max: int)
    requires part.step.Some? ==> Positive(part.step.value)
    requires BoundsOf(part.range, min, max).Err?
    ensures SpanOf(part, min, max) == Err(BoundsOf(part.range, min, max).error)
  {}

  /** With a step or without, a value that is no number is reported. */
  lemma BadValue(part: Part, text: string, min: int, max: int)
    requires Proper(part) && part.range == Single(text) && (part.step.Some? ==> Positive(part.step.value))
    requires Atoi(text).None?
    ensures SpanOf(Syntax(Render(part)), min, max) == Err(InvalidValue(text))
  {
    SyntaxOfRender(part);
    BadBoundsOf(part, min, max);
  }

  /** Of a range, the first end that is no number is reported. */
  lemma BadEnds(part: Part, low: string, high: string, min: int, max: int)
    requires Proper(part) && part.range == Between(low, high) && (part.step.Some? ==> Positive(part.step.value))
    requires Atoi(low).None? || Atoi(high).None?
    ensures SpanOf(Syntax(Render(part)), min, max)
         == Err(if Atoi(low).None? then InvalidRangeStart(low) else InvalidRangeEnd(high))
  {
    SyntaxOfRender(part);
    BadBoundsOf(part, min, max);
  }

  /** Numbers outside the limits, or the wrong way round, are reported as they were read. */
  lemma BadRange(part: Part, low: int, high: int, min: int, max: int)
    requires Proper(part) && (part.step.Some? ==> Positive(part.step.value))
    requires part.range.Single? ==> Atoi(part.range.text) == Some(low) && low == high
    requires part.range.Between? ==> Atoi(part.range.low) == Some(low) && Atoi(part.range.high) == Some(high)
    requires !part.range.Star? && (low < min || max < high || high < low)
    ensures SpanOf(Syntax(Render(part)), min, max) == Err(OutOfRange(low, high, min, max))
  {
    SyntaxOfRender(part);
  }

  // ----- What is wrong with a field, and with a line -----

  lemma {:induction false} GatherError<M>(parts: seq<string>, read: string -> Result<M>, union: (M, M) -> M, mask: M)
    returns (k: nat)
    requires Gather(parts, read, union, mask).Err?
    ensures k < |parts| && read(parts[k]) == Gather(parts, read, union, mask)
    ensures forall j: nat :: j < k ==> read(parts[j]).Ok?
    decreases |parts|
  {
    if read(parts[0]).Err? {
      k := 0;
    } else {
      k := GatherError(parts[1..], read, union, union(mask, read(parts[0]).value));
      k := k + 1;
    }
  }

  /** A rejected field reports what is wrong with the first of its parts that is. */
  lemma FirstBadPart(field: string, min: nat, max: int) returns (k: nat)
    requires max < 64 && FieldMask(field, min, max).Err?
    ensures k < |Split(field, ',')|
    ensures SpanOf(Syntax(Split(field, ',')[k]), min, max) == Err(FieldMask(field, min, max).error)
    ensures forall j: nat :: j < k ==> SpanOf(Syntax(Split(field, ',')[j]), min, max).Ok?
  {
    var parts, read := Split(field, ','), PartReader(min, max);
    k := GatherError(parts, read, Or, 0);
    forall j: nat | j < k
      ensures SpanOf(Syntax(parts[j]), min, max).Ok?
    {
      assert read(parts[j]).Ok?;
    }
  }

  /** The five fields, by position: what an error calls them, and their limits. */
  datatype Field = Field(name: string, min: nat, max: nat)

  const FIELDS := [Field("minute", 0, 59), Field("hour", 0, 23), Field("dom", 1, 31), Field("month", 1, 12),
                   Field("dow", 0, 6)]

  function FieldAt(fields: seq<string>, j: nat): Result<bv64>
    requires j < |fields| == 5
  {
    FieldMask(fields[j], FIELDS[j].min, FIELDS[j].max)
  }

  /** Field k is wrong in this way, and those before it are not. */
  ghost predicate FirstBad(fields: seq<string>, k: nat, cause: Error)
    requires k < |fields| == 5
  {
    FieldAt(fields, k) == Err(cause) && forall j: nat :: j < k ==> FieldAt(fields, j).Ok?
  }

  lemma FirstOfFive(rs: seq<Result<bv64>>) returns (k: nat)
    requires |rs| == 5 && Assemble(rs[0], rs[1], rs[2], rs[3], rs[4]).Err?
    ensures k < 5 && rs[k].Err? && forall j: nat :: j < k ==> rs[j].Ok?
    ensures Assemble(rs[0], rs[1], rs[2], rs[3], rs[4]) == Err(InField(FIELDS[k].name, rs[k].error))
  {
    k := if rs[0].Err? then 0 else if rs[1].Err? then 1 else if rs[2].Err? then 2 else if rs[3].Err? then 3 else 4;
  }

  lemma WrongCount(line: string, fields: seq<string>)
    requires fields == Fields(line) && |fields| != 5
    ensures Reading(line) == Err(FieldCount(|fields|))
  {}

  predicate Results(fields: seq<string>, rs: seq<Result<bv64>>) {
    && |fields| == |rs| == 5 && rs[0] == FieldAt(fields, 0) && rs[1] == FieldAt(fields, 1)
    && rs[2] == FieldAt(fields, 2) && rs[3] == FieldAt(fields, 3) && rs[4] == FieldAt(fields, 4)
  }

  lemma FiveFields(line: string, fields: seq<string>, rs: seq<Result<bv64>>)
    requires fields == Fields(line) && Results(fields, rs)
    ensures Reading(line) == Assemble(rs[0], rs[1], rs[2], rs[3], rs[4])
  {}

  lemma ResultAt(fields: seq<string>, rs: seq<Result<bv64>>, j: nat)
    requires Results(fields, rs) && j < 5
    ensures rs[j] == FieldAt(fields, j)
  {
    assert j == 0 || j == 1 || j == 2 || j == 3 || j == 4;
  }

  lemma FirstBadIs(fields: seq<string>, rs: seq<Result<bv64>>, k: nat)
    requires Results(fields, rs) && k < 5 && rs[k].Err? && forall j: nat :: j < k ==> rs[j].Ok?
    ensures FirstBad(fields, k, rs[k].error)
  {
    ResultAt(fields, rs, k);
    forall j: nat | j < k
      ensures FieldAt(fields, j).Ok?
    {
      ResultAt(fields, rs, j);
    }
  }

  /** The error of a rejected line with five fields: the first bad one by name, and what is wrong there. */
  lemma FirstBadField(line: string, fields: seq<string>) returns (k: nat, cause: Error)
    requires fields == Fields(line) && |fields| == 5 && Reading(line).Err?
    ensures k < 5 && Reading(line) == Err(InField(FIELDS[k].name, cause)) && FirstBad(fields, k, cause)
  {
    var rs := [FieldAt(fields, 0), FieldAt(fields, 1), FieldAt(fields, 2), FieldAt(fields, 3), FieldAt(fields, 4)];
    FiveFields(line, fields, rs);
    k := FirstOfFive(rs);
    cause := rs[k].error;
    FirstBadIs(fields, rs, k);
  }
}
