/** The few string functions the cron parser uses, and how they undo printing. */
module Text {
  import opened Commands

  /** The first position of c in s, or -1. */
  function IndexOf(s: string, c: char): (i: int)
    ensures -1 <= i < |s|
    ensures i >= 0 ==> s[i] == c
  {
    if s == [] then -1
    else if s[0] == c then 0
    else
      var i := IndexOf(s[1..], c);
      if i == -1 then -1 else i + 1
  }

  lemma {:induction false} IndexOfIsFirst(s: string, c: char)
    ensures IndexOf(s, c) == -1 <==> c !in s
    ensures IndexOf(s, c) >= 0 ==> c !in s[..IndexOf(s, c)]
  {
    if s != [] && s[0] != c {
      IndexOfIsFirst(s[1..], c);
      var i := IndexOf(s[1..], c);
      assert i >= 0 ==> s[..i + 1] == [s[0]] + s[1..][..i];
    }
  }

  /** Cutting s at the first c. */
  lemma Cut(s: string, c: char, i: nat)
    requires i == IndexOf(s, c)
    ensures s[..i] + [c] + s[i + 1..] == s && c !in s[..i]
  {
    IndexOfIsFirst(s, c);
  }

  /** The parts of s between occurrences of c. */
  function Split(s: string, c: char): (parts: seq<string>)
    ensures |parts| >= 1
    decreases |s|
  {
    var i := IndexOf(s, c);
    if i == -1 then [s] else [s[..i]] + Split(s[i + 1..], c)
  }

  function Join(parts: seq<string>, c: char): string
    requires |parts| >= 1
  {
    if |parts| == 1 then parts[0] else parts[0] + [c] + Join(parts[1..], c)
  }

  predicate IsSpace(c: char) {
    c in {' ', '\t', '\n', '\U{B}', '\U{C}', '\r', '\U{85}', '\U{A0}', '\U{1680}', '\U{2028}', '\U{2029}',
          '\U{202F}', '\U{205F}', '\U{3000}'}
    || '\U{2000}' <= c <= '\U{200A}'
  }

  /** The words of s, given the word already begun. */
  function Words(s: string, word: string): seq<string> {
    var done := if word == [] then [] else [word];
    if s == [] then done
    else if IsSpace(s[0]) then done + Words(s[1..], [])
    else Words(s[1..], word + [s[0]])
  }

  function Fields(s: string): seq<string> {
    Words(s, [])
  }

  // ----- Numbers -----

  const MAX_INT := 0x7fff_ffff_ffff_ffff

  predicate IsDigit(c: char) {
    '0' <= c <= '9'
  }

  /** The value of a run of digits. */
  function Digits(s: string): Option<nat> {
    if s == [] then Some(0)
    else
      var front, last := Digits(s[..|s| - 1]), s[|s| - 1];
      if front.None? || !IsDigit(last) then None else Some(10 * front.value + (last as int - '0' as int))
  }

  /** An optional sign and at least one digit, within 64 bits. */
  function Atoi(s: string): Option<int> {
    var negative := s != [] && s[0] == '-';
    var digits := if s != [] && (s[0] == '-' || s[0] == '+') then s[1..] else s;
    var v := Digits(digits);
    if digits == [] || v.None? then None
    else if negative then if v.value <= MAX_INT + 1 then Some(0 - v.value) else None
    else if v.value <= MAX_INT then Some(v.value) else None
  }

  function Decimal(n: nat): (s: string)
    ensures |s| >= 1 && forall c :: c in s ==> IsDigit(c)
  {
    var last := ['0' + (n % 10) as char];
    if n < 10 then last else Decimal(n / 10) + last
  }

  lemma {:induction false} DigitsOfDecimal(n: nat)
    ensures Digits(Decimal(n)) == Some(n)
  {
    var s := Decimal(n);
    if n >= 10 {
      DigitsOfDecimal(n / 10);
      assert s[..|s| - 1] == Decimal(n / 10);
    } else {
      assert s[..|s| - 1] == [];
    }
  }

  /** Reading a printed number gives the number back. */
  lemma AtoiDecimal(n: nat)
    requires n <= MAX_INT
    ensures Atoi(Decimal(n)) == Some(n)
  {
    DigitsOfDecimal(n);
    var s := Decimal(n);
    assert s[0] in s;
  }

  // ----- Exactly what is read as a number -----

  function Zeros(k: nat): (s: string)
    ensures |s| == k && forall c :: c in s ==> c == '0'
  {
    if k == 0 then [] else Zeros(k - 1) + ['0']
  }

  /** A number with an optional sign and any leading zeros. */
  datatype Written = Written(sign: string, zeros: nat, n: nat)

  predicate Signed(sign: string) {
    sign == [] || sign == ['+'] || sign == ['-']
  }

  function TextOf(w: Written): string {
    w.sign + (Zeros(w.zeros) + Decimal(w.n))
  }

  function ValueOf(w: Written): int {
    if w.sign == ['-'] then 0 - w.n else w.n
  }

  lemma DigitsLast(front: string, c: char)
    ensures Digits(front + [c])
         == if Digits(front).None? || !IsDigit(c) then None else Some(10 * Digits(front).value + (c as int - '0' as int))
  {
    var s := front + [c];
    assert s[..|s| - 1] == front && s[|s| - 1] == c;
  }

  lemma DigitChar(digit: nat, c: char)
    requires digit < 10 && c == '0' + digit as char
    ensures IsDigit(c) && c as int - '0' as int == digit
  {}

  lemma DigitsOn(front: string, digit: nat)
    requires digit < 10
    ensures Digits(front + ['0' + digit as char])
         == if Digits(front).None? then None else Some(10 * Digits(front).value + digit)
  {
    DigitChar(digit, '0' + digit as char);
    DigitsLast(front, '0' + digit as char);
  }

  lemma {:induction false} ZerosDigits(k: nat)
    ensures Digits(Zeros(k)) == Some(0)
  {
    if k > 0 {
      ZerosDigits(k - 1);
      DigitsOn(Zeros(k - 1), 0);
    }
  }

  lemma {:induction false} ZeroesIgnored(k: nat, n: nat)
    ensures Digits(Zeros(k) + Decimal(n)) == Some(n)
    decreases n
  {
    var digit := n % 10;
    if n < 10 {
      ZerosDigits(k);
      DigitsOn(Zeros(k), digit);
    } else {
      ZeroesIgnored(k, n / 10);
      DigitsOn(Zeros(k) + Decimal(n / 10), digit);
      assert Zeros(k) + Decimal(n) == Zeros(k) + Decimal(n / 10) + ['0' + digit as char];
    }
  }

  lemma SignCut(sign: string, digits: string, s: string)
    requires Signed(sign) && s == sign + digits && digits != [] && IsDigit(digits[0])
    ensures sign == [] ==> s == digits && s[0] != '-' && s[0] != '+'
    ensures sign != [] ==> s[0] == sign[0] && s[1..] == digits
  {}

  lemma AtoiSigned(sign: string, digits: string, n: nat, s: string)
    requires Signed(sign) && s == sign + digits && digits != [] && IsDigit(digits[0]) && Digits(digits) == Some(n)
    ensures sign == ['-'] ==> Atoi(s) == if n <= MAX_INT + 1 then Some(0 - n) else None
    ensures sign != ['-'] ==> Atoi(s) == if n <= MAX_INT then Some(n) else None
  {
    SignCut(sign, digits, s);
  }

  lemma FirstDigit(zeros: nat, n: nat, digits: string)
    requires digits == Zeros(zeros) + Decimal(n)
    ensures digits != [] && IsDigit(digits[0])
  {
    assert digits[0] in digits;
  }

  /** Every written number within 64 bits is read as its value, and none outside. */
  lemma AtoiWritten(w: Written)
    requires Signed(w.sign)
    ensures Atoi(TextOf(w)) == if -MAX_INT - 1 <= ValueOf(w) <= MAX_INT then Some(ValueOf(w)) else None
  {
    var digits := Zeros(w.zeros) + Decimal(w.n);
    ZeroesIgnored(w.zeros, w.n);
    FirstDigit(w.zeros, w.n, digits);
    AtoiSigned(w.sign, digits, w.n, TextOf(w));
  }

  lemma DecimalOn(n: nat, digit: nat)
    requires n > 0 && digit < 10
    ensures Decimal(10 * n + digit) == Decimal(n) + ['0' + digit as char]
  {}

  lemma DigitOf(c: char) returns (digit: nat)
    requires IsDigit(c)
    ensures digit < 10 && ['0' + digit as char] == [c] == Decimal(digit)
  {
    digit := c as int - '0' as int;
  }

  lemma {:induction false} DigitsAreWritten(s: string) returns (k: nat, n: nat)
    requires s != [] && Digits(s).Some?
    ensures s == Zeros(k) + Decimal(n)
    decreases |s|
  {
    var front := s[..|s| - 1];
    var digit := DigitOf(s[|s| - 1]);
    assert s == front + [s[|s| - 1]];
    if front == [] {
      k, n := 0, digit;
    } else {
      var m;
      k, m := DigitsAreWritten(front);
      if m == 0 {
        assert Decimal(0) == ['0'];
        k, n := k + 1, digit;
      } else {
        DecimalOn(m, digit);
        n := 10 * m + digit;
        assert s == Zeros(k) + (Decimal(m) + ['0' + digit as char]);
      }
    }
  }

  /** Nothing else is read as a number. */
  lemma OnlyWrittenRead(s: string) returns (w: Written)
    requires Atoi(s).Some?
    ensures Signed(w.sign) && s == TextOf(w) && Atoi(s) == Some(ValueOf(w))
  {
    if s[0] == '-' || s[0] == '+' {
      var k, n := DigitsAreWritten(s[1..]);
      w := Written([s[0]], k, n);
      assert s == [s[0]] + s[1..];
    } else {
      var k, n := DigitsAreWritten(s);
      w := Written([], k, n);
      assert s == [] + s;
    }
    AtoiWritten(w);
  }

  // ----- Splitting undoes joining -----

  lemma {:induction false} IndexOfFirst(a: string, c: char, b: string)
    requires c !in a
    ensures IndexOf(a + [c] + b, c) == |a|
  {
    if a != [] {
      assert a[0] in a;
      assert (a + [c] + b)[1..] == a[1..] + [c] + b;
      IndexOfFirst(a[1..], c, b);
    }
  }

  lemma SplitFirst(a: string, c: char, rest: string)
    requires c !in a
    ensures Split(a + [c] + rest, c) == [a] + Split(rest, c)
  {
    IndexOfFirst(a, c, rest);
    var s := a + [c] + rest;
    assert s[..|a|] == a && s[|a| + 1..] == rest;
  }

  lemma {:induction false} SplitJoin(parts: seq<string>, c: char)
    requires |parts| >= 1 && forall p :: p in parts ==> c !in p
    ensures Split(Join(parts, c), c) == parts
  {
    assert parts[0] in parts;
    if |parts| == 1 {
      assert parts == [parts[0]];
      IndexOfIsFirst(parts[0], c);
    } else {
      var rest := parts[1..];
      assert forall p :: p in rest ==> p in parts;
      SplitFirst(parts[0], c, Join(rest, c));
      SplitJoin(rest, c);
      assert [parts[0]] + rest == parts;
    }
  }

  ghost predicate Word(s: string) {
    s != [] && forall c :: c in s ==> !IsSpace(c)
  }

  lemma {:induction false} WordsTake(s: string, rest: string, word: string)
    requires forall c :: c in s ==> !IsSpace(c)
    ensures Words(s + rest, word) == Words(rest, word + s)
    decreases |s|
  {
    if s == [] {
      assert s + rest == rest && word + s == word;
    } else {
      assert (s + rest)[1..] == s[1..] + rest;
      WordsTake(s[1..], rest, word + [s[0]]);
      assert word + [s[0]] + s[1..] == word + s;
    }
  }

  /** Words joined by blanks are the fields of the line. */
  lemma {:induction false} FieldsJoin(words: seq<string>)
    requires |words| >= 1 && forall w :: w in words ==> Word(w)
    ensures Fields(Join(words, ' ')) == words
  {
    var w := words[0];
    assert Word(w);
    if |words| == 1 {
      WordsTake(w, [], []);
      assert w + [] == w && [] + w == w;
    } else {
      var rest := Join(words[1..], ' ');
      WordsTake(w, [' '] + rest, []);
      assert w + [' '] + rest == w + ([' '] + rest) && [] + w == w;
      assert ([' '] + rest)[1..] == rest;
      FieldsJoin(words[1..]);
    }
  }

  // ----- Words between any blanks -----

  ghost predicate Blank(s: string) {
    forall c :: c in s ==> IsSpace(c)
  }

  lemma {:induction false} BlanksEnd(blanks: string, rest: string, word: string)
    requires Blank(blanks) && blanks != []
    ensures Words(blanks + rest, word) == (if word == [] then [] else [word]) + Words(rest, [])
    decreases |blanks|
  {
    assert blanks[0] in blanks;
    assert (blanks + rest)[1..] == blanks[1..] + rest;
    if |blanks| > 1 {
      BlanksEnd(blanks[1..], rest, []);
    } else {
      assert blanks[1..] + rest == rest;
    }
  }

  /** A line: blanks, and words with blanks behind each. */
  function Spaced(words: seq<string>, gaps: seq<string>): string
    requires |gaps| == |words|
  {
    if words == [] then [] else words[0] + (gaps[0] + Spaced(words[1..], gaps[1..]))
  }

  /** Whatever blanks stand before, between and behind them, the fields of a line are its words. */
  lemma {:induction false} FieldsSpaced(words: seq<string>, gaps: seq<string>)
    requires |gaps| == |words| && (forall w :: w in words ==> Word(w)) && (forall g :: g in gaps ==> Blank(g) && g != [])
    ensures Fields(Spaced(words, gaps)) == words
  {
    if words != [] {
      var w, g, rest := words[0], gaps[0], Spaced(words[1..], gaps[1..]);
      assert w in words && Word(w) && g in gaps;
      WordsTake(w, g + rest, []);
      assert [] + w == w;
      BlanksEnd(g, rest, w);
      FieldsSpaced(words[1..], gaps[1..]);
    }
  }

  lemma FieldsLed(blanks: string, line: string)
    requires Blank(blanks)
    ensures Fields(blanks + line) == Fields(line)
  {
    if blanks == [] {
      assert blanks + line == line;
    } else {
      BlanksEnd(blanks, line, []);
    }
  }

  /** A blank at the end of a line changes nothing. */
  lemma {:induction false} WordsLast(line: string, word: string)
    ensures Words(line + [' '], word) == Words(line, word)
    decreases |line|
  {
    if line == [] {
      assert line + [' '] == [' '] && [' '][1..] == [];
    } else {
      assert (line + [' '])[1..] == line[1..] + [' '];
      if IsSpace(line[0]) {
        WordsLast(line[1..], []);
      } else {
        WordsLast(line[1..], word + [line[0]]);
      }
    }
  }
}
