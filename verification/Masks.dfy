/** A set of small numbers as the bits of a 64-bit mask, and the loop that fills in a range. */
module Masks {

  /** 1 shifted left i times. */
  function One(i: nat): bv64 {
    if i == 0 then 1 else One(i - 1) << 1
  }

  predicate Has(mask: bv64, x: bv64) {
    mask & x != 0
  }

  predicate Bit(mask: bv64, i: nat)
    requires i < 64
  {
    Has(mask, One(i))
  }

  /** Sets bit i; a negative shift count is a huge unsigned one, which shifts the 1 out altogether. */
  function Set(mask: bv64, i: int): bv64 {
    if 0 <= i < 64 then mask | One(i) else mask
  }

  // ----- One bit at a time -----

  lemma AndShifted(a: bv64, b: bv64)
    ensures (a << 1) & (b << 1) == (a & b) << 1
    ensures 1 & (b << 1) == 0 && (0 as bv64) << 1 == 0
    ensures a & b == b & a
  {}

  lemma {:induction false} OneApart(i: nat, j: nat)
    requires i < j
    ensures One(i) & One(j) == 0 && One(j) & One(i) == 0
  {
    if i == 0 {
      AndShifted(1, One(j - 1));
    } else {
      OneApart(i - 1, j - 1);
      AndShifted(One(i - 1), One(j - 1));
    }
    AndShifted(One(i), One(j));
  }

  lemma Up(i: nat, k: nat, x: bv64)
    requires k == i + 1 && One(i) == x
    ensures One(k) == x << 1
  {}

  lemma Four(x: bv64, a: bv64, b: bv64, c: bv64)
    requires a == x << 1 && b == a << 1 && c == b << 1
    ensures c << 1 == x << 4
  {}

  lemma UpFour(i: nat, k: nat, x: bv64)
    requires k == i + 4 && One(i) == x
    ensures One(k) == x << 4
  {
    var a := x << 1;
    var b := a << 1;
    var c := b << 1;
    Up(i, i + 1, x);
    Up(i + 1, i + 2, a);
    Up(i + 2, i + 3, b);
    Up(i + 3, k, c);
    Four(x, a, b, c);
  }

  lemma Sixteen(x: bv64, a: bv64, b: bv64, c: bv64)
    requires a == x << 4 && b == a << 4 && c == b << 4
    ensures c << 4 == x << 16
  {}

  lemma UpSixteen(i: nat, k: nat, x: bv64)
    requires k == i + 16 && One(i) == x
    ensures One(k) == x << 16
  {
    var a := x << 4;
    var b := a << 4;
    var c := b << 4;
    UpFour(i, i + 4, x);
    UpFour(i + 4, i + 8, a);
    UpFour(i + 8, i + 12, b);
    UpFour(i + 12, k, c);
    Sixteen(x, a, b, c);
  }

  lemma TopBit()
    ensures One(63) == 0x8000_0000_0000_0000
  {
    UpSixteen(0, 16, 1);
    UpSixteen(16, 32, 0x1_0000);
    UpSixteen(32, 48, 0x1_0000_0000);
    UpFour(48, 52, 0x1_0000_0000_0000);
    UpFour(52, 56, 0x10_0000_0000_0000);
    UpFour(56, 60, 0x100_0000_0000_0000);
    Up(60, 61, 0x1000_0000_0000_0000);
    Up(61, 62, 0x2000_0000_0000_0000);
    Up(62, 63, 0x4000_0000_0000_0000);
  }

  lemma {:induction false} ZeroStays(i: nat, k: nat)
    requires i <= k && One(i) == 0
    ensures One(k) == 0
  {
    if i < k {
      ZeroStays(i, k - 1);
      Up(k - 1, k, 0);
    }
  }

  /** The 1 is not shifted out before the 64th place. */
  lemma OneNonzero(i: nat)
    requires i < 64
    ensures One(i) != 0
  {
    TopBit();
    if One(i) == 0 {
      ZeroStays(i, 63);
    }
  }

  lemma OrMask(a: bv64, b: bv64, x: bv64)
    ensures (a | b) & x == (a & x) | (b & x)
  {}

  lemma OrNonzero(a: bv64, b: bv64)
    ensures a | b == 0 <==> a == 0 && b == 0
  {}

  lemma OrHas(a: bv64, b: bv64, x: bv64)
    ensures Has(a | b, x) <==> Has(a, x) || Has(b, x)
  {
    OrMask(a, b, x);
    OrNonzero(a & x, b & x);
  }

  lemma BitOr(a: bv64, b: bv64, j: nat)
    requires j < 64
    ensures Bit(a | b, j) <==> Bit(a, j) || Bit(b, j)
  {
    OrHas(a, b, One(j));
  }

  lemma HasSelf(x: bv64)
    ensures Has(x, x) <==> x != 0
  {}

  lemma OneMeets(i: nat, j: nat)
    requires i < 64 && j < 64
    ensures Has(One(i), One(j)) <==> i == j
  {
    if i == j {
      OneNonzero(i);
      HasSelf(One(i));
    } else if i < j {
      OneApart(i, j);
    } else {
      OneApart(j, i);
    }
  }

  lemma HasMore(mask: bv64, x: bv64, y: bv64, meets: bool)
    requires Has(x, y) <==> meets
    ensures Has(mask | x, y) <==> Has(mask, y) || meets
  {
    OrHas(mask, x, y);
  }

  lemma OneMore(mask: bv64, i: nat, j: nat, x: bv64, y: bv64)
    requires i < 64 && j < 64 && x == One(i) && y == One(j)
    ensures Has(mask | x, y) <==> Has(mask, y) || i == j
  {
    OneMeets(i, j);
    HasMore(mask, x, y, i == j);
  }

  lemma BitMore(mask: bv64, i: nat, j: nat, x: bv64)
    requires i < 64 && j < 64 && x == One(i)
    ensures Bit(mask | x, j) <==> Bit(mask, j) || i == j
  {
    OneMore(mask, i, j, x, One(j));
  }

  lemma BitSet(mask: bv64, i: int, j: nat)
    requires j < 64
    ensures Bit(Set(mask, i), j) <==> Bit(mask, j) || i == j
  {
    if 0 <= i < 64 {
      BitMore(mask, i, j, One(i));
    }
  }

  lemma ZeroHas(x: bv64)
    ensures !Has(0, x) && 0 | x == x
  {}

  lemma NoBits(j: nat)
    requires j < 64
    ensures !Bit(0, j)
  {
    ZeroHas(One(j));
  }

  // ----- Ranges with a step -----

  /** The values low, low + step, low + 2 * step, ... up to high. */
  datatype Span = Span(low: int, high: int, step: int)

  predicate On(span: Span, j: int) {
    span.step > 0 && span.low <= j <= span.high && (j - span.low) % span.step == 0
  }

  lemma MulSign(a: int, d: int)
    requires a > 0
    ensures d >= 1 ==> a * d >= a
    ensures d <= -1 ==> a * d <= -a
  {}

  lemma Remainder(x: int, step: int, q: int, r: int)
    requires 0 <= r < step && x == step * q + r
    ensures x % step == r
  {
    var d := x / step - q;
    assert step * d == r - x % step;
    MulSign(step, d);
  }

  lemma OneStepOn(x: int, step: int)
    requires 0 < step <= x
    ensures (x - step) % step == x % step
  {
    var q, r := x / step, x % step;
    assert x - step == step * (q - 1) + r;
    Remainder(x - step, step, q - 1, r);
  }

  lemma OnFromNext(lo: int, hi: int, step: int, j: int)
    requires step > 0 && lo <= hi
    ensures On(Span(lo, hi, step), j) <==> lo == j || On(Span(lo + step, hi, step), j)
  {
    if lo + step <= j {
      OneStepOn(j - lo, step);
    }
  }

  // ----- The loop, in 64-bit arithmetic -----

  const TWO_63 := 0x8000_0000_0000_0000

  /** A sum of two 64-bit integers, the second positive, wraps around at the top. */
  function Wrap(x: int): int {
    if x >= TWO_63 then x - 2 * TWO_63 else x
  }

  /** How far the loop below is from its end; a huge step makes it wrap and come back lower. */
  function Rank(i: int, hi: int, step: int): nat {
    if i > hi then 0
    else if step < TWO_63 - 64 then hi - i + 1
    else if i >= 0 then 2 * i + 3
    else if i + step > hi then 1
    else if i + step >= 0 then 2 * (i + step) + 4
    else 2
  }

  predicate Int64(i: int) {
    -TWO_63 <= i < TWO_63
  }

  lemma RankFalls(i: int, hi: int, step: int)
    requires Int64(i) && i <= hi && 0 <= hi < 64 && 0 < step < TWO_63
    ensures Int64(Wrap(i + step)) && Rank(Wrap(i + step), hi, step) < Rank(i, hi, step)
  {}

  /** Sets i, i + step, ... up to hi on top of mask, with whatever stands for a mask and for setting. */
  function Fill<M>(i: int, hi: int, step: int, mask: M, add: (M, int) -> M): M
    requires Int64(i) && 0 <= hi < 64 && 0 < step < TWO_63
    decreases Rank(i, hi, step)
  {
    if i > hi then mask
    else
      RankFalls(i, hi, step);
      Fill(Wrap(i + step), hi, step, add(mask, i), add)
  }

  method FillRangeStep(lo: nat, hi: int, step: int) returns (mask: bv64)
    requires lo < TWO_63 && 0 <= hi < 64 && 0 < step < TWO_63
    ensures mask == Fill(lo, hi, step, 0, Set)
  {
    mask := 0;
    var i: int := lo;
    while i <= hi
      invariant Int64(i)
      invariant Fill(i, hi, step, mask, Set) == Fill(lo, hi, step, 0, Set)
      decreases Rank(i, hi, step)
    {
      RankFalls(i, hi, step);
      mask := Set(mask, i);
      i := Wrap(i + step);
    }
  }

  // ----- What is add, for a test of one value -----

  ghost predicate TellsAt<M>(add: (M, int) -> M, test: M -> bool, j: int, mask: M, i: int) {
    test(add(mask, i)) <==> test(mask) || i == j
  }

  /** Setting i makes the test for j succeed exactly when i is j, or it did before. */
  ghost predicate Tells<M(!new)>(add: (M, int) -> M, test: M -> bool, j: int) {
    forall mask, i :: TellsAt(add, test, j, mask, i)
  }

  /** Without a wrap-around exactly the span's values are set. */
  lemma {:induction false} FillUnwrapped<M(!new)>(lo: nat, hi: int, step: int, mask: M, add: (M, int) -> M,
                                                  test: M -> bool, j: int)
    requires 0 <= hi < 64 && 0 < step && lo + step < TWO_63 && Tells(add, test, j)
    ensures test(Fill(lo, hi, step, mask, add)) <==> test(mask) || On(Span(lo, hi, step), j)
    decreases hi - lo
  {
    if lo <= hi {
      assert TellsAt(add, test, j, mask, lo);
      OnFromNext(lo, hi, step, j);
      RankFalls(lo, hi, step);
      if lo + step <= hi {
        FillUnwrapped(lo + step, hi, step, add(mask, lo), add, test, j);
      }
    }
  }

  lemma {:induction false} FillKeeps<M(!new)>(i: int, hi: int, step: int, mask: M, add: (M, int) -> M,
                                              test: M -> bool, j: int)
    requires Int64(i) && 0 <= hi < 64 && 0 < step < TWO_63 && Tells(add, test, j) && test(mask)
    ensures test(Fill(i, hi, step, mask, add))
    decreases Rank(i, hi, step)
  {
    if i <= hi {
      RankFalls(i, hi, step);
      assert TellsAt(add, test, j, mask, i);
      FillKeeps(Wrap(i + step), hi, step, add(mask, i), add, test, j);
    }
  }

  lemma FillSetsFirst<M(!new)>(lo: nat, hi: int, step: int, mask: M, add: (M, int) -> M, test: M -> bool)
    requires lo <= hi < 64 && 0 < step < TWO_63 && Tells(add, test, lo)
    ensures test(Fill(lo, hi, step, mask, add))
  {
    RankFalls(lo, hi, step);
    assert TellsAt(add, test, lo, mask, lo);
    FillKeeps(Wrap(lo + step), hi, step, add(mask, lo), add, test, lo);
  }

  /** The steps that fill exactly the span: those that do not come back around to zero or above. */
  predicate StepFits(low: int, step: int) {
    low < 2 * (TWO_63 - step)
  }

  /** A step so large that it wraps around twice sets a value below the span. */
  lemma FillStray<M(!new)>(lo: nat, hi: int, step: int, mask: M, add: (M, int) -> M, test: M -> bool, j: nat)
    requires lo <= hi < 64 && 0 < step < TWO_63 && Tells(add, test, j)
    requires !StepFits(lo, step) && j == lo - 2 * (TWO_63 - step)
    ensures test(Fill(lo, hi, step, mask, add))
  {
    var w := Wrap(lo + step);
    RankFalls(lo, hi, step);
    RankFalls(w, hi, step);
    assert w < 0 && Wrap(w + step) == j;
    FillSetsFirst(j, hi, step, add(add(mask, lo), w), add, test);
  }

  /** From below zero, a step below zero and then past the end set nothing that counts. */
  lemma {:induction false} FillBelowZero<M(!new)>(i: int, hi: int, step: int, mask: M, add: (M, int) -> M,
                                                  test: M -> bool, j: nat)
    requires Int64(i) && i < 0 <= hi < 64 && 0 < step < TWO_63 && Tells(add, test, j)
    requires i + step > hi || (i + step < 0 && i + 2 * step > hi)
    ensures test(Fill(i, hi, step, mask, add)) <==> test(mask)
    decreases -i
  {
    RankFalls(i, hi, step);
    assert TellsAt(add, test, j, mask, i);
    if i + step < 0 {
      FillBelowZero(i + step, hi, step, add(mask, i), add, test, j);
    }
  }

  /** Wrapping around once and ending below zero sets nothing but the first value. */
  lemma FillOnce<M(!new)>(lo: nat, hi: int, step: int, mask: M, add: (M, int) -> M, test: M -> bool, j: nat)
    requires lo <= hi < 64 && 0 < step < TWO_63 <= lo + step && StepFits(lo, step) && Tells(add, test, j)
    ensures test(Fill(lo, hi, step, mask, add)) <==> test(mask) || j == lo
  {
    RankFalls(lo, hi, step);
    assert TellsAt(add, test, j, mask, lo);
    FillBelowZero(Wrap(lo + step), hi, step, add(mask, lo), add, test, j);
  }

  lemma FillTells<M(!new)>(lo: nat, hi: int, step: int, mask: M, add: (M, int) -> M, test: M -> bool, j: nat)
    requires lo <= hi < 64 && 0 < step < TWO_63 && StepFits(lo, step) && Tells(add, test, j)
    ensures test(Fill(lo, hi, step, mask, add)) <==> test(mask) || On(Span(lo, hi, step), j)
  {
    if lo + step < TWO_63 {
      FillUnwrapped(lo, hi, step, mask, add, test, j);
    } else {
      FillOnce(lo, hi, step, mask, add, test, j);
      OnFromNext(lo, hi, step, j);
    }
  }

  // ----- The bits of the filled mask -----

  function Tester(j: nat): bv64 -> bool
    requires j < 64
  {
    mask => Bit(mask, j)
  }

  lemma BitTells(j: nat)
    requires j < 64
    ensures Tells(Set, Tester(j), j)
  {
    forall mask, i
      ensures TellsAt(Set, Tester(j), j, mask, i)
    {
      BitSet(mask, i, j);
    }
  }

  /** When the step fits, the mask of a span has exactly the span's values as its bits. */
  lemma FillBits(lo: nat, hi: int, step: int, j: nat)
    requires lo <= hi < 64 && 0 < step < TWO_63 && StepFits(lo, step) && j < 64
    ensures Bit(Fill(lo, hi, step, 0, Set), j) <==> On(Span(lo, hi, step), j)
  {
    BitTells(j);
    NoBits(j);
    FillTells(lo, hi, step, 0, Set, Tester(j), j);
  }

  /** The first value's bit is set whatever the step. */
  lemma FillFirst(lo: nat, hi: int, step: int)
    requires lo <= hi < 64 && 0 < step < TWO_63
    ensures Bit(Fill(lo, hi, step, 0, Set), lo)
  {
    BitTells(lo);
    FillSetsFirst(lo, hi, step, 0, Set, Tester(lo));
  }

  /** The mask is the span exactly when the step fits. */
  lemma FillExactly(lo: nat, hi: int, step: int)
    requires lo <= hi < 64 && 0 < step < TWO_63
    ensures (forall j: nat :: j < 64 ==> (Bit(Fill(lo, hi, step, 0, Set), j) <==> On(Span(lo, hi, step), j)))
            <==> StepFits(lo, step)
  {
    if StepFits(lo, step) {
      forall j: nat | j < 64
        ensures Bit(Fill(lo, hi, step, 0, Set), j) <==> On(Span(lo, hi, step), j)
      {
        FillBits(lo, hi, step, j);
      }
    } else {
      var j := lo - 2 * (TWO_63 - step);
      BitTells(j);
      FillStray(lo, hi, step, 0, Set, Tester(j), j);
    }
  }
}
