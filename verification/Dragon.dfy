/** format_dragon's fixed-digit branch: a double printed to a given number of significant digits. */
module Dragon {
  import opened Powers
  import opened Rounding
  import opened DecimalDigits
  import opened BigInteger

  /** exp_ of the numerator and of the denominator before the first digit. */
  function NumExp(e: int, x: int): int { if e >= 0 then e / 32 else if x < 0 then -x / 32 else 0 }
  function DenExp(e: int, x: int, shift: int): int
  {
    (if x >= 0 then x / 32 else 0) + (if e < 0 then (shift - e) / 32 else 0)
  }

  /** value = f * 2^e and exp10 = x describe a number below 10^(x + 1). */
  predicate InRange(f: nat, e: int, x: int)
  {
    f > 0 && ScaledNum(f, e, x) < 10 * ScaledDen(e, x)
  }

  ghost predicate Prepared(numerator: Bigint, denominator: Bigint, f: nat, e: int, x: int, shift: nat)
    reads numerator, denominator
  {
    && numerator.Normal() && denominator.Normal()
    && numerator.Val() == ScaledNum(f, e, x) * Pow(2, shift) && numerator.exp == NumExp(e, x)
    && denominator.Val() == ScaledDen(e, x) * Pow(2, shift) && denominator.exp == DenExp(e, x, shift)
  }

  /** The invariant of format_dragon: value == (numerator / denominator) * 10^exp10. */
  method ScaleOperands(f: nat, e: int, exp10: int, shift: nat) returns (numerator: Bigint, denominator: Bigint)
    requires 1 <= shift <= 2 && f * Pow(2, shift) < 0x1_0000_0000_0000_0000 && InRange(f, e, exp10)
    requires -0x4000_0000 < exp10 < 0x4000_0000
    ensures fresh(numerator) && fresh(denominator) && numerator != denominator
    ensures Prepared(numerator, denominator, f, e, exp10, shift)
  {
    hide Pow, Bigint.Val, ScaledNum, ScaledDen;
    numerator := new Bigint();
    denominator := new Bigint();
    var significand := f * Pow(2, shift);
    SignificandPositive(f, shift);
    ScaledCases(f, e, exp10, shift);
    if e >= 0 {
      numerator.AssignUint64(significand);
      numerator.ShiftLeft(e);
      denominator.AssignPow10(exp10);
      denominator.ShiftLeft(shift);
    } else if exp10 < 0 {
      numerator.AssignPow10(-exp10);
      numerator.MultiplyUint64(significand);
      denominator.AssignUint64(1);
      denominator.ShiftLeft(shift - e);
    } else {
      numerator.AssignUint64(significand);
      denominator.AssignPow10(exp10);
      denominator.ShiftLeft(shift - e);
    }
  }

  lemma SignificandPositive(f: nat, shift: nat)
    requires f > 0
    ensures f * Pow(2, shift) > 0
  {
    MulPositive(f, Pow(2, shift));
  }

  /** What each branch computes, in terms of the scaled fraction. */
  lemma ScaledCases(f: nat, e: int, x: int, shift: nat)
    requires InRange(f, e, x)
    ensures e >= 0 ==> x >= 0
    ensures e >= 0 ==> (f * Pow(2, shift)) * Pow(2, e) == ScaledNum(f, e, x) * Pow(2, shift)
    ensures e >= 0 ==> Pow(10, x) * Pow(2, shift) == ScaledDen(e, x) * Pow(2, shift)
    ensures e < 0 && x < 0 ==> Pow(10, -x) * (f * Pow(2, shift)) == ScaledNum(f, e, x) * Pow(2, shift)
    ensures e < 0 && x < 0 ==> 1 * Pow(2, shift - e) == ScaledDen(e, x) * Pow(2, shift)
    ensures e < 0 && x >= 0 ==> f * Pow(2, shift) == ScaledNum(f, e, x) * Pow(2, shift)
    ensures e < 0 && x >= 0 ==> Pow(10, x) * Pow(2, shift - e) == ScaledDen(e, x) * Pow(2, shift)
  {
    hide Pow;
    PowOne(2);
    PowOne(10);
    var s := Pow(2, shift);
    if e >= 0 {
      if x < 0 {
        AtLeastOne(f, e, x);
      }
      SwapLast(f, s, Pow(2, e));
    } else {
      PowAdd(2, shift, -e);
      if x < 0 {
        SwapLast(f, Pow(10, -x), s);
      } else {
        Associate(Pow(10, x), s, Pow(2, -e));
        SwapLast(Pow(10, x), s, Pow(2, -e));
        SwapLast(Pow(2, -e), Pow(10, x), s);
      }
    }
  }

  lemma SwapLast(a: int, b: int, c: int)
    ensures (a * b) * c == (a * c) * b
    ensures b * (a * c) == (a * b) * c
  {}

  lemma AtLeastOne(f: nat, e: int, x: int)
    requires f > 0 && e >= 0 && x < 0
    ensures ScaledNum(f, e, x) >= 10 * ScaledDen(e, x)
  {
    assert Pow(10, -x) == 10 * Pow(10, -x - 1);
    MulPositive(f, Pow(2, e));
    MulAtLeast(Pow(10, -x), f * Pow(2, e));
  }

  //// the dividend is never the divisor written with fewer limbs ////

  /** While no multiple of the denominator has been subtracted, an equal numerator has no larger exp_. */
  lemma NeverEqualWithLargerExp(f: nat, e: int, x: int, shift: nat, i: nat)
    requires InRange(f, e, x) && 1 <= shift <= 2 && NumExp(e, x) > DenExp(e, x, shift)
    ensures ScaledNum(f, e, x) * Pow(2, shift) * Pow(10, i) != ScaledDen(e, x) * Pow(2, shift)
  {
    hide Pow, ScaledNum, ScaledDen;
    if e >= 0 && x < 0 {
      AtLeastOne(f, e, x);
    }
    ScaledSimple(f, e, x);
    if e >= 0 {
      EvenIsNotOddPower(f, e, x, shift, i);
    } else {
      PowAdd(2, -e, shift);
      TenPowerAbove(-x, shift - e);
      LargeProduct(f, Pow(10, -x), Pow(2, shift), Pow(10, i));
    }
  }

  lemma ScaledSimple(f: nat, e: int, x: int)
    ensures e >= 0 && x >= 0 ==> ScaledNum(f, e, x) == f * Pow(2, e) && ScaledDen(e, x) == Pow(10, x)
    ensures e < 0 && x < 0 ==> ScaledNum(f, e, x) == f * Pow(10, -x) && ScaledDen(e, x) == Pow(2, -e)
  {}

  lemma TenPowerAbove(n: nat, m: nat)
    requires n > m
    ensures Pow(10, n) > Pow(2, m)
  {
    TenBeatsTwo(n);
    PowMonotone(2, m, n);
  }

  lemma LargeProduct(f: nat, t: nat, s: nat, k: nat)
    requires f > 0 && s > 0 && k > 0
    ensures f * t * s * k >= t
  {
    MulAtLeast(t, f);
    MulAtLeast(f * t, s);
    MulAtLeast(f * t * s, k);
  }

  lemma {:induction false} TenBeatsTwo(n: nat)
    requires n > 0
    ensures Pow(10, n) > Pow(2, n)
  {
    if n == 1 {
      PowOne(10);
      PowOne(2);
    } else {
      TenBeatsTwo(n - 1);
    }
  }

  /** f * 2^e * 10^i with e > x is not 10^x: dividing by 2^x would leave an even and an odd number. */
  lemma EvenIsNotOddPower(f: nat, e: nat, x: nat, shift: nat, i: nat)
    requires e > x
    ensures f * Pow(2, e) * Pow(2, shift) * Pow(10, i) != Pow(10, x) * Pow(2, shift)
  {
    hide Pow;
    var s, k := Pow(2, shift), Pow(10, i);
    PowAdd(2, e - x, x);
    PowAdd(2, 1, e - x - 1);
    PowOne(2);
    PowProduct(5, 2, x);
    OddPower(x);
    var h := Pow(2, e - x - 1);
    Factor(f, h, Pow(2, x), s, k);
    Cancel((2 * (f * h * k)) * Pow(2, x), Pow(5, x) * Pow(2, x), s);
    Cancel(2 * (f * h * k), Pow(5, x), Pow(2, x));
  }

  lemma Factor(f: int, h: int, p: int, s: int, k: int)
    ensures f * ((2 * h) * p) * s * k == ((2 * (f * h * k)) * p) * s
  {
    calc {
      f * ((2 * h) * p) * s * k;
    ==  { Associate(f, 2 * h, p); }
      ((f * (2 * h)) * p) * s * k;
    ==  { SwapLast((f * (2 * h)) * p, s, k); SwapLast(f * (2 * h), p, k); }
      (((f * (2 * h)) * k) * p) * s;
    ==  { Associate(f, 2, h); Associate(2, f, h); Associate(2, f * h, k); }
      ((2 * (f * h * k)) * p) * s;
    }
  }

  lemma {:induction false} OddPower(n: nat)
    ensures Pow(5, n) % 2 == 1
  {
    if n > 0 { OddPower(n - 1); }
  }

  //// digit generation ////

  /** What format_dragon keeps true of its two bigints, so that every division below is exact. */
  ghost predicate DigitsReady(numerator: Bigint, denominator: Bigint, f: nat, e: int, x: int, shift: nat, i: nat,
                              num0: nat, den: nat)
    reads numerator, denominator
  {
    && numerator.Canonical() && denominator.Normal() && denominator.Val() == den
    && denominator.exp == DenExp(e, x, shift)
    && num0 == ScaledNum(f, e, x) * Pow(2, shift) && den == ScaledDen(e, x) * Pow(2, shift)
    && (numerator.Val() == 0 ==> numerator.NumBigits() <= denominator.NumBigits())
    && (numerator.exp <= denominator.exp || (numerator.exp == NumExp(e, x) && numerator.Val() == num0 * Pow(10, i)))
  }

  lemma StillUnequal(numerator: Bigint, denominator: Bigint, f: nat, e: int, x: int, shift: nat, i: nat,
                     num0: nat, den: nat)
    requires DigitsReady(numerator, denominator, f, e, x, shift, i, num0, den)
    requires InRange(f, e, x) && 1 <= shift <= 2
    ensures numerator.exp > denominator.exp ==> numerator.Val() != denominator.Val()
  {
    hide Pow, Bigint.Val, ScaledNum, ScaledDen;
    if numerator.exp > denominator.exp {
      NeverEqualWithLargerExp(f, e, x, shift, i);
    }
  }

  lemma StartAccounting(f: nat, e: int, x: int, shift: nat)
    requires InRange(f, e, x)
    ensures Accounted(ScaledNum(f, e, x) * Pow(2, shift), DecVal([]), ScaledNum(f, e, x) * Pow(2, shift),
                      ScaledDen(e, x) * Pow(2, shift))
    ensures ScaledNum(f, e, x) * Pow(2, shift) * Pow(10, 0) == ScaledNum(f, e, x) * Pow(2, shift)
  {
    Associate(10, ScaledDen(e, x), Pow(2, shift));
    Cancel(ScaledNum(f, e, x), 10 * ScaledDen(e, x), Pow(2, shift));
  }

  lemma NextPower(n: nat, i: nat)
    ensures n * Pow(10, i + 1) == 10 * (n * Pow(10, i))
  {
    Associate(n, 10, Pow(10, i));
    Associate(10, n, Pow(10, i));
  }

  /** The digits so far and the numerator still to be printed account for the whole number. */
  ghost predicate Accounted(total: nat, digits: int, num: nat, den: nat)
  {
    total == digits * (10 * den) + num && num < 10 * den
  }

  lemma DigitStep(total: nat, digits: int, num: nat, den: nat, d: nat, rest: nat)
    requires Accounted(total, digits, num, den) && num == d * den + rest && rest < den
    ensures d <= 9
    ensures total == (10 * digits + d) * den + rest
    ensures Accounted(10 * total, 10 * digits + d, rest * 10, den)
  {
    if d >= 10 {
      Monotone(10, d, den);
    }
    Associate(digits, 10, den);
    Distribute(digits * 10, d, den);
    Associate(10, 10 * digits + d, den);
    Associate(10 * digits + d, 10, den);
  }

  lemma SmallQuotient(total: nat, digits: int, num: nat, den: nat)
    requires Accounted(total, digits, num, den)
    ensures num < 0x8000_0000 * den
  {}

  /** Rounding the last digit by comparing twice the remainder with the denominator. */
  lemma RoundLast(total: nat, head: int, digit: nat, rest: nat, den: nat, up: bool)
    requires total == (10 * head + digit) * den + rest && rest < den
    requires up <==> 2 * rest > den || (2 * rest == den && digit % 2 != 0)
    ensures IsNearestEven(10 * head + digit + (if up then 1 else 0), total, den)
  {
    LastDigitParity(head, digit);
    RoundBy(total, 10 * head + digit, rest, den, up);
  }

  lemma LastDigitParity(head: int, digit: nat)
    ensures (10 * head + digit) % 2 == digit % 2
  {
    assert 10 * head + digit == 2 * (5 * head) + digit;
  }

  lemma RoundBy(total: nat, q: int, rest: nat, den: nat, up: bool)
    requires total == q * den + rest && rest < den
    requires up <==> 2 * rest > den || (2 * rest == den && q % 2 != 0)
    ensures IsNearestEven(q + (if up then 1 else 0), total, den)
  {
    if up {
      Distribute(q, 1, den);
    }
  }

  /** num_digits == 0: one character, '1' exactly when the value exceeds half of 10^(exp10 + 1). */
  lemma RoundToNothing(num: nat, den: nat, up: bool)
    requires num < 10 * den && (up <==> 2 * num > 10 * den)
    ensures IsNearestEven(if up then 1 else 0, num, 10 * den)
  {}

  /** The rounded digits of the scaled fraction are the rounded digits of the number itself. */
  lemma Unscaled(f: nat, e: int, x: int, shift: nat, k: nat, q: int)
    requires IsNearestEven(q, ScaledNum(f, e, x) * Pow(2, shift) * Pow(10, k), ScaledDen(e, x) * Pow(2, shift))
    ensures IsNearestEven(q, ScaledNum(f, e, x - k), ScaledDen(e, x - k))
  {
    hide Pow, ScaledNum, ScaledDen;
    var n, d, s := ScaledNum(f, e, x), ScaledDen(e, x), Pow(2, shift);
    CrossScaled(n, d, s);
    ScaleShift(f, e, x, k, n * s, d * s);
    MulPositive(d, s);
    CrossComm(d * s, ScaledNum(f, e, x - k));
    NearestEvenRatio(q, n * s * Pow(10, k), d * s, ScaledNum(f, e, x - k), ScaledDen(e, x - k));
  }

  lemma CrossScaled(n: int, d: int, s: int)
    ensures (n * s) * d == (d * s) * n
  {}

  lemma CrossComm(a: int, b: int)
    ensures a * b == b * a
  {}

  //// format_dragon ////

  /** digits * 10^exp is f * 2^e rounded at 10^p, half to even; exp is one higher after an all-nines carry. */
  ghost predicate CorrectlyRounded(digits: int, exp: int, f: nat, e: int, p: int, numDigits: nat)
    requires numDigits > 0
  {
    || (exp == p && IsNearestEven(digits, ScaledNum(f, e, p), ScaledDen(e, p)))
    || (exp == p + 1 && digits == Pow(10, numDigits - 1)
        && IsNearestEven(10 * digits, ScaledNum(f, e, p), ScaledDen(e, p)))
  }

  /** One division step: the quotient is a decimal digit and the remainder is below the denominator. */
  method NextDigit(f: nat, e: int, x: int, shift: nat, ghost i: nat, ghost num0: nat, ghost den: nat,
                   ghost total: nat, ghost digits: int, numerator: Bigint, denominator: Bigint)
    returns (digit: int)
    requires 1 <= shift <= 2 && InRange(f, e, x) && numerator != denominator
    requires DigitsReady(numerator, denominator, f, e, x, shift, i, num0, den)
    requires total == num0 * Pow(10, i) && Accounted(total, digits, numerator.Val(), den)
    modifies numerator
    ensures DigitsReady(numerator, denominator, f, e, x, shift, i, num0, den)
    ensures 0 <= digit <= 9 && numerator.Val() < den
    ensures total == (10 * digits + digit) * den + numerator.Val()
    ensures Accounted(10 * total, 10 * digits + digit, numerator.Val() * 10, den)
  {
    hide Pow, Bigint.Val, ScaledNum, ScaledDen, Accounted;
    ghost var before := numerator.Val();
    SmallQuotient(total, digits, before, den);
    StillUnequal(numerator, denominator, f, e, x, shift, i, num0, den);
    ZeroVal(numerator);
    if numerator.Normal() {
      FewLimbsMore(numerator, denominator);
    }
    digit := numerator.DivmodAssign(denominator);
    DigitStep(total, digits, before, den, digit, numerator.Val());
    ZeroVal(numerator);
    if digit == 0 {
      assert numerator.Val() == before;
    }
  }

  /** The digits 0..numDigits - 2 and the last one before rounding; numerator keeps the remainder. */
  method GenerateDigits(f: nat, e: int, x: int, shift: nat, numDigits: nat, numerator: Bigint, denominator: Bigint)
    returns (buf: seq<char>, digit: int)
    requires numDigits > 0 && 1 <= shift <= 2 && InRange(f, e, x)
    requires numerator != denominator && Prepared(numerator, denominator, f, e, x, shift)
    modifies numerator
    ensures numerator.Canonical() && denominator.Normal() && denominator.Val() == old(denominator.Val())
    ensures numerator.Val() == 0 ==> numerator.NumBigits() <= denominator.NumBigits()
    ensures |buf| == numDigits && AllDigits(buf[..numDigits - 1]) && 0 <= digit <= 9
    ensures old(numerator.Val()) * Pow(10, numDigits - 1)
         == (10 * DecVal(buf[..numDigits - 1]) + digit) * denominator.Val() + numerator.Val()
    ensures numerator.Val() < denominator.Val()
  {
    hide Pow, Bigint.Val, ScaledNum, ScaledDen, DecVal, Accounted;
    ghost var num0, den := numerator.Val(), denominator.Val();
    ghost var total := num0;
    buf := seq(numDigits, _ => '0');
    var i := 0;
    StartAccounting(f, e, x, shift);
    ZeroVal(numerator);
    assert buf[..0] == [];
    while i < numDigits - 1
      invariant 0 <= i < numDigits == |buf| && AllDigits(buf[..i])
      invariant DigitsReady(numerator, denominator, f, e, x, shift, i, num0, den)
      invariant total == num0 * Pow(10, i) && Accounted(total, DecVal(buf[..i]), numerator.Val(), den)
    {
      digit := NextDigit(f, e, x, shift, i, num0, den, total, DecVal(buf[..i]), numerator, denominator);
      ghost var before := buf;
      buf := buf[i := DigitChar(digit)];
      assert buf[..i] == before[..i];
      DecTake(buf, i);
      NextPower(num0, i);
      numerator.MultiplyUint32(10);
      ZeroVal(numerator);
      total := 10 * total;
      i := i + 1;
    }
    digit := NextDigit(f, e, x, shift, i, num0, den, total, DecVal(buf[..i]), numerator, denominator);
  }

  /** Carries a ':' out of the last place; reports whether it left the first one. */
  method PropagateCarry(buf0: seq<char>) returns (buf: seq<char>, bumped: bool)
    requires buf0 != [] && buf0[|buf0| - 1] == ':' && AllDigits(buf0[..|buf0| - 1])
    ensures |buf| == |buf0| && AllDigits(buf)
    ensures !bumped ==> DecVal(buf) == DecVal(buf0)
    ensures bumped ==> 10 * DecVal(buf) == DecVal(buf0) && DecVal(buf) == Pow(10, |buf| - 1)
  {
    buf := buf0;
    var i := |buf| - 1;
    while i > 0 && buf[i] == ':'
      invariant 0 <= i < |buf| == |buf0| && DecVal(buf) == DecVal(buf0)
      invariant forall k :: 0 <= k < i ==> IsDigit(buf[k])
      invariant IsDigit(buf[i]) || buf[i] == ':'
      invariant forall k :: i < k < |buf| ==> buf[k] == '0'
    {
      CarryStep(buf, i);
      buf := buf[i := '0'];
      buf := buf[i - 1 := DigitChar(Digit(buf[i - 1]) + 1)];
      i := i - 1;
    }
    bumped := buf[0] == ':';
    if bumped {
      DecZeros(buf);
      buf := buf[0 := '1'];
      DecZeros(buf);
    }
  }

  /** The last place, incremented when the remainder asks for it; reports a carry out of the first place. */
  method StoreLastDigit(buf0: seq<char>, digit0: nat, up: bool) returns (buf: seq<char>, bumped: bool)
    requires buf0 != [] && AllDigits(buf0[..|buf0| - 1]) && digit0 <= 9
    ensures |buf| == |buf0| && AllDigits(buf)
    ensures var rounded := 10 * DecVal(buf0[..|buf0| - 1]) + digit0 + (if up then 1 else 0);
            && (!bumped ==> DecVal(buf) == rounded)
            && (bumped ==> 10 * DecVal(buf) == rounded && DecVal(buf) == Pow(10, |buf| - 1))
  {
    hide Pow, DecVal;
    buf, bumped := buf0, false;
    var digit := digit0;
    if up {
      if digit == 9 {
        LastPlace(buf, ':');
        buf := buf[|buf| - 1 := ':'];
        buf, bumped := PropagateCarry(buf);
        return;
      }
      digit := digit + 1;
    }
    LastPlace(buf, DigitChar(digit));
    buf := buf[|buf| - 1 := DigitChar(digit)];
  }

  /**
   The fixed-digit branch of format_dragon for f * 2^e and its decimal exponent exp10. With at least
   one digit asked for, the printed digits times 10^exp is the value correctly rounded, half to even.
   */
  method FormatDragon(f: nat, e: int, isPredecessorCloser: bool, numDigits: nat, buf0: seq<char>, exp10: int)
    returns (buf: seq<char>, exp: int)
    requires InRange(f, e, exp10) && -0x4000_0000 < exp10 < 0x4000_0000
    requires f * (if isPredecessorCloser then 4 else 2) < 0x1_0000_0000_0000_0000
    ensures numDigits > 0 ==> |buf| == numDigits && AllDigits(buf)
    ensures numDigits > 0 ==> CorrectlyRounded(DecVal(buf), exp, f, e, exp10 - numDigits + 1, numDigits)
    ensures numDigits > 0 && ScaledNum(f, e, exp10) >= ScaledDen(e, exp10) ==> buf[0] != '0'
    ensures numDigits == 0 ==> |buf| == |buf0| + 1 && buf[..|buf0|] == buf0 && exp == exp10 + 1
    ensures numDigits == 0 ==> (buf[|buf0|] == '0' || buf[|buf0|] == '1')
    ensures numDigits == 0 ==> IsNearestEven(Digit(buf[|buf0|]), ScaledNum(f, e, exp), ScaledDen(e, exp))
  {
    hide Pow, Bigint.Val, ScaledNum, ScaledDen, IsNearestEven, CorrectlyRounded, DecVal;
    var shift: nat := if isPredecessorCloser then 2 else 1;
    PowOne(2);
    var numerator, denominator := ScaleOperands(f, e, exp10, shift);
    ZeroVal(numerator);
    exp := exp10 - (numDigits - 1);
    ghost var num0, den := numerator.Val(), denominator.Val();
    if numDigits == 0 {
      denominator.MultiplyUint32(10);
      StartAccounting(f, e, exp10, shift);
      var order := AddCompare(numerator, numerator, denominator);
      RoundToNothing(num0, den, order > 0);
      UnscaledZero(f, e, exp10, shift, if order > 0 then 1 else 0);
      buf := buf0 + [if order > 0 then '1' else '0'];
      return;
    }
    var digit;
    buf, digit := GenerateDigits(f, e, exp10, shift, numDigits, numerator, denominator);
    var result := AddCompare(numerator, numerator, denominator);
    var up := result > 0 || (result == 0 && digit % 2 != 0);
    ghost var head := DecVal(buf[..numDigits - 1]);
    ghost var rounded := 10 * head + digit + (if up then 1 else 0);
    RoundLast(num0 * Pow(10, numDigits - 1), head, digit, numerator.Val(), den, up);
    Unscaled(f, e, exp10, shift, numDigits - 1, rounded);
    LeadingDigit(num0, den, numDigits - 1, rounded, f, e, exp10, shift);
    var bumped;
    buf, bumped := StoreLastDigit(buf, digit, up);
    if bumped {
      exp := exp + 1;
    }
    Conclude(buf, exp, rounded, f, e, exp10, numDigits);
  }

  lemma LastPlace(buf: seq<char>, c: char)
    requires buf != []
    ensures DecVal(buf[|buf| - 1 := c]) == 10 * DecVal(buf[..|buf| - 1]) + Digit(c)
    ensures buf[|buf| - 1 := c][..|buf| - 1] == buf[..|buf| - 1]
  {
    assert buf[|buf| - 1 := c][..|buf| - 1] == buf[..|buf| - 1];
  }

  /** A value of at least 10^exp10 keeps all its significant digits. */
  lemma LeadingDigit(num0: nat, den: nat, k: nat, q: int, f: nat, e: int, x: int, shift: nat)
    requires num0 == ScaledNum(f, e, x) * Pow(2, shift) && den == ScaledDen(e, x) * Pow(2, shift)
    requires IsNearestEven(q, num0 * Pow(10, k), den)
    ensures ScaledNum(f, e, x) >= ScaledDen(e, x) ==> q >= Pow(10, k)
  {
    hide Pow, ScaledNum, ScaledDen;
    if ScaledNum(f, e, x) >= ScaledDen(e, x) {
      Monotone(ScaledDen(e, x), ScaledNum(f, e, x), Pow(2, shift));
      MulPositive(ScaledDen(e, x), Pow(2, shift));
      NearestAtLeast(q, num0, den, Pow(10, k));
    }
  }

  lemma NearestAtLeast(q: int, n: nat, m: nat, k: nat)
    requires n >= m > 0 && IsNearestEven(q, n * k, m)
    ensures q >= k
  {
    Monotone(m, n, k);
    if q < k {
      Monotone(q, k - 1, m);
      Distribute(k, 1, m);
    }
  }

  lemma Conclude(buf: seq<char>, exp: int, q: int, f: nat, e: int, x: int, numDigits: nat)
    requires |buf| == numDigits > 0 && AllDigits(buf)
    requires IsNearestEven(q, ScaledNum(f, e, x - (numDigits - 1)), ScaledDen(e, x - (numDigits - 1)))
    requires ScaledNum(f, e, x) >= ScaledDen(e, x) ==> q >= Pow(10, numDigits - 1)
    requires || (exp == x - (numDigits - 1) && DecVal(buf) == q)
             || (exp == x - (numDigits - 1) + 1 && 10 * DecVal(buf) == q && DecVal(buf) == Pow(10, numDigits - 1))
    ensures CorrectlyRounded(DecVal(buf), exp, f, e, x - numDigits + 1, numDigits)
    ensures ScaledNum(f, e, x) >= ScaledDen(e, x) ==> buf[0] != '0'
  {
    hide Pow, ScaledNum, ScaledDen, IsNearestEven, DecVal;
    DecBounds(buf);
    assert x - (numDigits - 1) == x - numDigits + 1;
  }

  lemma UnscaledZero(f: nat, e: int, x: int, shift: nat, q: int)
    requires IsNearestEven(q, ScaledNum(f, e, x) * Pow(2, shift), 10 * (ScaledDen(e, x) * Pow(2, shift)))
    ensures IsNearestEven(q, ScaledNum(f, e, x + 1), ScaledDen(e, x + 1))
  {
    hide Pow, ScaledNum, ScaledDen;
    var n, d, s := ScaledNum(f, e, x), ScaledDen(e, x), Pow(2, shift);
    var n', d' := ScaledNum(f, e, x + 1), ScaledDen(e, x + 1);
    PowOne(10);
    CrossComm(n', d');
    ScaleShift(f, e, x + 1, 1, n', d');
    TenfoldCross(n, d, n', d', s);
    MulPositive(d, s);
    NearestEvenRatio(q, n * s, 10 * (d * s), n', d');
  }

  lemma TenfoldCross(n: int, d: int, n': int, d': int, s: int)
    requires (n' * 10) * d == d' * n
    ensures (n * s) * d' == n' * (10 * (d * s))
  {
    calc {
      (n * s) * d';
    ==  { SwapLast(n, s, d'); }
      (n * d') * s;
    ==  { CrossComm(n, d'); }
      ((n' * 10) * d) * s;
    ==  { Associate(n' * 10, d, s); Associate(n', 10, d * s); }
      n' * (10 * (d * s));
    }
  }
}
