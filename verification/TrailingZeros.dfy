/** Dragonbox's remove_trailing_zeros for both word sizes. */
module TrailingZeros {
  import opened Powers
  import opened ModularInverse

  /** Number of trailing zero bits. */
  function Ctz(n: nat): nat
    requires n > 0
  {
    if n % 2 == 1 then 0 else 1 + Ctz(n / 2)
  }

  /** float_info<T>::max_trailing_zeros */
  const MAX_TRAILING_ZEROS_FLOAT := 7
  const MAX_TRAILING_ZEROS_DOUBLE := 16

  /** s zeros were removed from n0 leaving n, and no more could be within the cap. */
  predicate Stripped(n0: nat, n: nat, s: nat, cap: nat)
  {
    n0 == n * Pow(10, s) && s <= cap && (s == cap || n % 10 != 0)
  }

  /** The low t bits of n are zero. */
  predicate TwoDivides(t: nat, n: nat)
  {
    t == 0 || (n % 2 == 0 && TwoDivides(t - 1, n / 2))
  }

  /** Shifting out zero bits is exact division. */
  lemma {:induction false} ShiftExact(t: nat, n: nat)
    requires TwoDivides(t, n)
    ensures n == (n / Pow(2, t)) * Pow(2, t)
  {
    if t > 0 {
      ShiftExact(t - 1, n / 2);
      var p, q := Pow(2, t - 1), (n / 2) / Pow(2, t - 1);
      Associate(2, q, p);
      Associate(q, 2, p);
      DivModUnique(n, 2 * p, q, 0);
    }
  }

  /** n >> s */
  function ShiftRight(n: nat, s: nat): nat { n / Pow(2, s) }

  lemma {:induction false} CtzDivides(n: nat)
    requires n > 0
    ensures TwoDivides(Ctz(n), n) && !TwoDivides(Ctz(n) + 1, n)
  {
    if n % 2 == 0 {
      CtzDivides(n / 2);
    }
  }

  lemma {:induction false} TwoDividesLess(s: nat, t: nat, n: nat)
    requires s <= t && TwoDivides(t, n)
    ensures TwoDivides(s, n)
  {
    if s > 0 {
      TwoDividesLess(s - 1, t - 1, n / 2);
    }
  }

  lemma FiveTimesHalf(y: nat)
    ensures (5 * y) % 2 == y % 2
    ensures y % 2 == 0 ==> (5 * y) / 2 == 5 * (y / 2)
  {
    var h := y / 2;
    if y % 2 == 0 {
      DivModUnique(5 * y, 2, 5 * h, 0);
    } else {
      DivModUnique(5 * y, 2, 5 * h + 2, 1);
    }
  }

  /** Multiplying or dividing by five keeps the factors of two. */
  lemma {:induction false} TwoDividesFifth(t: nat, y: nat)
    ensures TwoDivides(t, 5 * y) <==> TwoDivides(t, y)
  {
    if t > 0 {
      FiveTimesHalf(y);
      if y % 2 == 0 {
        TwoDividesFifth(t - 1, y / 2);
      }
    }
  }

  lemma {:induction false} TwoDividesFives(t: nat, y: nat, k: nat)
    ensures TwoDivides(t, y * Pow(5, k)) <==> TwoDivides(t, y)
    decreases k
  {
    if k > 0 {
      Associate(y, 5, Pow(5, k - 1));
      TwoDividesFives(t, 5 * y, k - 1);
      TwoDividesFifth(t, y);
    }
  }

  lemma {:induction false} TwoDividesDouble(t: nat, y: nat, s: nat)
    ensures TwoDivides(s + t, y * Pow(2, s)) <==> TwoDivides(t, y)
    decreases s
  {
    var n := y * Pow(2, s);
    if s == 0 {
      assert n == y;
    } else {
      var half := y * Pow(2, s - 1);
      TwoDividesDouble(t, y, s - 1);
      PulledOut(y, Pow(2, s - 1));
      DivModUnique(n, 2, half, 0);
      assert TwoDivides(s + t, n) <==> TwoDivides(s - 1 + t, half);
    }
  }

  lemma PulledOut(y: int, p: int)
    ensures y * (2 * p) == (y * p) * 2 + 0
  {
    Associate(y, p, 2);
  }

  lemma DoubleModFive(y: nat)
    ensures (2 * y) % 5 == 0 <==> y % 5 == 0
  {
    var q, r := y / 5, y % 5;
    if r < 3 {
      DivModUnique(2 * y, 5, 2 * q, 2 * r);
    } else {
      DivModUnique(2 * y, 5, 2 * q + 1, 2 * r - 5);
    }
  }

  /** Five divides a product with a power of two only through the other factor. */
  lemma {:induction false} FiveAndTwos(y: nat, s: nat)
    ensures (y * Pow(2, s)) % 5 == 0 <==> y % 5 == 0
    decreases s
  {
    if s > 0 {
      var p := Pow(2, s - 1);
      assert y * Pow(2, s) == (2 * y) * p by {
        Associate(y, 2, p);
      }
      FiveAndTwos(2 * y, s - 1);
      DoubleModFive(y);
    }
  }

  /**
   Common end of every branch: m is n0 without its fives, and shifting the same number of twos out
   of it removes the zeros.
   */
  lemma Finish(n0: nat, m: nat, s: nat, t: nat, cap: nat)
    requires n0 > 0 && t == (if Ctz(n0) > cap then cap else Ctz(n0))
    requires n0 == m * Pow(5, s) && s <= t && (s == t || m % 5 != 0)
    ensures Stripped(n0, ShiftRight(m, s), s, cap)
  {
    hide Pow, TwoDivides, Ctz;
    var n := m / Pow(2, s);
    CtzDivides(n0);
    TwoDividesLess(s, Ctz(n0), n0);
    TwoDividesFives(s, m, s);
    ShiftExact(s, m);
    PowProduct(2, 5, s);
    Associate(n, Pow(2, s), Pow(5, s));
    if s < cap && n % 10 == 0 {
      NotAllStripped(n0, m, n, s);
    }
  }

  /** A quotient still divisible by ten has both another five and another two. */
  lemma NotAllStripped(n0: nat, m: nat, n: nat, s: nat)
    requires n0 == m * Pow(5, s) && m == n * Pow(2, s) && n % 10 == 0
    ensures m % 5 == 0 && TwoDivides(s + 1, n0)
  {
    hide Pow;
    FiveAndTwos(n, s);
    assert TwoDivides(1, n);
    TwoDividesDouble(1, n, s);
    TwoDividesFives(s + 1, m, s);
  }

  const MOD_INV1: nat := 0xcccccccd
  const MAX_QUOTIENT1: nat := 0x33333333
  const MOD_INV2: nat := 0xc28f5c29
  const MAX_QUOTIENT2: nat := 0x0a3d70a3
  const MOD_INV8: nat := 0xc767074b22e90e21
  const MAX_QUOTIENT8: nat := 0x00002af31dc46118

  /** n * inv in 32-bit and in 64-bit unsigned arithmetic. */
  function Times32(n: nat, inv: nat): nat { (n * inv) % W32 }
  function Times64(n: nat, inv: nat): nat { (n * inv) % W64 }

  /** A successful test leaves the fifth; a failed one means five does not divide. */
  lemma FiveOut(n: nat)
    requires n < W32
    ensures Times32(n, MOD_INV1) <= MAX_QUOTIENT1 ==> n == 5 * Times32(n, MOD_INV1)
    ensures Times32(n, MOD_INV1) > MAX_QUOTIENT1 ==> n % 5 != 0
    ensures Times32(n, MOD_INV1) < W32
  {
    InverseTest(n, 5, W32, MOD_INV1, MAX_QUOTIENT1);
  }

  lemma TwentyFiveOut(n: nat)
    requires n < W32
    ensures Times32(n, MOD_INV2) <= MAX_QUOTIENT2 ==> n == 25 * Times32(n, MOD_INV2)
    ensures Times32(n, MOD_INV2) > MAX_QUOTIENT2 ==> n % 25 != 0
    ensures Times32(n, MOD_INV2) < W32
  {
    InverseTest(n, 25, W32, MOD_INV2, MAX_QUOTIENT2);
  }

  lemma EightFivesOut(n: nat)
    requires n < W64
    ensures Times64(n, MOD_INV8) <= MAX_QUOTIENT8 ==> n == 390625 * Times64(n, MOD_INV8)
    ensures Times64(n, MOD_INV8) > MAX_QUOTIENT8 ==> n % 390625 != 0
  {
    InverseTest(n, 390625, W64, MOD_INV8, MAX_QUOTIENT8);
  }

  lemma MoreFives(n0: nat, n: nat, s: nat, q: nat)
    requires n0 == n * Pow(5, s)
    ensures n == 5 * q ==> n0 == q * Pow(5, s + 1)
    ensures n == 25 * q ==> n0 == q * Pow(5, s + 2)
  {
    assert Pow(5, s + 2) == 25 * Pow(5, s);
    Associate(q, 5, Pow(5, s));
    Associate(q, 25, Pow(5, s));
  }

  lemma FifthOfNonTwentyFifth(n: nat, q: nat)
    requires n == 5 * q
    ensures n % 25 != 0 ==> q % 5 != 0
  {}

  method RemoveTrailingZeros32(n0: nat) returns (n: nat, s: nat)
    requires 0 < n0 < W32
    ensures Stripped(n0, n, s, MAX_TRAILING_ZEROS_FLOAT)
  {
    hide Pow, Ctz, Stripped, Times32, ShiftRight;
    n := n0;
    var t := Ctz(n);
    if t > MAX_TRAILING_ZEROS_FLOAT {
      t := MAX_TRAILING_ZEROS_FLOAT;
    }
    s := 0;
    PowOne(5);
    ghost var exhausted := false;
    while s < t - 1
      invariant s <= t && n < W32 && n0 == n * Pow(5, s) && !exhausted
    {
      TwentyFiveOut(n);
      MoreFives(n0, n, s, Times32(n, MOD_INV2));
      if Times32(n, MOD_INV2) > MAX_QUOTIENT2 {
        exhausted := true;
        break;
      }
      n := Times32(n, MOD_INV2);
      s := s + 2;
    }
    assert exhausted ==> n % 25 != 0;
    FiveOut(n);
    MoreFives(n0, n, s, Times32(n, MOD_INV1));
    if s < t && Times32(n, MOD_INV1) <= MAX_QUOTIENT1 {
      FifthOfNonTwentyFifth(n, Times32(n, MOD_INV1));
      n := Times32(n, MOD_INV1);
      s := s + 1;
    }
    assert s == t || n % 5 != 0;
    Finish(n0, n, s, t, MAX_TRAILING_ZEROS_FLOAT);
    n := ShiftRight(n, s);
  }

  lemma ShiftDown(q: nat, s: nat)
    requires s >= 8
    ensures ShiftRight(256 * q, s) == ShiftRight(q, s - 8)
  {
    hide Pow;
    PowAdd(2, 8, s - 8);
    assert Pow(2, 8) == 256 by { SmallPower(); }
    QuotientOfMultiple(q, Pow(2, s - 8), q / Pow(2, s - 8), q % Pow(2, s - 8));
  }

  lemma SmallPower()
    ensures Pow(2, 8) == 256
  {}

  lemma QuotientOfMultiple(q: nat, p: nat, h: nat, r: nat)
    requires p > 0 && h == q / p && r == q % p
    ensures (256 * q) / (256 * p) == h
  {
    DivMod(q, p);
    Associate(h, 256, p);
    Associate(256, h, p);
    Distribute(h * p, r, 256);
    DivModUnique(256 * q, 256 * p, h, 256 * r);
  }

  lemma EightZerosOut(n0: nat, qc: nat)
    requires 0 < n0 < W32 * 100000000 && n0 == 390625 * qc && Ctz(n0) >= 8
    ensures qc == 256 * (qc / 256) && qc / 256 < W32
    ensures n0 == (256 * (qc / 256)) * Pow(5, 8)
  {
    assert Pow(5, 8) == 390625 && Pow(2, 8) == 256;
    CtzDivides(n0);
    TwoDividesLess(8, Ctz(n0), n0);
    TwoDividesFives(8, qc, 8);
    ShiftExact(8, qc);
  }

  /** k fives have been divided out of the low eight digits. */
  ghost predicate Peeled(n0: nat, quotient: nat, remainder: nat, k: nat, t: nat)
  {
    n0 == quotient * 100000000 + remainder * Pow(5, k) && k <= t && remainder < W32
  }

  lemma PeelOne(n0: nat, quotient: nat, remainder: nat, k: nat, t: nat)
    requires Peeled(n0, quotient, remainder, k, t) && k < t
    requires Times32(remainder, MOD_INV1) <= MAX_QUOTIENT1
    ensures Peeled(n0, quotient, Times32(remainder, MOD_INV1), k + 1, t)
  {
    FiveOut(remainder);
    Associate(Times32(remainder, MOD_INV1), 5, Pow(5, k));
  }

  /** Where the division of the low digits stops, the whole number has lost all its zeros. */
  lemma LowZeros(n0: nat, quotient: nat, remainder: nat, k: nat, t: nat)
    requires n0 > 0 && t == (if Ctz(n0) > MAX_TRAILING_ZEROS_DOUBLE then MAX_TRAILING_ZEROS_DOUBLE else Ctz(n0))
    requires Peeled(n0, quotient, remainder, k, t) && k < 8
    requires || k == t || Times32(remainder, MOD_INV1) > MAX_QUOTIENT1
             || (k == 7 && (t < 8 || n0 % 390625 != 0))
    ensures Stripped(n0, ShiftRight(remainder, k) + quotient * Pow(10, 8 - k), k, MAX_TRAILING_ZEROS_DOUBLE)
  {
    hide Pow, Ctz, Stripped, Times32, ShiftRight;
    FiveOut(remainder);
    var w := Pow(10, 8 - k);
    var m := remainder + (quotient * w) * Pow(2, k);
    Weights(quotient, k);
    Distribute(remainder, (quotient * w) * Pow(2, k), Pow(5, k));
    FivesOfSum(n0, remainder, quotient, k, m);
    Finish(n0, m, k, t, MAX_TRAILING_ZEROS_DOUBLE);
    ShiftSum(remainder, quotient * w, k);
  }

  lemma Weights(quotient: nat, k: nat)
    requires k < 8
    ensures ((quotient * Pow(10, 8 - k)) * Pow(2, k)) * Pow(5, k) == quotient * 100000000
  {
    PowProduct(2, 5, k);
    PowAdd(10, 8 - k, k);
    assert Pow(10, 8) == 100000000;
    WeightsAlgebra(quotient, Pow(10, 8 - k), Pow(2, k), Pow(5, k));
  }

  lemma WeightsAlgebra(q: int, w: int, a: int, b: int)
    ensures ((q * w) * a) * b == q * (w * (a * b))
  {
    Associate(q * w, a, b);
    Associate(q, w, a * b);
  }

  lemma FivesOfSum(n0: nat, remainder: nat, quotient: nat, k: nat, m: nat)
    requires k < 8 && m == remainder + (quotient * Pow(10, 8 - k)) * Pow(2, k) && n0 == m * Pow(5, k)
    ensures m % 5 == 0 <==> remainder % 5 == 0
    ensures k == 7 && m % 5 == 0 ==> n0 % 390625 == 0
  {
    hide Pow;
    var v := Pow(10, 7 - k);
    PowAdd(10, 1, 7 - k);
    PowOne(10);
    TenFactor(quotient, v, Pow(2, k), m - remainder);
    SameModFive(m, remainder, 2 * (quotient * v * Pow(2, k)));
    if k == 7 && m % 5 == 0 {
      SevenFives();
      assert n0 == 390625 * (m / 5);
    }
  }

  lemma SameModFive(m: nat, r: nat, x: nat)
    requires m == r + 5 * x
    ensures m % 5 == r % 5
  {}

  lemma SevenFives()
    ensures Pow(5, 7) == 78125
  {}

  lemma TenFactor(q: nat, v: nat, p: nat, x: int)
    requires x == (q * (10 * v)) * p
    ensures x == 5 * (2 * (q * v * p))
  {
    Associate(q, 10, v);
    Associate(10, q, v);
    Associate(10, q * v, p);
  }

  lemma ShiftSum(r: nat, b: nat, k: nat)
    ensures ShiftRight(r + b * Pow(2, k), k) == ShiftRight(r, k) + b
  {
    var p := Pow(2, k);
    Distribute(r / p, b, p);
    DivModUnique(r + b * p, p, r / p + b, r % p);
  }

  lemma Unpeeled(n0: nat, quotient: nat, remainder: nat, t: nat)
    requires n0 > 0 && t == (if Ctz(n0) > MAX_TRAILING_ZEROS_DOUBLE then MAX_TRAILING_ZEROS_DOUBLE else Ctz(n0))
    requires Peeled(n0, quotient, remainder, 0, t) && (t == 0 || Times32(remainder, MOD_INV1) > MAX_QUOTIENT1)
    ensures Stripped(n0, n0, 0, MAX_TRAILING_ZEROS_DOUBLE)
  {
    LowZeros(n0, quotient, remainder, 0, t);
    assert Pow(10, 8) == 100000000;
  }

  lemma TenPowers()
    ensures Pow(10, 1) == 10 && Pow(10, 2) == 100 && Pow(10, 3) == 1000 && Pow(10, 4) == 10000
    ensures Pow(10, 5) == 100000 && Pow(10, 6) == 1000000 && Pow(10, 7) == 10000000
  {}

  /** The range is the one in which the quotient by 10^8 fits 32 bits. */
  method RemoveTrailingZeros64(n0: nat) returns (n: nat, s: nat)
    requires 0 < n0 < W32 * 100000000
    ensures Stripped(n0, n, s, MAX_TRAILING_ZEROS_DOUBLE)
  {
    hide Pow, Ctz, Stripped, Times32, Times64, ShiftRight, Peeled;
    var t := Ctz(n0);
    if t > MAX_TRAILING_ZEROS_DOUBLE {
      t := MAX_TRAILING_ZEROS_DOUBLE;
    }
    EightFivesOut(n0);
    if t >= 8 {
      var quotientCandidate := Times64(n0, MOD_INV8);
      if quotientCandidate <= MAX_QUOTIENT8 {
        n, s := StripLargeMultiple(n0, t, quotientCandidate);
        return;
      }
    }
    var quotient := (n0 / 100000000) % W32;
    var remainder := (n0 - 100000000 * quotient) % W32;
    PeelStart(n0, quotient, remainder, t);
    TenPowers();
    if t == 0 || Times32(remainder, MOD_INV1) > MAX_QUOTIENT1 {
      Unpeeled(n0, quotient, remainder, t);
      return n0, 0;
    }
    PeelOne(n0, quotient, remainder, 0, t);
    remainder := Times32(remainder, MOD_INV1);
    if t == 1 || Times32(remainder, MOD_INV1) > MAX_QUOTIENT1 {
      LowZeros(n0, quotient, remainder, 1, t);
      return ShiftRight(remainder, 1) + quotient * 10000000, 1;
    }
    PeelOne(n0, quotient, remainder, 1, t);
    remainder := Times32(remainder, MOD_INV1);
    if t == 2 || Times32(remainder, MOD_INV1) > MAX_QUOTIENT1 {
      LowZeros(n0, quotient, remainder, 2, t);
      return ShiftRight(remainder, 2) + quotient * 1000000, 2;
    }
    PeelOne(n0, quotient, remainder, 2, t);
    remainder := Times32(remainder, MOD_INV1);
    if t == 3 || Times32(remainder, MOD_INV1) > MAX_QUOTIENT1 {
      LowZeros(n0, quotient, remainder, 3, t);
      return ShiftRight(remainder, 3) + quotient * 100000, 3;
    }
    PeelOne(n0, quotient, remainder, 3, t);
    remainder := Times32(remainder, MOD_INV1);
    if t == 4 || Times32(remainder, MOD_INV1) > MAX_QUOTIENT1 {
      LowZeros(n0, quotient, remainder, 4, t);
      return ShiftRight(remainder, 4) + quotient * 10000, 4;
    }
    PeelOne(n0, quotient, remainder, 4, t);
    remainder := Times32(remainder, MOD_INV1);
    if t == 5 || Times32(remainder, MOD_INV1) > MAX_QUOTIENT1 {
      LowZeros(n0, quotient, remainder, 5, t);
      return ShiftRight(remainder, 5) + quotient * 1000, 5;
    }
    PeelOne(n0, quotient, remainder, 5, t);
    remainder := Times32(remainder, MOD_INV1);
    if t == 6 || Times32(remainder, MOD_INV1) > MAX_QUOTIENT1 {
      LowZeros(n0, quotient, remainder, 6, t);
      return ShiftRight(remainder, 6) + quotient * 100, 6;
    }
    PeelOne(n0, quotient, remainder, 6, t);
    remainder := Times32(remainder, MOD_INV1);
    LowZeros(n0, quotient, remainder, 7, t);
    return ShiftRight(remainder, 7) + quotient * 10, 7;
  }

  lemma PeelStart(n0: nat, quotient: nat, remainder: nat, t: nat)
    requires n0 < W32 * 100000000
    requires quotient == (n0 / 100000000) % W32 && remainder == (n0 - 100000000 * quotient) % W32
    ensures Peeled(n0, quotient, remainder, 0, t)
  {}

  lemma ShiftedFives(q: nat)
    ensures (256 * q) % 5 == q % 5
  {
    assert 256 * q == 5 * (51 * q) + q;
  }

  /** The branch for multiples of 10^8: only the quotient is left to strip. */
  method StripLargeMultiple(n0: nat, t: nat, quotientCandidate: nat) returns (n: nat, s: nat)
    requires 0 < n0 < W32 * 100000000 && n0 == 390625 * quotientCandidate
    requires t == (if Ctz(n0) > MAX_TRAILING_ZEROS_DOUBLE then MAX_TRAILING_ZEROS_DOUBLE else Ctz(n0)) && t >= 8
    ensures Stripped(n0, n, s, MAX_TRAILING_ZEROS_DOUBLE)
  {
    hide Pow, Ctz, Stripped, Times32, ShiftRight;
    EightZerosOut(n0, quotientCandidate);
    var quotient := (quotientCandidate / 256) % W32;
    s := 8;
    while s < t
      invariant 8 <= s <= t && quotient < W32 && n0 == (256 * quotient) * Pow(5, s)
    {
      FiveOut(quotient);
      if Times32(quotient, MOD_INV1) > MAX_QUOTIENT1 {
        break;
      }
      MoreFives(n0, 256 * quotient, s, 256 * Times32(quotient, MOD_INV1));
      quotient := Times32(quotient, MOD_INV1);
      s := s + 1;
    }
    ShiftedFives(quotient);
    Finish(n0, 256 * quotient, s, t, MAX_TRAILING_ZEROS_DOUBLE);
    ShiftDown(quotient, s);
    n := ShiftRight(quotient, s - 8);
  }
}
