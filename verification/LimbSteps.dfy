/** One-limb steps of the bigint loops, as facts about limb sequences. */
module LimbSteps {
  import opened Powers
  import opened Limbs

  lemma AlignedFitsLimbs(s: seq<Bigit>, o: seq<Bigit>, d: nat)
    requires o != [] && o[|o| - 1] != 0 && LimbVal(s) >= LimbVal(o) * Pow(BASE, d)
    ensures d + |o| <= |s|
  {
    hide Pow, LimbVal;
    LimbValBound(s);
    if d + |o| > |s| {
      LimbValTop(o);
      WeightedAtLeast(Pow(BASE, |o| - 1), LimbVal(o), Pow(BASE, d), LimbVal(s));
      PowAdd(BASE, |o| - 1, d);
      PowMonotone(BASE, |s|, d + |o| - 1);
    }
  }

  lemma WeightedAtLeast(x: int, y: int, k: int, z: int)
    requires x <= y && k >= 0 && z >= y * k
    ensures z >= x * k
  {
    Monotone(x, y, k);
  }

  /** O is subtracted from the first i limbs of s, up to a borrow; the limbs above are untouched. */
  ghost predicate SubtractedBelow(r: seq<Bigit>, s: seq<Bigit>, i: nat, O: nat, borrow: Bigit)
  {
    && i <= |r| == |s| && r[i..] == s[i..]
    && LimbVal(r[..i]) + O == LimbVal(s[..i]) + (if borrow == 0 then 0 else Pow(BASE, i))
  }

  lemma SubtractStart(s: seq<Bigit>, o: seq<Bigit>, d: nat)
    requires d <= |s|
    ensures SubtractedBelow(s, s, d, LimbVal(o[..0]) * Pow(BASE, d), 0)
  {}

  lemma SubtractStep(before: seq<Bigit>, after: seq<Bigit>, s: seq<Bigit>, o: seq<Bigit>,
                     d: nat, j: nat, c: Bigit, c': Bigit)
    requires j < |o| && c <= 1 && c' <= 1
    requires SubtractedBelow(before, s, d + j, LimbVal(o[..j]) * Pow(BASE, d), c)
    requires d + j < |before| && |after| == |before| && after == before[d + j := after[d + j]]
    requires after[d + j] - BASE * c' == before[d + j] - o[j] - c
    ensures SubtractedBelow(after, s, d + j + 1, LimbVal(o[..j + 1]) * Pow(BASE, d), c')
  {
    var i := d + j;
    assert after[..i] == before[..i];
    assert before[i] == before[i..][0] == s[i];
    assert after[i + 1..] == before[i..][1..] == s[i + 1..];
    LimbValTake(after, i);
    LimbValTake(s, i);
    LimbValTake(o, j);
    PowAdd(BASE, j, d);
    SubtractAlgebra(LimbVal(before[..i]), LimbVal(o[..j]), Pow(BASE, d), LimbVal(s[..i]), c, Pow(BASE, i),
                    after[i], c', s[i], o[j], Pow(BASE, j));
  }

  lemma SubtractAlgebra(A: int, L: int, D: int, S: int, c: int, P: int, a: int, c': int, s: int, o: int, J: int)
    requires P == J * D
    requires 0 <= c <= 1 && 0 <= c' <= 1
    requires A + L * D == S + (if c == 0 then 0 else P)
    requires a - BASE * c' == s - o - c
    ensures (A + a * P) + (L + o * J) * D == (S + s * P) + (if c' == 0 then 0 else BASE * P)
  {
    Distribute(L, o * J, D);
    Associate(o, J, D);
    LimbBalance(a, c', s, o, c, P);
  }

  lemma LimbBalance(a: int, c': int, s: int, o: int, c: int, P: int)
    requires 0 <= c <= 1 && 0 <= c' <= 1
    requires a - BASE * c' == s - o - c
    ensures a * P + o * P + (if c == 0 then 0 else P) == s * P + (if c' == 0 then 0 else BASE * P)
  {
    Distribute(a, o, P);
    if c == 0 && c' == 0 {
    } else if c == 0 {
      Distribute(s, BASE, P);
    } else if c' == 0 {
      Distribute(a + o, 1, P);
    } else {
      Distribute(a + o, 1, P);
      Distribute(s, BASE, P);
    }
  }

  /**
   The trailing borrow loop of subtract_aligned comes out right: no borrow leaves the limbs that
   face the subtrahend, or the one limb it decrements is there and nonzero.
   */
  predicate BorrowStops(s: seq<Bigit>, o: seq<Bigit>, d: nat)
  {
    var i := d + |o|;
    i >= |s| || s[i] != 0 || LimbVal(s[..i]) >= LimbVal(o) * Pow(BASE, d)
  }

  /** 2^64 - 1 cannot be computed: the borrow has to cross the zero limb above the subtrahend. */
  lemma BorrowCanFail()
    ensures LimbVal([0, 0, 1]) >= LimbVal([1]) * Pow(BASE, 0)
    ensures !BorrowStops([0, 0, 1], [1], 0)
  {
    LimbValOne(1);
    LimbValOne(0);
    assert [0, 0, 1][..1] == [0];
    assert [0, 0, 1][1..] == [0, 1] && [0, 1][1..] == [1];
  }

  /** The trailing loop never advances, so it decrements one limb until the borrow clears. */
  predicate TrailingLimb(start: Bigit, b0: Bigit, limb: Bigit, borrow: Bigit)
  {
    || (borrow == b0 && limb == start)
    || (b0 == 1 && start == 0 && borrow == 1 && limb == BASE - 1)
    || (b0 == 1 && start == 0 && borrow == 0 && limb == BASE - 2)
    || (b0 == 1 && start > 0 && borrow == 0 && limb == start - 1)
  }

  /** Two numbers that differ only in limb i differ by the limbs' difference at weight BASE^i. */
  lemma LimbValUpdate(s: seq<Bigit>, r: seq<Bigit>, i: nat, delta: int, w: int)
    requires i < |s| && |r| == |s| && r == s[i := r[i]]
    requires s[i] + delta == r[i] && w == delta * Pow(BASE, i)
    ensures LimbVal(r) == LimbVal(s) + w
  {
    LimbValTake(s, i);
    LimbValTake(r, i);
    assert r[..i] == s[..i];
    assert r[i + 1..] == s[i + 1..];
    UpperLimbsKept(r, s, i + 1);
    WeightedSum(s[i], delta, r[i], Pow(BASE, i));
  }

  lemma WeightedSum(x: int, y: int, z: int, k: int)
    requires x + y == z
    ensures z * k == x * k + y * k
  {
    Distribute(x, y, k);
  }

  /** The borrow left after the facing limbs tells whether they were too small. */
  lemma BorrowMeaning(low: seq<Bigit>, s: seq<Bigit>, i: nat, O: nat, b0: Bigit)
    requires SubtractedBelow(low, s, i, O, b0) && b0 <= 1 && LimbVal(s) >= O
    ensures b0 == 1 <==> LimbVal(s[..i]) < O
    ensures i == |s| ==> b0 == 0
  {
    LimbValBound(low[..i]);
    if i == |s| {
      assert s[..i] == s;
    }
  }

  /** What the loops of subtract_aligned make of the number, the wrong case included. */
  lemma TrailingValue(s: seq<Bigit>, low: seq<Bigit>, r: seq<Bigit>, i: nat, O: nat, b0: Bigit)
    requires SubtractedBelow(low, s, i, O, b0) && b0 <= 1 && |r| == |s|
    requires i == |s| ==> b0 == 0 && r == low
    requires i < |s| ==> r == low[i := r[i]] && TrailingLimb(low[i], b0, r[i], 0)
    ensures LimbVal(r) == LimbVal(s) - O <==> b0 == 0 || s[i] != 0
  {
    UpperLimbsKept(low, s, i);
    if i < |s| {
      assert low[i] == low[i..][0] == s[i];
      TrailingLimbValue(low, r, i, b0);
    }
  }

  lemma TrailingLimbValue(low: seq<Bigit>, r: seq<Bigit>, i: nat, b0: Bigit)
    requires i < |low| && |r| == |low| && r == low[i := r[i]] && TrailingLimb(low[i], b0, r[i], 0) && b0 <= 1
    ensures b0 == 0 ==> LimbVal(r) == LimbVal(low)
    ensures b0 == 1 && low[i] != 0 ==> LimbVal(r) == LimbVal(low) - Pow(BASE, i)
    ensures b0 == 1 && low[i] == 0 ==> LimbVal(r) == LimbVal(low) + (BASE - 2) * Pow(BASE, i)
  {
    hide Pow, LimbVal;
    if b0 == 0 {
      assert r == low;
    } else if low[i] != 0 {
      LimbValUpdate(low, r, i, -1, 0 - Pow(BASE, i));
    } else {
      LimbValUpdate(low, r, i, BASE - 2, (BASE - 2) * Pow(BASE, i));
    }
  }

  lemma UpperLimbsKept(a: seq<Bigit>, b: seq<Bigit>, i: nat)
    requires i <= |a| == |b| && a[i..] == b[i..]
    ensures LimbVal(a) - LimbVal(a[..i]) == LimbVal(b) - LimbVal(b[..i])
  {
    LimbValSplit(a, i);
    LimbValSplit(b, i);
  }

  lemma ScaledDifference(r: int, s: int, o: int, k: nat)
    requires k > 0
    ensures r * k == s * k - o * k <==> r == s - o
  {
    Distribute(s, o, k);
    Cancel(r, s - o, k);
  }

  /** The first i limbs of s are multiplied by v, up to a carry; the limbs above are untouched. */
  ghost predicate ScaledBelow(r: seq<Bigit>, s: seq<Bigit>, i: nat, v: nat, carry: nat)
  {
    && i <= |r| == |s| && r[i..] == s[i..]
    && LimbVal(r[..i]) + carry * Pow(BASE, i) == LimbVal(s[..i]) * v
  }

  lemma ScaleStep(before: seq<Bigit>, after: seq<Bigit>, s: seq<Bigit>, i: nat, v: nat, c: nat, c': nat)
    requires ScaledBelow(before, s, i, v, c) && i < |s|
    requires |after| == |before| && after == before[i := after[i]]
    requires after[i] + BASE * c' == before[i] * v + c
    ensures ScaledBelow(after, s, i + 1, v, c')
    ensures v > 0 && s[i] != 0 ==> after[i] != 0 || c' != 0
  {
    assert after[..i] == before[..i];
    assert before[i] == before[i..][0] == s[i];
    assert after[i + 1..] == before[i..][1..] == s[i + 1..];
    LimbValTake(after, i);
    LimbValTake(s, i);
    ScaleAlgebra(LimbVal(before[..i]), c, Pow(BASE, i), LimbVal(s[..i]), v, after[i], c', s[i]);
    if v > 0 && s[i] != 0 {
      MulAtLeast(s[i], v);
    }
  }

  lemma ScaleAlgebra(A: int, c: int, P: int, S: int, v: int, a: int, c': int, s: int)
    requires A + c * P == S * v
    requires a + BASE * c' == s * v + c
    ensures (A + a * P) + c' * (BASE * P) == (S + s * P) * v
  {
    Distribute(S, s * P, v);
    Distribute(a, BASE * c', P);
    Distribute(s * v, c, P);
    Associate(c', BASE, P);
    Associate(s, P, v);
    Associate(s, v, P);
    assert P * v == v * P;
  }

  lemma ScaledStart(s: seq<Bigit>, v: nat)
    ensures ScaledBelow(s, s, 0, v, 0)
  {}

  /** The limbs of s with a carry still to be pushed on top. */
  function CarriedVal(s: seq<Bigit>, carry: nat): nat
  {
    LimbVal(s) + carry * Pow(BASE, |s|)
  }

  lemma ScaledAll(r: seq<Bigit>, s: seq<Bigit>, v: nat, carry: nat)
    requires ScaledBelow(r, s, |s|, v, carry)
    ensures CarriedVal(r, carry) == LimbVal(s) * v
  {
    assert r[..|s|] == r && s[..|s|] == s;
  }

  lemma PushLimb(s: seq<Bigit>, x: Bigit)
    ensures LimbVal(s + [x]) == CarriedVal(s, x)
    ensures CarriedVal(s, 0) == LimbVal(s)
  {
    LimbValConcat(s, [x]);
    LimbValOne(x);
  }

  lemma CarryOut(s: seq<Bigit>, carry: nat)
    ensures CarriedVal(s + [Low32(carry)], carry / BASE) == CarriedVal(s, carry)
    ensures carry != 0 ==> Low32(carry) != 0 || carry / BASE != 0
  {
    PushLimb(s, Low32(carry));
    CarryOutAlgebra(carry, Pow(BASE, |s|));
  }

  lemma CarryOutAlgebra(carry: nat, P: nat)
    ensures (carry % BASE) * P + (carry / BASE) * (BASE * P) == carry * P
  {
    Associate(carry / BASE, BASE, P);
    Distribute(carry % BASE, (carry / BASE) * BASE, P);
  }

  lemma ScaledVal(r: int, s: int, v: int, k: int)
    requires r == s * v
    ensures r * k == (s * k) * v
  {
    Associate(s, v, k);
    Associate(s, k, v);
    assert v * k == k * v;
  }

  /** A limb product plus a limb fits in 64 bits, so splitting it loses nothing. */
  lemma LimbProductSplits(x: Bigit, y: Bigit, c: Bigit)
    ensures Low64(x * y + c) == x * y + c
    ensures Low32(x * y + c) + BASE * Low32((x * y + c) / BASE) == x * y + c
  {
    LimbProduct(x, y);
    WordSplits(x * y + c);
  }

  lemma WordSplits(w: nat)
    requires w < BASE * BASE
    ensures Low64(w) == w
    ensures Low32(w) + BASE * Low32(w / BASE) == w
  {}

  /** The 64-bit carry of the wide multiplication is at most 2^64 - 1. */
  lemma WideCarryFits(x: Bigit, lower: Bigit, upper: Bigit, carry: nat)
    requires carry < BASE * BASE
    ensures x * lower + carry % BASE < BASE * BASE
    ensures x * upper + (x * lower + carry % BASE) / BASE + carry / BASE < BASE * BASE
  {
    LimbProduct(x, lower);
    LimbProduct(x, upper);
    WideCarryBound(x * lower, x * upper, carry);
  }

  lemma WideCarryBound(xl: nat, xu: nat, carry: nat)
    requires carry < BASE * BASE && xl <= (BASE - 1) * (BASE - 1) && xu <= (BASE - 1) * (BASE - 1)
    ensures xl + carry % BASE < BASE * BASE
    ensures xu + (xl + carry % BASE) / BASE + carry / BASE < BASE * BASE
  {}

  /** One step of the wide multiplication splits the exact 96-bit product. */
  lemma WideLimbSplits(x: Bigit, value: nat, carry: nat)
    requires value < BASE * BASE && carry < BASE * BASE
    ensures var result := Low64(x * (value % BASE) + carry % BASE);
            var carry' := Low64(x * (value / BASE) + result / BASE + carry / BASE);
            carry' < BASE * BASE && Low32(result) + BASE * carry' == x * value + carry
  {
    var l, u := value % BASE, value / BASE;
    WideCarryFits(x, l, u, carry);
    WideProduct(x, l, u, value);
    SplitAgain(x * l, x * u, carry);
  }

  lemma WideProduct(x: int, l: int, u: int, value: int)
    requires value == l + u * BASE
    ensures x * value == x * l + BASE * (x * u)
  {
    Distribute(l, u * BASE, x);
    Associate(u, BASE, x);
  }

  lemma SplitAgain(xl: nat, xu: nat, carry: nat)
    requires xl + carry % BASE < BASE * BASE
    requires xu + (xl + carry % BASE) / BASE + carry / BASE < BASE * BASE
    ensures var result := Low64(xl + carry % BASE);
            var carry' := Low64(xu + result / BASE + carry / BASE);
            carry' < BASE * BASE && Low32(result) + BASE * carry' == xl + BASE * xu + carry
  {}

  lemma ShiftedVal(w: nat, v: nat, e: nat, shift: nat)
    requires w == v * Pow(2, shift % 32)
    ensures w * Pow(BASE, e + shift / 32) == (v * Pow(BASE, e)) * Pow(2, shift)
  {
    var k, r := shift / 32, shift % 32;
    PowAdd(BASE, e, k);
    BasePow(k);
    PowAdd(2, 32 * k, r);
    assert shift == 32 * k + r;
    Interchange(v, Pow(2, r), Pow(BASE, e), Pow(BASE, k));
    assert Pow(2, r) * Pow(BASE, k) == Pow(2, shift);
  }

  /** One limb shifted left: the high bits leave as the new carry. */
  lemma ShiftedLimb(x: Bigit, r: nat, carry: Bigit)
    requires 0 < r < 32 && carry < Pow(2, r)
    ensures x / Pow(2, 32 - r) < Pow(2, r) <= BASE
    ensures Low32(Low32(x * Pow(2, r)) + carry) + BASE * (x / Pow(2, 32 - r)) == x * Pow(2, r) + carry
  {
    BasePow(1);
    PowAdd(2, 32 - r, r);
    ShiftedLimbBy(x, Pow(2, r), Pow(2, 32 - r), carry);
  }

  lemma ShiftedLimbBy(x: Bigit, p: nat, q: nat, carry: nat)
    requires q > 0 && carry < p && q * p == BASE
    ensures x / q < p <= BASE
    ensures Low32(Low32(x * p) + carry) + BASE * (x / q) == x * p + carry
  {
    var h, l := x / q, x % q;
    assert x == h * q + l;
    Distribute(h * q, l, p);
    Associate(h, q, p);
    Monotone(l, q - 1, p);
    Distribute(q, 1, p);
    if h >= p {
      Monotone(p, h, q);
    }
    MulAtLeast(p, q);
    QuotientRemainder(x * p, h, l * p);
  }

  lemma QuotientRemainder(x: nat, h: nat, r: nat)
    requires x == h * BASE + r && r < BASE
    ensures x % BASE == r && x / BASE == h
  {}

  /** h is v divided by W, rounded down. */
  predicate RoundsTo(v: nat, W: nat, h: nat)
  {
    W * h <= v < W * (h + 1)
  }

  lemma RoundsToZero(v: nat, W: nat)
    requires v < W
    ensures RoundsTo(v, W, 0)
  {}

  lemma HighAlgebra(v: nat, low: nat, W: nat, h: nat, P: nat)
    requires v == low + W * h && low < W && P > 0
    ensures RoundsTo(v * P, W * P, h)
    ensures low == 0 ==> v * P == (W * P) * h
  {
    Distribute(low, W * h, P);
    Associate(W, h, P);
    Associate(W, P, h);
    assert h * P == P * h;
    Cancel(low, W, P);
    assert low * P >= 0;
    Distribute(h, 1, W * P);
  }

  lemma HighExact(v: nat, P: nat, Q: nat)
    requires P > 0
    ensures v * (P * Q) == P * (v * Q) && RoundsTo(v * (P * Q), P, v * Q)
  {
    Associate(v, P, Q);
    Associate(P, v, Q);
    Distribute(v * Q, 1, P);
  }

  lemma HighDecides(x: nat, hx: nat, y: nat, hy: nat, P: nat)
    requires P * hx <= x && y < P * (hy + 1) && hx > hy
    ensures x > y
  {
    Monotone(hy + 1, hx, P);
  }

  lemma AlignedVal(s: seq<Bigit>, e: nat, difference: nat)
    requires difference <= e
    ensures LimbVal(Zeros(difference) + s) * Pow(BASE, e - difference) == LimbVal(s) * Pow(BASE, e)
  {
    LimbValConcat(Zeros(difference), s);
    LimbValZeros(Zeros(difference));
    PowAdd(BASE, difference, e - difference);
    var P, Q, v := Pow(BASE, difference), Pow(BASE, e - difference), LimbVal(s);
    assert P * v == v * P;
    Associate(v, P, Q);
  }

  lemma OneMore(q: nat, D: nat, rest: nat, v: nat)
    requires v == q * D + (rest + D)
    ensures v == (q + 1) * D + rest
  {
    Distribute(q, 1, D);
  }

  lemma QuotientFits(q: nat, D: nat, rest: nat, v: nat)
    requires v == q * D + rest
    ensures v < 0x8000_0000 * D ==> q < 0x8000_0000
  {
    if q >= 0x8000_0000 {
      Monotone(0x8000_0000, q, D);
    }
  }
}
