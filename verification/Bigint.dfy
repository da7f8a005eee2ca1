/** fmt's arbitrary-precision integer: 32-bit limbs plus an exponent counted in limbs. */
module BigInteger {
  import opened Powers
  import opened Limbs
  import opened Accumulators
  import opened LimbSteps
  import opened Squares

  function Sign(x: int): int { if x > 0 then 1 else if x < 0 then -1 else 0 }

  function Max(a: int, b: int): int { if a > b then a else b }
  function Min(a: int, b: int): int { if a < b then a else b }

  class Bigint {
    var bigits: seq<Bigit>
    var exp: int

    /** Every bigint after its first assignment. */
    predicate Valid()
      reads this
    {
      bigits != [] && exp >= 0
    }

    /** The number a bigint denotes. */
    function Val(): nat
      requires Valid()
      reads this
    {
      LimbVal(bigits) * Pow(BASE, exp)
    }

    /** The top limb is nonzero. */
    predicate Normal()
      reads this
    {
      Valid() && bigits[|bigits| - 1] != 0
    }

    /** Normal, or the single zero limb that subtraction can leave. */
    predicate Canonical()
      reads this
    {
      Valid() && (bigits == [0] || bigits[|bigits| - 1] != 0)
    }

    function NumBigits(): int
      reads this
    {
      |bigits| + exp
    }

    /** Limb i of the number, as add_compare reads it. */
    function Limb(i: int): Bigit
      reads this
    {
      if exp <= i < NumBigits() then bigits[i - exp] else 0
    }

    constructor ()
      ensures bigits == [] && exp == 0
    {
      bigits, exp := [], 0;
    }

    method AssignBigint(other: Bigint)
      requires other.Valid()
      modifies this
      ensures Valid() && Val() == old(other.Val()) && bigits == old(other.bigits) && exp == old(other.exp)
    {
      bigits := other.bigits;
      exp := other.exp;
    }

    method AssignUint64(value: nat)
      requires value < BASE * BASE
      modifies this
      ensures Canonical() && exp == 0 && Val() == value
      ensures value > 0 ==> Normal()
    {
      var n := value;
      bigits := [Low32(n)];
      n := n / BASE;
      LimbValOne(bigits[0]);
      while n != 0
        invariant 1 <= |bigits| <= 2
        invariant |bigits| == 1 ==> bigits[0] == value % BASE && n == value / BASE
        invariant |bigits| == 2 ==> n == 0 && bigits[1] != 0
        invariant |bigits| == 1 ==> LimbVal(bigits) == value % BASE
        invariant |bigits| == 2 ==> LimbVal(bigits) == value
        decreases n
      {
        LimbValConcat(bigits, [Low32(n)]);
        LimbValOne(Low32(n));
        PowOne(BASE);
        bigits := bigits + [Low32(n)];
        n := n / BASE;
      }
      exp := 0;
    }

    /** Subtracts one limb; borrow is the sign bit of the 64-bit difference. */
    method SubtractBits(index: nat, other: Bigit, borrow: Bigit) returns (borrow': Bigit)
      requires index < |bigits| && borrow <= 1
      modifies this`bigits
      ensures |bigits| == |old(bigits)| && bigits == old(bigits)[index := bigits[index]]
      ensures borrow' <= 1
      ensures bigits[index] - BASE * borrow' == old(bigits)[index] - other - borrow
    {
      var result := Low64(bigits[index] - other - borrow);
      bigits := bigits[index := Low32(result)];
      borrow' := Low32(result / 0x8000_0000_0000_0000);
    }

    method RemoveLeadingZeros()
      requires Valid()
      modifies this`bigits
      ensures Canonical() && LimbVal(bigits) == LimbVal(old(bigits))
      ensures |bigits| <= |old(bigits)|
    {
      var num := |bigits| - 1;
      assert bigits[..num + 1] == bigits;
      while num > 0 && bigits[num] == 0
        invariant 0 <= num < |bigits| && bigits == old(bigits)
        invariant LimbVal(bigits[..num + 1]) == LimbVal(bigits)
      {
        LimbValTake(bigits, num);
        num := num - 1;
      }
      bigits := bigits[..num + 1];
    }

    /** Whether subtract_aligned comes out right, in terms of its operands. */
    predicate BorrowStopsAt(other: Bigint)
      requires other.exp >= exp
      reads this, other
    {
      BorrowStops(bigits, other.bigits, other.exp - exp)
    }

    /** The first loop of subtract_aligned: every limb of other, from limb i on upwards. */
    method SubtractLimbs(other: Bigint, start: nat) returns (i: nat, borrow: Bigit)
      requires other != this && start + |other.bigits| <= |bigits|
      modifies this`bigits
      ensures |bigits| == |old(bigits)| && i == start + |other.bigits| && borrow <= 1
      ensures SubtractedBelow(bigits, old(bigits), i, LimbVal(other.bigits) * Pow(BASE, start), borrow)
    {
      ghost var s := bigits;
      ghost var o := other.bigits;
      hide Pow, LimbVal, SubtractedBelow;
      SubtractStart(s, o, start);
      borrow := 0;
      i := start;
      var j, n := 0, |other.bigits|;
      while j != n
        invariant 0 <= j <= n && i == start + j && borrow <= 1 && |bigits| == |s|
        invariant SubtractedBelow(bigits, s, i, LimbVal(o[..j]) * Pow(BASE, start), borrow)
        decreases n - j
      {
        ghost var before, c := bigits, borrow;
        borrow := SubtractBits(i, other.bigits[j], borrow);
        SubtractStep(before, bigits, s, o, start, j, c, borrow);
        i := i + 1;
        j := j + 1;
      }
      assert o[..n] == o;
    }

    method SubtractAligned(other: Bigint)
      requires other != this && Valid() && other.Normal()
      requires other.exp >= exp && Val() >= other.Val()
      modifies this`bigits
      ensures Canonical() && |bigits| <= |old(bigits)|
      ensures Val() == old(Val()) - other.Val() <==> old(BorrowStopsAt(other))
    {
      ghost var s := bigits;
      hide Pow, LimbVal, SubtractedBelow;
      AlignedFits(this, other);
      ghost var O := LimbVal(other.bigits) * Pow(BASE, other.exp - exp);
      var i, borrow := SubtractLimbs(other, other.exp - exp);
      ghost var low, b0 := bigits, borrow;
      BorrowMeaning(low, s, i, O, b0);
      while borrow > 0
        invariant borrow <= 1 && |bigits| == |s|
        invariant i == |s| ==> borrow == 0 && bigits == low
        invariant i < |s| ==> bigits == low[i := bigits[i]] && TrailingLimb(low[i], b0, bigits[i], borrow)
        decreases borrow * (if i < |bigits| && bigits[i] == 0 then 2 else 1)
      {
        borrow := SubtractBits(i, 0, borrow);
      }
      TrailingValue(s, low, bigits, i, O, b0);
      RemoveLeadingZeros();
      ScaledDifference(LimbVal(bigits), LimbVal(s), O, Pow(BASE, exp));
    }

    /** multiply(uint32_t) */
    method MultiplyUint32(value: nat)
      requires Valid() && value < BASE
      modifies this`bigits
      ensures Valid() && Val() == old(Val()) * value
      ensures value > 0 && old(Canonical()) ==> Canonical()
      ensures value > 0 && old(Normal()) ==> Normal()
    {
      hide Pow, LimbVal, CarriedVal, ScaledBelow;
      ghost var s := bigits;
      var carry: Bigit := 0;
      ScaledStart(s, value);
      var i, n := 0, |bigits|;
      while i < n
        invariant 0 <= i <= n == |s| == |bigits| && ScaledBelow(bigits, s, i, value, carry)
        invariant value > 0 && i > 0 && s[i - 1] != 0 ==> bigits[i - 1] != 0 || carry != 0
        invariant s == [0] ==> bigits == [0] && carry == 0
      {
        ghost var before := bigits;
        LimbProductSplits(bigits[i], value, carry);
        var result := Low64(bigits[i] * value + carry);
        bigits := bigits[i := Low32(result)];
        ScaleStep(before, bigits, s, i, value, carry, Low32(result / BASE));
        carry := Low32(result / BASE);
        i := i + 1;
      }
      ScaledAll(bigits, s, value, carry);
      PushLimb(bigits, carry);
      if carry != 0 {
        bigits := bigits + [carry];
      }
      ScaledVal(LimbVal(bigits), LimbVal(s), value, Pow(BASE, exp));
    }

    /** multiply(uint64_t): the 64-bit carry never overflows. */
    method MultiplyUint64(value: nat)
      requires Valid() && value < BASE * BASE
      modifies this`bigits
      ensures Valid() && Val() == old(Val()) * value
      ensures value > 0 && old(Normal()) ==> Normal()
    {
      hide Low32, Low64, Pow, LimbVal, CarriedVal, ScaledBelow;
      ghost var s := bigits;
      var lower := value % BASE;
      var upper := value / BASE;
      var carry: nat := 0;
      ScaledStart(s, value);
      var i, n := 0, |bigits|;
      while i < n
        invariant 0 <= i <= n == |s| == |bigits| && ScaledBelow(bigits, s, i, value, carry)
        invariant carry < BASE * BASE
        invariant value > 0 && i > 0 && s[i - 1] != 0 ==> bigits[i - 1] != 0 || carry != 0
      {
        ghost var before, c := bigits, carry;
        WideLimbSplits(bigits[i], value, carry);
        var result := Low64(bigits[i] * lower + carry % BASE);
        carry := Low64(bigits[i] * upper + result / BASE + carry / BASE);
        bigits := bigits[i := Low32(result)];
        ScaleStep(before, bigits, s, i, value, c, carry);
        i := i + 1;
      }
      ScaledAll(bigits, s, value, carry);
      while carry != 0
        invariant |s| <= |bigits| && CarriedVal(bigits, carry) == LimbVal(s) * value
        invariant value > 0 && s[|s| - 1] != 0 ==> bigits[|bigits| - 1] != 0 || carry != 0
        decreases carry
      {
        CarryOut(bigits, carry);
        bigits := bigits + [Low32(carry)];
        carry := carry / BASE;
      }
      PushLimb(bigits, 0);
      ScaledVal(LimbVal(bigits), LimbVal(s), value, Pow(BASE, exp));
    }

    /** operator<<= */
    method ShiftLeft(shift: nat)
      requires Valid()
      modifies this
      ensures Valid() && Val() == old(Val()) * Pow(2, shift)
      ensures exp == old(exp) + shift / 32
      ensures old(Normal()) ==> Normal()
    {
      hide Low32, Pow, LimbVal, CarriedVal, ScaledBelow;
      ghost var s, e := bigits, exp;
      exp := exp + shift / 32;
      var r := shift % 32;
      ghost var p := Pow(2, r);
      if r == 0 {
        PowOne(2);
        ShiftedVal(LimbVal(bigits), LimbVal(s), e, shift);
        return;
      }
      var carry: Bigit := 0;
      ScaledStart(s, p);
      var i, n := 0, |bigits|;
      while i < n
        invariant 0 <= i <= n == |s| == |bigits| && exp == e + shift / 32 && carry < p
        invariant ScaledBelow(bigits, s, i, p, carry)
        invariant i > 0 && s[i - 1] != 0 ==> bigits[i - 1] != 0 || carry != 0
      {
        ghost var before := bigits;
        ShiftedLimb(bigits[i], r, carry);
        var c := bigits[i] / Pow(2, 32 - r);
        bigits := bigits[i := Low32(Low32(bigits[i] * Pow(2, r)) + carry)];
        ScaleStep(before, bigits, s, i, p, carry, c);
        carry := c;
        i := i + 1;
      }
      ScaledAll(bigits, s, p, carry);
      PushLimb(bigits, carry);
      if carry != 0 {
        bigits := bigits + [carry];
      }
      ShiftedVal(LimbVal(bigits), LimbVal(s), e, shift);
    }

    /** Appends zero limbs at the bottom until exp is no bigger than other's; the number is unchanged. */
    method Align(other: Bigint)
      requires other != this && Valid() && other.Valid()
      modifies this
      ensures Valid() && Val() == old(Val()) && exp == Min(old(exp), other.exp) && NumBigits() == old(NumBigits())
      ensures old(Normal()) ==> Normal()
    {
      hide Pow, LimbVal;
      var difference := exp - other.exp;
      if difference <= 0 {
        return;
      }
      ghost var s, e := bigits, exp;
      var num := |bigits|;
      assert |Zeros(difference)| == difference;
      var uninitialized: seq<Bigit> :| |uninitialized| == difference;
      bigits := bigits + uninitialized;
      var i := num - 1;
      var j := i + difference;
      while i >= 0
        invariant -1 <= i < num && j == i + difference && exp == e
        invariant |bigits| == num + difference
        invariant forall t :: 0 <= t <= i ==> bigits[t] == s[t]
        invariant forall t :: i < t < num ==> bigits[t + difference] == s[t]
      {
        bigits := bigits[j := bigits[i]];
        i := i - 1;
        j := j - 1;
      }
      bigits := Zeros(difference) + bigits[difference..];
      assert bigits == Zeros(difference) + s;
      AlignedVal(s, e, difference);
      exp := exp - difference;
    }

    /** Replaces this by its remainder; the loop subtracts the divisor once per unit of quotient. */
    method DivmodAssign(divisor: Bigint) returns (quotient: int)
      requires divisor != this && Canonical() && divisor.Normal()
      requires NumBigits() <= divisor.NumBigits() + (if Val() == 0 then 0 else 1)
      modifies this
      ensures Canonical() && 0 <= quotient
      ensures old(Val()) == quotient * divisor.Val() + Val()
      ensures old(Val()) < 0x8000_0000 * divisor.Val() ==> quotient < 0x8000_0000
      ensures Val() < divisor.Val() <==> !(old(Val()) == divisor.Val() && old(exp) > divisor.exp)
      ensures (quotient == 0 && exp == old(exp)) || exp <= divisor.exp
    {
      hide Pow, LimbVal, Val;
      ghost var v, D := Val(), divisor.Val();
      ZeroVal(divisor);
      ZeroVal(this);
      var order := Compare(this, divisor);
      if order < 0 {
        return 0;
      }
      Align(divisor);
      quotient := 0;
      while order >= 0
        invariant Canonical() && exp <= divisor.exp && quotient >= 0 && Val() <= v
        invariant NumBigits() <= divisor.NumBigits() + 1
        invariant divisor.Normal() && divisor.Val() == D
        invariant v == quotient * D + Val() && (order >= 0 <==> Val() >= D)
        decreases Val()
      {
        ZeroVal(this);
        BorrowAlwaysStops(this, divisor);
        SubtractAligned(divisor);
        OneMore(quotient, D, Val(), v);
        quotient := quotient + 1;
        order := Compare(this, divisor);
        ZeroVal(this);
      }
      QuotientFits(quotient, D, Val(), v);
    }

    /** The lower half of square's columns, all of whose cross products start at n[0]. */
    method SquareLowColumns(n: seq<Bigit>, sum: Accumulator)
      requires |bigits| == 2 * |n| && |n| < 0x4000_0000
      requires sum.Valid() && sum.Value() == 0 && ColumnsDone(bigits, n, 0, 0)
      modifies this`bigits, sum
      ensures sum.Valid() && |bigits| == 2 * |n|
      ensures ColumnsDone(bigits, n, |n|, sum.Value()) && sum.Value() <= |n| * BASE
    {
      hide Accumulator.Value, Pow, LimbVal, Row, Column, ColumnsDone, ColumnLo, ColumnHi;
      var k := 0;
      while k < |n|
        invariant 0 <= k <= |n| && sum.Valid()
        invariant |bigits| == 2 * |n| && ColumnsDone(bigits, n, k, sum.Value()) && sum.Value() <= |n| * BASE
      {
        ghost var carry := sum.Value();
        ColumnEnds(n, k);
        AddLowColumn(n, k, sum);
        StoreColumn(n, k, sum, carry);
        k := k + 1;
      }
    }

    /** The upper half of square's columns, all of whose cross products end at n[N - 1]. */
    method SquareHighColumns(n: seq<Bigit>, sum: Accumulator)
      requires |bigits| == 2 * |n| && |n| < 0x4000_0000
      requires sum.Valid() && ColumnsDone(bigits, n, |n|, sum.Value()) && sum.Value() <= |n| * BASE
      modifies this`bigits, sum
      ensures sum.Valid() && |bigits| == 2 * |n| && ColumnsDone(bigits, n, 2 * |n|, sum.Value())
    {
      hide Accumulator.Value, Pow, LimbVal, Row, Column, ColumnsDone, ColumnLo, ColumnHi;
      var k := |n|;
      while k < 2 * |n|
        invariant |n| <= k <= 2 * |n| && sum.Valid()
        invariant |bigits| == 2 * |n| && ColumnsDone(bigits, n, k, sum.Value()) && sum.Value() <= |n| * BASE
      {
        ghost var carry := sum.Value();
        ColumnEnds(n, k);
        AddHighColumn(n, k, sum);
        StoreColumn(n, k, sum, carry);
        k := k + 1;
      }
    }

    /** The end of one column: its low limb is stored and the rest is carried over. */
    method StoreColumn(n: seq<Bigit>, k: nat, sum: Accumulator, ghost carry: nat)
      requires k < |bigits| == 2 * |n| && |n| < 0x4000_0000 && carry <= |n| * BASE
      requires sum.Valid() && ColumnsDone(bigits, n, k, carry)
      requires sum.Value() == carry + Column(n, k, ColumnLo(n, k), ColumnHi(n, k))
      modifies this`bigits, sum
      ensures sum.Valid() && |bigits| == 2 * |n|
      ensures ColumnsDone(bigits, n, k + 1, sum.Value()) && sum.Value() <= |n| * BASE
    {
      hide Accumulator.Value, Pow, LimbVal, Row, Column, ColumnsDone, ColumnLo, ColumnHi;
      ghost var before := bigits;
      bigits := bigits[k := sum.LowBigit()];
      ColumnDone(before, bigits, n, k, carry, sum.Value());
      sum.ShiftRight32();
    }

    /** Replaces this by its exact square, summing cross products column by column. */
    method Square()
      requires Valid() && |bigits| < 0x4000_0000
      modifies this
      ensures Canonical() && Val() == old(Val()) * old(Val()) && exp == 2 * old(exp)
    {
      hide Pow, LimbVal, ColumnsDone;
      var n := bigits;
      bigits := Zeros(2 * |n|);
      ColumnsStart(bigits, n);
      var sum := new Accumulator();
      SquareLowColumns(n, sum);
      SquareHighColumns(n, sum);
      SquareDone(bigits, n, sum.Value());
      RemoveLeadingZeros();
      SquaredVal(LimbVal(bigits), LimbVal(n), exp);
      exp := exp * 2;
    }

    /** Binary exponentiation of 5 over the bits of exponent below the top one, then a shift. */
    method AssignPow10(exponent: nat)
      requires exponent < 0x4000_0000
      modifies this
      ensures Normal() && Val() == Pow(10, exponent) && exp == exponent / 32
    {
      hide Val, Pow, LimbVal, IsPowerOfTwo;
      if exponent == 0 {
        AssignUint64(1);
        PowOne(10);
        return;
      }
      var bitmask := 1;
      DoublePower(bitmask);
      while exponent >= bitmask
        invariant 0 < bitmask <= 2 * exponent && IsPowerOfTwo(bitmask)
        decreases 2 * exponent - bitmask
      {
        DoublePower(bitmask);
        bitmask := bitmask * 2;
      }
      HalfPower(bitmask);
      bitmask := bitmask / 2;
      AssignUint64(5);
      PowOne(5);
      ghost var weight: nat, consumed: nat := bitmask, 1;
      DivModUnique(exponent, weight, 1, exponent - weight);
      HalfPower(bitmask);
      bitmask := bitmask / 2;
      while bitmask != 0
        invariant weight > 0 && IsPowerOfTwo(weight) && bitmask == weight / 2
        invariant consumed == exponent / weight
        invariant Normal() && exp == 0 && Val() == Pow(5, consumed)
        decreases bitmask
      {
        HalfPower(weight);
        NextBit(exponent, bitmask);
        QuotientAtMost(exponent, weight);
        FewLimbs(this, consumed);
        Square();
        PowAdd(5, consumed, consumed);
        ZeroVal(this);
        consumed := 2 * consumed;
        if (exponent / bitmask) % 2 != 0 {
          MultiplyUint32(5);
          TimesFive(consumed);
          consumed := consumed + 1;
        }
        weight := bitmask;
        HalfPower(bitmask);
        bitmask := bitmask / 2;
      }
      HalfPower(weight);
      ShiftLeft(exponent);
      PowProduct(5, 2, exponent);
    }
  }

  /** Column k < |n| of a square: n[0] * n[k] and so on, i upwards and j downwards. */
  method AddLowColumn(n: seq<Bigit>, k: nat, sum: Accumulator)
    requires k < |n| < 0x4000_0000 && sum.Valid() && sum.Value() <= |n| * BASE
    modifies sum
    ensures sum.Valid() && sum.Value() == old(sum.Value()) + Column(n, k, 0, k + 1)
  {
    hide Accumulator.Value, Column;
    ghost var carry := sum.Value();
    ColumnStart(n, k, 0);
    var i, j := 0, k;
    while j >= 0
      invariant 0 <= i <= k + 1 && j == k - i && sum.Valid()
      invariant sum.Value() == carry + Column(n, k, 0, i)
    {
      ColumnAdd(n, k, 0, i, carry, |n|);
      sum.Add(n[i] as int * n[j]);
      i := i + 1;
      j := j - 1;
    }
  }

  /** Column k >= |n|: it begins where j would leave the array. */
  method AddHighColumn(n: seq<Bigit>, k: nat, sum: Accumulator)
    requires |n| <= k < 2 * |n| && |n| < 0x4000_0000 && sum.Valid() && sum.Value() <= |n| * BASE
    modifies sum
    ensures sum.Valid() && sum.Value() == old(sum.Value()) + Column(n, k, k - |n| + 1, |n|)
  {
    hide Accumulator.Value, Column;
    ghost var carry := sum.Value();
    var j := |n| - 1;
    var i := k - j;
    ghost var lo: nat := i;
    ColumnStart(n, k, lo);
    while i < |n|
      invariant lo <= i <= |n| && j == k - i && sum.Valid()
      invariant sum.Value() == carry + Column(n, k, lo, i)
    {
      ColumnAdd(n, k, lo, i, carry, |n|);
      sum.Add(n[i] as int * n[j]);
      i := i + 1;
      j := j - 1;
    }
  }

  /** The subtrahend has no limb above the top limb of a minuend that is at least as large. */
  lemma AlignedFits(a: Bigint, b: Bigint)
    requires a.Valid() && b.Normal() && b.exp >= a.exp && a.Val() >= b.Val()
    ensures b.exp - a.exp + |b.bigits| <= |a.bigits|
    ensures b.Val() == LimbVal(b.bigits) * Pow(BASE, b.exp - a.exp) * Pow(BASE, a.exp)
    ensures LimbVal(a.bigits) >= LimbVal(b.bigits) * Pow(BASE, b.exp - a.exp)
  {
    var d, n := b.exp - a.exp, |b.bigits|;
    var A, B, D, p := LimbVal(a.bigits), LimbVal(b.bigits), Pow(BASE, d), Pow(BASE, a.exp);
    PowAdd(BASE, d, a.exp);
    Associate(B, D, p);
    Cancel(A, B * D, p);
    AlignedFitsLimbs(a.bigits, b.bigits, d);
  }

  //// compare and add_compare ////

  /** The limbs of weight BASE^i and above, as a number. */
  ghost function High(b: Bigint, i: int): nat
    requires b.Valid() && i >= 0
    reads b
  {
    if i >= b.NumBigits() then 0
    else if i >= b.exp then LimbVal(b.bigits[i - b.exp..])
    else LimbVal(b.bigits) * Pow(BASE, b.exp - i)
  }

  lemma WeightUp(v: int, p: int)
    ensures v * (BASE * p) == BASE * (v * p)
  {
    Associate(v, BASE, p);
    Associate(BASE, v, p);
  }

  lemma HighStep(b: Bigint, i: int)
    requires b.Valid() && i >= 0
    ensures High(b, i) == BASE * High(b, i + 1) + b.Limb(i)
  {
    var e, s := b.exp, b.bigits;
    if i >= b.NumBigits() {
    } else if i >= e {
      var low := s[i - e..];
      assert LimbVal(low) == low[0] + BASE * LimbVal(low[1..]);
      assert low[0] == s[i - e] && low[1..] == s[i + 1 - e..];
      assert High(b, i + 1) == LimbVal(s[i + 1 - e..]) by {
        if i + 1 == b.NumBigits() {
          assert s[i + 1 - e..] == [];
        }
      }
    } else {
      assert s[0..] == s;
      var v, p := LimbVal(s), Pow(BASE, e - i - 1);
      assert Pow(BASE, e - i) == BASE * p;
      assert High(b, i + 1) == v * p by {
        if i + 1 == e { assert p == 1; }
      }
      WeightUp(v, p);
    }
  }

  /** High(b, i) is the value rounded down to a multiple of BASE^i, and loses nothing at or below exp. */
  lemma HighBounds(b: Bigint, i: int)
    requires b.Valid() && i >= 0
    ensures RoundsTo(b.Val(), Pow(BASE, i), High(b, i))
    ensures i <= b.exp ==> b.Val() == Pow(BASE, i) * High(b, i)
  {
    hide Pow, LimbVal, RoundsTo;
    var e, s := b.exp, b.bigits;
    if i >= b.NumBigits() {
      ValBound(b);
      PowMonotone(BASE, b.NumBigits(), i);
      RoundsToZero(b.Val(), Pow(BASE, i));
    } else if i >= e {
      LimbValSplit(s, i - e);
      LimbValBound(s[..i - e]);
      PowAdd(BASE, i - e, e);
      NothingBelow(s, i - e);
      HighAlgebra(LimbVal(s), LimbVal(s[..i - e]), Pow(BASE, i - e), LimbVal(s[i - e..]), Pow(BASE, e));
    } else {
      PowAdd(BASE, i, e - i);
      HighExact(LimbVal(s), Pow(BASE, i), Pow(BASE, e - i));
    }
  }

  lemma NothingBelow(s: seq<Bigit>, n: nat)
    requires n <= |s|
    ensures n == 0 ==> LimbVal(s[..n]) == 0
  {}

  lemma ValBound(b: Bigint)
    requires b.Valid()
    ensures b.Val() < Pow(BASE, b.NumBigits())
    ensures b.Normal() ==> Pow(BASE, b.NumBigits() - 1) <= b.Val()
  {
    var n := |b.bigits|;
    LimbValBound(b.bigits);
    PowAdd(BASE, n, b.exp);
    Cancel(LimbVal(b.bigits), Pow(BASE, n), Pow(BASE, b.exp));
    if b.Normal() {
      LimbValTop(b.bigits);
      PowAdd(BASE, n - 1, b.exp);
      Monotone(Pow(BASE, n - 1), LimbVal(b.bigits), Pow(BASE, b.exp));
    }
  }

  /** Fewer limbs in all means a smaller number, once the longer one has no leading zero. */
  lemma ShorterIsLess(a: Bigint, b: Bigint)
    requires a.Valid() && b.Normal() && a.NumBigits() < b.NumBigits()
    ensures a.Val() < b.Val()
  {
    ValBound(a);
    ValBound(b);
    PowMonotone(BASE, a.NumBigits(), b.NumBigits() - 1);
  }

  /** The operand pairs on which compare tells the truth; only the first conjunct concerns Normal ones. */
  predicate CompareExact(lhs: Bigint, rhs: Bigint)
    requires lhs.Valid() && rhs.Valid()
    reads lhs, rhs
  {
    && (lhs.Val() == rhs.Val() ==> lhs.exp == rhs.exp)
    && (lhs.Val() == 0 ==> lhs.NumBigits() <= rhs.NumBigits())
    && (rhs.Val() == 0 ==> rhs.NumBigits() <= lhs.NumBigits())
  }

  method Compare(lhs: Bigint, rhs: Bigint) returns (r: int)
    requires lhs.Canonical() && rhs.Canonical()
    ensures -1 <= r <= 1
    ensures r == Sign(lhs.Val() - rhs.Val()) <==> CompareExact(lhs, rhs)
    ensures lhs.Normal() && lhs.Val() == rhs.Val() ==> r == Sign(rhs.exp - lhs.exp)
  {
    hide Pow, LimbVal, High;
    ZeroVal(lhs);
    ZeroVal(rhs);
    var nl, nr := lhs.NumBigits(), rhs.NumBigits();
    if nl != nr {
      CompareBySize(lhs, rhs);
      return if nl > nr then 1 else -1;
    }
    var i, j := |lhs.bigits| - 1, |rhs.bigits| - 1;
    var end := i - j;
    if end < 0 {
      end := 0;
    }
    ghost var k := nl;
    HighAtTop(lhs);
    HighAtTop(rhs);
    while i >= end
      invariant end - 1 <= i < |lhs.bigits| && -1 <= j < |rhs.bigits|
      invariant k == i + 1 + lhs.exp == j + 1 + rhs.exp
      invariant High(lhs, k) == High(rhs, k)
    {
      k := k - 1;
      HighStep(lhs, k);
      HighStep(rhs, k);
      if lhs.bigits[i] != rhs.bigits[j] {
        HighBounds(lhs, k);
        HighBounds(rhs, k);
        if lhs.bigits[i] > rhs.bigits[j] {
          HighDecides(lhs.Val(), High(lhs, k), rhs.Val(), High(rhs, k), Pow(BASE, k));
          return 1;
        }
        HighDecides(rhs.Val(), High(rhs, k), lhs.Val(), High(lhs, k), Pow(BASE, k));
        return -1;
      }
      i := i - 1;
      j := j - 1;
    }
    HighBounds(lhs, k);
    HighBounds(rhs, k);
    if i != j {
      return if i > j then 1 else -1;
    }
    return 0;
  }

  /** 2^32 written with exponent 0 and with exponent 1: compare calls the longer one greater. */
  method CompareEqualOnce() returns (lhs: Bigint, rhs: Bigint, order: int)
    ensures fresh(lhs) && fresh(rhs) && lhs != rhs && lhs.Normal() && rhs.Normal()
    ensures lhs.Val() == rhs.Val() && lhs.exp < rhs.exp && order == 1
  {
    lhs := new Bigint();
    rhs := new Bigint();
    lhs.AssignUint64(0x1_0000_0000);
    rhs.AssignUint64(1);
    rhs.ShiftLeft(32);
    BasePow(1);
    PowOne(BASE);
    order := Compare(lhs, rhs);
  }

  /** Divided by the other, the one with the larger exponent leaves the whole divisor as remainder. */
  method DivmodEqualOnce() returns (dividend: Bigint, divisor: Bigint, quotient: int)
    ensures fresh(dividend) && fresh(divisor) && dividend.Valid() && divisor.Normal()
    ensures quotient == 0 && dividend.Val() == divisor.Val()
  {
    var order;
    hide Pow, LimbVal, Bigint.Val;
    divisor, dividend, order := CompareEqualOnce();
    ZeroVal(divisor);
    ZeroVal(dividend);
    if dividend.NumBigits() > divisor.NumBigits() {
      ShorterIsLess(divisor, dividend);
    }
    quotient := dividend.DivmodAssign(divisor);
    if quotient > 0 {
      Monotone(1, quotient, divisor.Val());
    }
  }

  lemma ZeroVal(b: Bigint)
    requires b.Canonical()
    ensures b.Val() == 0 <==> !b.Normal()
    ensures b.Val() == 0 ==> b.bigits == [0]
  {
    if b.Normal() {
      ValBound(b);
    } else {
      LimbValOne(0);
    }
  }

  lemma HighAtTop(b: Bigint)
    requires b.Valid()
    ensures High(b, b.NumBigits()) == 0
  {}

  lemma CompareBySize(a: Bigint, b: Bigint)
    requires a.Canonical() && b.Canonical() && a.NumBigits() != b.NumBigits()
    ensures (if a.NumBigits() > b.NumBigits() then 1 else -1) == Sign(a.Val() - b.Val()) <==> CompareExact(a, b)
    ensures a.Normal() ==> a.Val() != b.Val()
  {
    ZeroVal(a);
    ZeroVal(b);
    if a.NumBigits() > b.NumBigits() {
      if a.Normal() { ShorterIsLess(b, a); }
    } else {
      if b.Normal() { ShorterIsLess(a, b); }
    }
  }

  /** Returns compare(lhs1 + lhs2, rhs), reading the limbs downwards with a running borrow of 0 or 1. */
  method AddCompare(lhs1: Bigint, lhs2: Bigint, rhs: Bigint) returns (r: int)
    requires lhs1.Canonical() && lhs2.Canonical() && rhs.Normal()
    requires lhs1.Val() == 0 ==> lhs1.NumBigits() <= rhs.NumBigits()
    requires lhs2.Val() == 0 ==> lhs2.NumBigits() <= rhs.NumBigits()
    ensures r == Sign(lhs1.Val() + lhs2.Val() - rhs.Val())
  {
    hide Bigint.Val, Pow, LimbVal, High;
    var maxLhs := Max(lhs1.NumBigits(), lhs2.NumBigits());
    var numRhs := rhs.NumBigits();
    AddCompareBySize(lhs1, lhs2, rhs);
    if maxLhs + 1 < numRhs {
      return -1;
    }
    if maxLhs > numRhs {
      return 1;
    }
    var borrow: nat := 0;
    var minExp := Min(Min(lhs1.exp, lhs2.exp), rhs.exp);
    var i := numRhs - 1;
    HighAbove(lhs1, numRhs);
    HighAbove(lhs2, numRhs);
    HighAbove(rhs, numRhs);
    while i >= minExp
      invariant minExp - 1 <= i < numRhs && (borrow == 0 || borrow == BASE)
      invariant BASE * (High(rhs, i + 1) - High(lhs1, i + 1) - High(lhs2, i + 1)) == borrow
    {
      HighStep(lhs1, i);
      HighStep(lhs2, i);
      HighStep(rhs, i);
      SumDecides(lhs1, lhs2, rhs, i);
      var sum := lhs1.Limb(i) as int + lhs2.Limb(i);
      var rhsBigit := rhs.Limb(i);
      if sum > rhsBigit + borrow {
        return 1;
      }
      borrow := rhsBigit + borrow - sum;
      if borrow > 1 {
        return -1;
      }
      borrow := borrow * BASE;
      i := i - 1;
    }
    SumDecides(lhs1, lhs2, rhs, minExp);
    return if borrow != 0 then -1 else 0;
  }

  lemma HighAbove(b: Bigint, i: int)
    requires b.Valid() && i >= b.NumBigits()
    ensures High(b, i) == 0
  {}

  /** Comparing the rounded-down operands settles the order unless the right one leads by exactly one. */
  lemma SumDecides(a: Bigint, b: Bigint, c: Bigint, i: int)
    requires a.Valid() && b.Valid() && c.Valid() && i >= 0
    ensures High(c, i) < High(a, i) + High(b, i) ==> a.Val() + b.Val() > c.Val()
    ensures High(c, i) > High(a, i) + High(b, i) + 1 ==> a.Val() + b.Val() < c.Val()
    ensures i <= a.exp && i <= b.exp && i <= c.exp ==>
              Sign(a.Val() + b.Val() - c.Val()) == Sign(High(a, i) + High(b, i) - High(c, i))
  {
    hide Bigint.Val, Pow, LimbVal, High;
    HighBounds(a, i);
    HighBounds(b, i);
    HighBounds(c, i);
    SumBounds(High(a, i), High(b, i), High(c, i), Pow(BASE, i), a.Val(), b.Val(), c.Val());
  }

  lemma SumBounds(ha: nat, hb: nat, hc: nat, P: nat, a: nat, b: nat, c: nat)
    requires P > 0 && RoundsTo(a, P, ha) && RoundsTo(b, P, hb) && RoundsTo(c, P, hc)
    ensures hc < ha + hb ==> a + b > c
    ensures hc > ha + hb + 1 ==> a + b < c
    ensures a == P * ha && b == P * hb && c == P * hc ==> Sign(a + b - c) == Sign(ha + hb - hc)
  {
    Distribute(ha, hb, P);
    Distribute(ha + 1, hb + 1, P);
    assert (ha + hb) * P <= a + b < (ha + hb + 2) * P && hc * P <= c < (hc + 1) * P;
    ScaledOrder(ha + hb, hc, P);
    ScaledOrder(hc + 1, ha + hb, P);
    ScaledOrder(ha + hb + 2, hc, P);
  }

  lemma ScaledOrder(x: int, y: int, P: int)
    requires P > 0
    ensures x <= y ==> x * P <= y * P
    ensures x < y ==> x * P < y * P
    ensures x > y ==> x * P > y * P
  {
    Cancel(x, y, P);
    Cancel(y, x, P);
  }

  lemma AddCompareBySize(a: Bigint, b: Bigint, c: Bigint)
    requires a.Canonical() && b.Canonical() && c.Normal()
    requires a.Val() == 0 ==> a.NumBigits() <= c.NumBigits()
    requires b.Val() == 0 ==> b.NumBigits() <= c.NumBigits()
    ensures Max(a.NumBigits(), b.NumBigits()) + 1 < c.NumBigits() ==> a.Val() + b.Val() < c.Val()
    ensures Max(a.NumBigits(), b.NumBigits()) > c.NumBigits() ==> a.Val() + b.Val() > c.Val()
  {
    hide Bigint.Val, LimbVal;
    var m, n := Max(a.NumBigits(), b.NumBigits()), c.NumBigits();
    if m + 1 < n {
      ValBound(a);
      ValBound(b);
      ValBound(c);
      PowMonotone(BASE, a.NumBigits(), m);
      PowMonotone(BASE, b.NumBigits(), m);
      PowMonotone(BASE, m + 1, n - 1);
    } else if m > n {
      ZeroVal(a);
      ZeroVal(b);
      if m == a.NumBigits() { ShorterIsLess(c, a); } else { ShorterIsLess(c, b); }
    }
  }

  //// align, divmod_assign ////

  /** A dividend at most one limb longer than the divisor always stops the borrow. */
  lemma BorrowAlwaysStops(a: Bigint, divisor: Bigint)
    requires a.Normal() && divisor.Normal() && a.exp <= divisor.exp
    requires a.NumBigits() <= divisor.NumBigits() + 1
    ensures a.BorrowStopsAt(divisor)
  {}

  /** And it is at most one limb longer if the quotient fits an int. */
  lemma FewLimbsMore(a: Bigint, divisor: Bigint)
    requires a.Normal() && divisor.Normal() && a.Val() < 0x8000_0000 * divisor.Val()
    ensures a.NumBigits() <= divisor.NumBigits() + 1
  {
    ValBound(a);
    ValBound(divisor);
    var n := divisor.NumBigits();
    assert a.Val() < Pow(BASE, n + 1);
    if a.NumBigits() > n + 1 {
      PowMonotone(BASE, n + 1, a.NumBigits() - 1);
    }
  }

  //// assign_pow10 ////

  ghost predicate IsPowerOfTwo(n: nat) { n == 1 || (n > 0 && n % 2 == 0 && IsPowerOfTwo(n / 2)) }

  lemma DoublePower(n: nat)
    ensures IsPowerOfTwo(1)
    ensures IsPowerOfTwo(n) ==> IsPowerOfTwo(2 * n)
  {}

  lemma HalfPower(n: nat)
    requires IsPowerOfTwo(n)
    ensures n > 1 ==> IsPowerOfTwo(n / 2) && n == 2 * (n / 2)
    ensures n / 2 == 0 ==> n == 1
  {}

  /** Halving the weight appends one bit to the part of the exponent already consumed. */
  lemma NextBit(e: nat, h: nat)
    requires h > 0
    ensures e / h == 2 * (e / (2 * h)) + (e / h) % 2
  {
    var w := 2 * h;
    var q, r := e / w, e % w;
    DivMod(e, w);
    HalfWeight(e, q, h, r);
    if r < h {
      DivModUnique(e, h, 2 * q, r);
    } else {
      DivModUnique(e, h, 2 * q + 1, r - h);
    }
  }

  lemma HalfWeight(e: int, q: int, h: int, r: int)
    requires e == q * (2 * h) + r
    ensures e == (2 * q) * h + r
    ensures e == (2 * q + 1) * h + (r - h)
  {
    Associate(q, 2, h);
    Distribute(2 * q, 1, h);
  }

  lemma TimesFive(k: nat)
    ensures Pow(5, k + 1) == Pow(5, k) * 5
  {}

  lemma QuotientAtMost(e: nat, w: nat)
    requires w > 0
    ensures e / w <= e
  {
    MulAtLeast(e / w, w);
  }

  /** Powers of five stay far below the limb count at which square's indices would leave int. */
  lemma FewLimbs(b: Bigint, k: nat)
    requires b.Normal() && b.exp == 0 && b.Val() == Pow(5, k) && k < 0x4000_0000
    ensures |b.bigits| < 0x4000_0000
  {
    var n := |b.bigits|;
    ValBound(b);
    BasePow(n - 1);
    FiveBelowEight(k);
    PowPow(2, 3, k);
    assert Pow(2, 3) == 8;
    if 32 * (n - 1) > 3 * k {
      PowMonotone(2, 3 * k + 1, 32 * (n - 1));
    }
  }

  lemma {:induction false} FiveBelowEight(k: nat)
    ensures Pow(5, k) <= Pow(8, k)
  {
    if k > 0 { FiveBelowEight(k - 1); }
  }
}
