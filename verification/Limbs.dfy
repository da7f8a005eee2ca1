/** Little-endian sequences of 32-bit limbs and the natural number they denote. */
module Limbs {
  import opened Powers

  const BASE: int := 0x1_0000_0000

  type Bigit = x: int | 0 <= x < 0x1_0000_0000

  /** static_cast<uint32_t>: keeps the low 32 bits. */
  function Low32(x: nat): Bigit { x % BASE }

  /** static_cast<uint64_t> of a mathematically exact result: keeps the low 64 bits. */
  function Low64(x: int): nat { x % 0x1_0000_0000_0000_0000 }

  /** The product of two limbs. */
  lemma LimbProduct(x: nat, y: nat)
    requires x < BASE && y < BASE
    ensures 0 <= x * y <= (BASE - 1) * (BASE - 1)
  {
    Monotone(x, BASE - 1, y);
    Monotone(y, BASE - 1, BASE - 1);
    Monotone(0, x, y);
  }

  function LimbVal(s: seq<Bigit>): (v: nat)
  {
    if s == [] then 0 else s[0] + BASE * LimbVal(s[1..])
  }

  lemma {:induction false} LimbValConcat(a: seq<Bigit>, b: seq<Bigit>)
    ensures LimbVal(a + b) == LimbVal(a) + Pow(BASE, |a|) * LimbVal(b)
  {
    if a == [] {
      assert a + b == b;
    } else {
      LimbValConcat(a[1..], b);
      assert (a + b)[1..] == a[1..] + b;
      Associate(BASE, Pow(BASE, |a| - 1), LimbVal(b));
    }
  }

  lemma LimbValOne(x: Bigit)
    ensures LimbVal([x]) == x
  {
    assert [x][1..] == [];
  }

  /** One more limb on top of the first i adds it at weight BASE^i. */
  lemma LimbValTake(s: seq<Bigit>, i: nat)
    requires i < |s|
    ensures LimbVal(s[..i + 1]) == LimbVal(s[..i]) + s[i] * Pow(BASE, i)
  {
    assert s[..i + 1] == s[..i] + [s[i]];
    LimbValConcat(s[..i], [s[i]]);
    LimbValOne(s[i]);
  }

  lemma {:induction false} LimbValBound(s: seq<Bigit>)
    ensures LimbVal(s) < Pow(BASE, |s|)
  {
    if s == [] {
    } else {
      LimbValBound(s[1..]);
    }
  }

  lemma LimbValSplit(s: seq<Bigit>, i: nat)
    requires i <= |s|
    ensures LimbVal(s) == LimbVal(s[..i]) + Pow(BASE, i) * LimbVal(s[i..])
  {
    assert s == s[..i] + s[i..];
    LimbValConcat(s[..i], s[i..]);
  }

  /** A nonzero top limb puts the value at or above the weight of that limb. */
  lemma LimbValTop(s: seq<Bigit>)
    requires s != [] && s[|s| - 1] != 0
    ensures Pow(BASE, |s| - 1) <= LimbVal(s)
  {
    LimbValTake(s, |s| - 1);
    assert s[..|s|] == s;
    MulAtLeast(Pow(BASE, |s| - 1), s[|s| - 1]);
  }

  function Zeros(n: nat): (s: seq<Bigit>)
    ensures |s| == n && forall i :: 0 <= i < n ==> s[i] == 0
  {
    seq(n, i => 0)
  }

  lemma {:induction false} LimbValZeros(s: seq<Bigit>)
    requires forall i :: 0 <= i < |s| ==> s[i] == 0
    ensures LimbVal(s) == 0
  {
    if s == [] {
    } else {
      LimbValZeros(s[1..]);
    }
  }

  /** BASE^n as a power of two. */
  lemma BasePow(n: nat)
    ensures Pow(BASE, n) == Pow(2, 32 * n)
  {
    assert Pow(2, 32) == BASE by {
      PowAdd(2, 16, 16);
      PowAdd(2, 8, 8);
      assert Pow(2, 8) == 256;
    }
    PowPow(2, 32, n);
  }
}
