/** 64 x 64-bit products assembled from 32-bit halves, as done where no 128-bit type exists. */
module WideMultiply {
  import opened Powers
  import opened Limbs

  type Uint64 = x: int | 0 <= x < 0x1_0000_0000_0000_0000

  const TWO64: int := 0x1_0000_0000_0000_0000

  /** multiply() with __uint128_t: the high word, plus one when bit 63 of the low word is set. */
  function MultiplyInt128(lhs: Uint64, rhs: Uint64): nat
  {
    var product := lhs * rhs;
    var f := product / TWO64;
    if Low64(product) >= 0x8000_0000_0000_0000 then Low64(f + 1) else f
  }

  /** multiply() on 32-bit halves; every sum and product is a 64-bit one. */
  function MultiplyHalves(lhs: Uint64, rhs: Uint64): nat
  {
    var a, b := lhs / BASE, lhs % BASE;
    var c, d := rhs / BASE, rhs % BASE;
    var ac, bc, ad, bd := Low64(a * c), Low64(b * c), Low64(a * d), Low64(b * d);
    var mid := Low64(Middle(ad, bc, bd, 0x8000_0000));
    Low64(ac + ad / BASE + bc / BASE + mid / BASE)
  }

  datatype Uint128 = Uint128(high: nat, low: nat)

  /** umul128() on 32-bit halves. */
  function Umul128(x: Uint64, y: Uint64): Uint128
  {
    var a, b := x / BASE, x % BASE;
    var c, d := y / BASE, y % BASE;
    var ac, bc, ad, bd := Low64(a * c), Low64(b * c), Low64(a * d), Low64(b * d);
    var intermediate := Low64(Middle(ad, bc, bd, 0));
    Uint128(Low64(ac + intermediate / BASE + ad / BASE + bc / BASE),
            Low64(Low64(intermediate * BASE) + bd % BASE))
  }

  lemma HalfProducts(a: nat, b: nat, c: nat, d: nat)
    requires a < BASE && b < BASE && c < BASE && d < BASE
    ensures a * c <= (BASE - 1) * (BASE - 1) && b * c <= (BASE - 1) * (BASE - 1)
    ensures a * d <= (BASE - 1) * (BASE - 1) && b * d <= (BASE - 1) * (BASE - 1)
    ensures (a * BASE + b) * (c * BASE + d) == (a * c) * TWO64 + (a * d) * BASE + (b * c) * BASE + b * d
  {
    Monotone(a, BASE - 1, c);
    Monotone(b, BASE - 1, c);
    Monotone(a, BASE - 1, d);
    Monotone(b, BASE - 1, d);
    Distribute(a * BASE, b, c * BASE + d);
    Distribute(c * BASE, d, a * BASE);
    Distribute(c * BASE, d, b);
    Interchange(a, BASE, c, BASE);
    Associate(a, d, BASE);
    Associate(b, c, BASE);
  }

  lemma Halves(x: Uint64)
    ensures x / BASE < BASE && x % BASE < BASE && x == (x / BASE) * BASE + x % BASE
  {}

  /** The middle word collects at most three 32-bit parts and a rounding bit. */
  function Middle(ad: nat, bc: nat, bd: nat, extra: nat): nat
  {
    bd / BASE + ad % BASE + bc % BASE + extra
  }

  lemma MiddleBound(ad: nat, bc: nat, bd: nat, extra: nat)
    requires bd <= (BASE - 1) * (BASE - 1) && extra <= 0x8000_0000
    ensures Middle(ad, bc, bd, extra) < 4 * BASE
  {}

  lemma Regrouped(ac: nat, ad: nat, bc: nat, bd: nat, extra: nat)
    ensures ac * TWO64 + ad * BASE + bc * BASE + bd + extra * BASE
         == (ac + ad / BASE + bc / BASE) * TWO64 + Middle(ad, bc, bd, extra) * BASE + bd % BASE
  {}

  /** The high word cannot overflow, because the whole sum fits in 128 bits. */
  lemma HighBound(ac: nat, ad: nat, bc: nat, bd: nat, extra: nat)
    requires ac <= (BASE - 1) * (BASE - 1) && ad <= (BASE - 1) * (BASE - 1)
    requires bc <= (BASE - 1) * (BASE - 1) && bd <= (BASE - 1) * (BASE - 1) && extra <= 0x8000_0000
    ensures ac + ad / BASE + bc / BASE + Middle(ad, bc, bd, extra) / BASE < TWO64
  {
    hide Middle;
    Regrouped(ac, ad, bc, bd, extra);
  }

  lemma SplitMiddle(m: nat, r: nat)
    requires m < 4 * BASE && r < BASE
    ensures m * BASE == (m / BASE) * TWO64 + Low64(m * BASE)
    ensures Low64(m * BASE) + r < TWO64
    ensures (m * BASE + r) / TWO64 == m / BASE
  {
    var q, l := m / BASE, m % BASE;
    assert m * BASE == q * TWO64 + l * BASE;
    DivModUnique(m * BASE, TWO64, q, l * BASE);
    DivModUnique(m * BASE + r, TWO64, q, l * BASE + r);
  }

  lemma Fits(x: nat)
    ensures x < TWO64 ==> Low64(x) == x
  {}

  /** The halves give the exact 128-bit product. */
  lemma Umul128Exact(x: Uint64, y: Uint64)
    ensures Umul128(x, y).high * TWO64 + Umul128(x, y).low == x * y
  {
    hide Middle, Low64;
    var a, b, c, d := x / BASE, x % BASE, y / BASE, y % BASE;
    Halves(x);
    Halves(y);
    HalfProducts(a, b, c, d);
    UmulParts(a * c, a * d, b * c, b * d, x * y);
  }

  lemma UmulParts(ac: nat, ad: nat, bc: nat, bd: nat, product: nat)
    requires ac <= (BASE - 1) * (BASE - 1) && ad <= (BASE - 1) * (BASE - 1)
    requires bc <= (BASE - 1) * (BASE - 1) && bd <= (BASE - 1) * (BASE - 1)
    requires product == ac * TWO64 + ad * BASE + bc * BASE + bd
    ensures Low64(ac) == ac && Low64(ad) == ad && Low64(bc) == bc && Low64(bd) == bd
    ensures Low64(Middle(ad, bc, bd, 0)) == Middle(ad, bc, bd, 0)
    ensures var m := Middle(ad, bc, bd, 0);
            (Low64(ac + m / BASE + ad / BASE + bc / BASE) * TWO64 + Low64(Low64(m * BASE) + bd % BASE) == product)
  {
    hide Middle, Low64;
    var m := Middle(ad, bc, bd, 0);
    Fits(ac);
    Fits(ad);
    Fits(bc);
    Fits(bd);
    Fits(m);
    MiddleBound(ad, bc, bd, 0);
    HighBound(ac, ad, bc, bd, 0);
    Fits(ac + m / BASE + ad / BASE + bc / BASE);
    Fits(Low64(m * BASE) + bd % BASE);
    SplitMiddle(m, bd % BASE);
    Regrouped(ac, ad, bc, bd, 0);
  }

  /** Both forms round the upper half of the product half up, with no wrap-around. */
  lemma MultiplyRoundsHalfUp(lhs: Uint64, rhs: Uint64)
    ensures MultiplyInt128(lhs, rhs) == (lhs * rhs + 0x8000_0000_0000_0000) / TWO64
    ensures MultiplyHalves(lhs, rhs) == MultiplyInt128(lhs, rhs)
  {
    hide MultiplyInt128;
    var a, b, c, d := lhs / BASE, lhs % BASE, rhs / BASE, rhs % BASE;
    Halves(lhs);
    Halves(rhs);
    HalfProducts(a, b, c, d);
    Monotone(lhs, TWO64 - 1, rhs);
    RoundedProduct(lhs, rhs);
    RoundedParts(a * c, a * d, b * c, b * d, lhs * rhs);
  }

  lemma RoundedProduct(lhs: Uint64, rhs: Uint64)
    requires lhs * rhs <= (TWO64 - 1) * rhs
    ensures MultiplyInt128(lhs, rhs) == (lhs * rhs + 0x8000_0000_0000_0000) / TWO64
  {
    hide Low64;
    var product := lhs * rhs;
    Monotone(rhs, TWO64 - 1, TWO64 - 1);
    Monotone(0, lhs, rhs);
    HalfUp(product);
  }

  lemma HalfUp(p: nat)
    requires p <= (TWO64 - 1) * (TWO64 - 1)
    ensures (if Low64(p) >= 0x8000_0000_0000_0000 then Low64(p / TWO64 + 1) else p / TWO64)
         == (p + 0x8000_0000_0000_0000) / TWO64
  {}

  lemma RoundedParts(ac: nat, ad: nat, bc: nat, bd: nat, product: nat)
    requires ac <= (BASE - 1) * (BASE - 1) && ad <= (BASE - 1) * (BASE - 1)
    requires bc <= (BASE - 1) * (BASE - 1) && bd <= (BASE - 1) * (BASE - 1)
    requires product == ac * TWO64 + ad * BASE + bc * BASE + bd
    ensures Low64(ac) == ac && Low64(ad) == ad && Low64(bc) == bc && Low64(bd) == bd
    ensures Low64(Middle(ad, bc, bd, 0x8000_0000)) == Middle(ad, bc, bd, 0x8000_0000)
    ensures Low64(ac + ad / BASE + bc / BASE + Middle(ad, bc, bd, 0x8000_0000) / BASE)
         == (product + 0x8000_0000_0000_0000) / TWO64
  {
    hide Middle, Low64;
    var m := Middle(ad, bc, bd, 0x8000_0000);
    Fits(ac);
    Fits(ad);
    Fits(bc);
    Fits(bd);
    Fits(m);
    MiddleBound(ad, bc, bd, 0x8000_0000);
    HighBound(ac, ad, bc, bd, 0x8000_0000);
    Fits(ac + ad / BASE + bc / BASE + m / BASE);
    SplitMiddle(m, bd % BASE);
    Regrouped(ac, ad, bc, bd, 0x8000_0000);
    AddWholeWords(ac + ad / BASE + bc / BASE, m * BASE + bd % BASE);
  }

  lemma AddWholeWords(h: nat, l: nat)
    ensures (h * TWO64 + l) / TWO64 == h + l / TWO64
  {}
}
