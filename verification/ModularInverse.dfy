/** fmt's divisible_by_power_of_5: divisibility tested by one multiplication with a modular inverse. */
module ModularInverse {
  import opened Powers

  const W32: int := 0x1_0000_0000
  const W64: int := 0x1_0000_0000_0000_0000

  datatype DivtestEntry = DivtestEntry(modInv: nat, maxQuotient: nat)

  const DIVTEST32: seq<DivtestEntry> := [
    DivtestEntry(0x00000001, 0xffffffff), DivtestEntry(0xcccccccd, 0x33333333),
    DivtestEntry(0xc28f5c29, 0x0a3d70a3), DivtestEntry(0x26e978d5, 0x020c49ba),
    DivtestEntry(0x3afb7e91, 0x0068db8b), DivtestEntry(0x0bcbe61d, 0x0014f8b5),
    DivtestEntry(0x68c26139, 0x000431bd), DivtestEntry(0xae8d46a5, 0x0000d6bf),
    DivtestEntry(0x22e90e21, 0x00002af3), DivtestEntry(0x3a2e9c6d, 0x00000897),
    DivtestEntry(0x3ed61f49, 0x000001b7)]

  const DIVTEST64: seq<DivtestEntry> := [
    DivtestEntry(0x0000000000000001, 0xffffffffffffffff), DivtestEntry(0xcccccccccccccccd, 0x3333333333333333),
    DivtestEntry(0x8f5c28f5c28f5c29, 0x0a3d70a3d70a3d70), DivtestEntry(0x1cac083126e978d5, 0x020c49ba5e353f7c),
    DivtestEntry(0xd288ce703afb7e91, 0x0068db8bac710cb2), DivtestEntry(0x5d4e8fb00bcbe61d, 0x0014f8b588e368f0),
    DivtestEntry(0x790fb65668c26139, 0x000431bde82d7b63), DivtestEntry(0xe5032477ae8d46a5, 0x0000d6bf94d5e57a),
    DivtestEntry(0xc767074b22e90e21, 0x00002af31dc46118), DivtestEntry(0x8e47ce423a2e9c6d, 0x0000089705f4136b),
    DivtestEntry(0x4fa7f60d3ed61f49, 0x000001b7cdfd9d7b), DivtestEntry(0x0fee64690c913975, 0x00000057f5ff85e5),
    DivtestEntry(0x3662e0e1cf503eb1, 0x000000119799812d), DivtestEntry(0xa47a2cf9f6433fbd, 0x0000000384b84d09),
    DivtestEntry(0x54186f653140a659, 0x00000000b424dc35), DivtestEntry(0x7738164770402145, 0x0000000024075f3d),
    DivtestEntry(0xe4a4d1417cd9a041, 0x000000000734aca5), DivtestEntry(0xc75429d9e5c5200d, 0x000000000170ef54),
    DivtestEntry(0xc1773b91fac10669, 0x000000000049c977), DivtestEntry(0x26b172506559ce15, 0x00000000000ec1e4),
    DivtestEntry(0xd489e3a9addec2d1, 0x000000000002f394), DivtestEntry(0x90e860bb892c8d5d, 0x000000000000971d),
    DivtestEntry(0x502e79bf1b6f4f79, 0x0000000000001e39), DivtestEntry(0xdcd618596be30fe5, 0x000000000000060b)]

  predicate DivisibleByPowerOf5Word32(x: nat, exp: nat)
    requires x < W32 && exp <= 10
  {
    (x * DIVTEST32[exp].modInv) % W32 <= DIVTEST32[exp].maxQuotient
  }

  predicate DivisibleByPowerOf5Word64(x: nat, exp: nat)
    requires x < W64 && exp <= 23
  {
    (x * DIVTEST64[exp].modInv) % W64 <= DIVTEST64[exp].maxQuotient
  }

  /** The entry is the inverse of d modulo w together with the largest quotient by d. */
  predicate ExactEntry(entry: DivtestEntry, d: nat, w: nat)
    requires d > 0 && w > 0
  {
    (entry.modInv * d) % w == 1 && entry.maxQuotient == (w - 1) / d
  }

  lemma Table32Exact(exp: nat)
    requires exp <= 10
    ensures ExactEntry(DIVTEST32[exp], Pow(5, exp), W32)
  {
    assert ExactEntry(DIVTEST32[0], Pow(5, 0), W32);
    assert ExactEntry(DIVTEST32[1], Pow(5, 1), W32);
    assert ExactEntry(DIVTEST32[2], Pow(5, 2), W32);
    assert ExactEntry(DIVTEST32[3], Pow(5, 3), W32);
    assert ExactEntry(DIVTEST32[4], Pow(5, 4), W32);
    assert ExactEntry(DIVTEST32[5], Pow(5, 5), W32);
    assert ExactEntry(DIVTEST32[6], Pow(5, 6), W32);
    assert ExactEntry(DIVTEST32[7], Pow(5, 7), W32);
    assert ExactEntry(DIVTEST32[8], Pow(5, 8), W32);
    assert ExactEntry(DIVTEST32[9], Pow(5, 9), W32);
    assert ExactEntry(DIVTEST32[10], Pow(5, 10), W32);
  }

  lemma Table64Exact(exp: nat)
    requires exp <= 23
    ensures ExactEntry(DIVTEST64[exp], Pow(5, exp), W64)
  {
    assert ExactEntry(DIVTEST64[0], Pow(5, 0), W64);
    assert ExactEntry(DIVTEST64[1], Pow(5, 1), W64);
    assert ExactEntry(DIVTEST64[2], Pow(5, 2), W64);
    assert ExactEntry(DIVTEST64[3], Pow(5, 3), W64);
    assert ExactEntry(DIVTEST64[4], Pow(5, 4), W64);
    assert ExactEntry(DIVTEST64[5], Pow(5, 5), W64);
    assert ExactEntry(DIVTEST64[6], Pow(5, 6), W64);
    assert ExactEntry(DIVTEST64[7], Pow(5, 7), W64);
    assert ExactEntry(DIVTEST64[8], Pow(5, 8), W64);
    assert ExactEntry(DIVTEST64[9], Pow(5, 9), W64);
    assert ExactEntry(DIVTEST64[10], Pow(5, 10), W64);
    assert ExactEntry(DIVTEST64[11], Pow(5, 11), W64);
    assert ExactEntry(DIVTEST64[12], Pow(5, 12), W64);
    assert ExactEntry(DIVTEST64[13], Pow(5, 13), W64);
    assert ExactEntry(DIVTEST64[14], Pow(5, 14), W64);
    assert ExactEntry(DIVTEST64[15], Pow(5, 15), W64);
    assert ExactEntry(DIVTEST64[16], Pow(5, 16), W64);
    assert ExactEntry(DIVTEST64[17], Pow(5, 17), W64);
    assert ExactEntry(DIVTEST64[18], Pow(5, 18), W64);
    assert ExactEntry(DIVTEST64[19], Pow(5, 19), W64);
    assert ExactEntry(DIVTEST64[20], Pow(5, 20), W64);
    assert ExactEntry(DIVTEST64[21], Pow(5, 21), W64);
    assert ExactEntry(DIVTEST64[22], Pow(5, 22), W64);
    assert ExactEntry(DIVTEST64[23], Pow(5, 23), W64);
  }

  /** One multiplication and one comparison decide divisibility, and a success leaves the quotient. */
  lemma InverseTest(x: nat, d: nat, w: nat, inv: nat, maxQuotient: nat)
    requires d > 0 && x < w && (inv * d) % w == 1 && maxQuotient == (w - 1) / d
    ensures (x * inv) % w <= maxQuotient <==> x % d == 0
    ensures x % d == 0 ==> (x * inv) % w == x / d
  {
    var k, z, t := (inv * d) / w, (x * inv) % w, (x * inv) / w;
    InverseWitness(x, d, w, inv, k, z, t);
    if x % d == 0 {
      DivideExactly(x, d);
      Quotients(x / d, d, w);
      InverseOfMultiple(x / d, d, w, inv, k);
    }
    if z <= maxQuotient {
      Monotone(z, maxQuotient, d);
      QuotientBelow(w - 1, d);
      OnlyMultiple(z * d - x, x * k - t * d, w);
      RemainderZero(z, d);
    }
  }

  lemma InverseOfMultiple(y: nat, d: nat, w: nat, inv: nat, k: nat)
    requires w > 0 && inv * d == k * w + 1 && y < w
    ensures ((y * d) * inv) % w == y
  {
    assert (y * d) * inv == (y * k) * w + y by {
      Associate(y, d, inv);
      Associate(y, k, w);
      Distribute(k * w, 1, y);
      assert d * inv == inv * d;
    }
    DivModUnique((y * d) * inv, w, y * k, y);
  }

  lemma OnlyMultiple(a: int, m: int, w: int)
    requires w > 0 && a == m * w && -w < a < w
    ensures a == 0
  {
    if m >= 1 { Monotone(1, m, w); }
    if m <= -1 { Monotone(m, -1, w); }
  }

  lemma InverseWitness(x: int, d: int, w: int, inv: int, k: int, z: int, t: int)
    requires inv * d == k * w + 1 && x * inv == t * w + z
    ensures z * d - x == (x * k - t * d) * w
  {
    assert (x * inv) * d == x * (k * w + 1) by { Associate(x, inv, d); }
    Distribute(t * w, z, d);
    Distribute(x * k, t * d, w);
    Associate(t, w, d);
    Associate(t, d, w);
    Associate(x, k, w);
    Distribute(k * w, 1, x);
  }

  lemma DivideExactly(x: nat, d: nat)
    requires d > 0 && x % d == 0
    ensures x == (x / d) * d
  {}

  lemma QuotientBelow(n: nat, d: nat)
    requires d > 0
    ensures (n / d) * d <= n
  {}

  lemma RemainderZero(z: nat, d: nat)
    requires d > 0
    ensures (z * d) % d == 0
  {
    DivModUnique(z * d, d, z, 0);
  }

  lemma Quotients(y: nat, d: nat, w: nat)
    requires d > 0 && y * d < w
    ensures y <= (w - 1) / d && y < w
  {
    MulAtLeast(y, d);
    if y > (w - 1) / d {
      Monotone((w - 1) / d + 1, y, d);
      Distribute((w - 1) / d, 1, d);
    }
  }

  //// the test functions ////

  /** For every 32-bit word and every entry of the table the test decides divisibility by 5^exp. */
  lemma DivisibleByPowerOf5Exact32(x: nat, exp: nat)
    requires x < W32 && exp <= 10
    ensures DivisibleByPowerOf5Word32(x, exp) <==> x % Pow(5, exp) == 0
  {
    Table32Exact(exp);
    InverseTest(x, Pow(5, exp), W32, DIVTEST32[exp].modInv, DIVTEST32[exp].maxQuotient);
  }

  /** And for every 64-bit word. */
  lemma DivisibleByPowerOf5Exact64(x: nat, exp: nat)
    requires x < W64 && exp <= 23
    ensures DivisibleByPowerOf5Word64(x, exp) <==> x % Pow(5, exp) == 0
  {
    Table64Exact(exp);
    InverseTest(x, Pow(5, exp), W64, DIVTEST64[exp].modInv, DIVTEST64[exp].maxQuotient);
  }
}
