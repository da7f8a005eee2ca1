/** The column-by-column square of a limb sequence, independent of any bigint object. */
module Squares {
  import opened Powers
  import opened Limbs

  function Clamp(x: int, hi: nat): nat { if x < 0 then 0 else if x > hi then hi else x }

  /** Cross products n[t] * n[k - t] for lo <= t < hi. */
  ghost function Column(n: seq<Bigit>, k: nat, lo: nat, hi: nat): nat
    requires hi <= |n| && hi <= k + 1 && k - |n| < lo
    decreases hi
  {
    if hi <= lo then 0 else Column(n, k, lo, hi - 1) + n[hi - 1] as int * n[k - (hi - 1)]
  }

  function Product(a: nat, b: nat, c: nat): nat { a * b * c }

  /** The products n[i] * n[j] * BASE^(i + j) of one row with i + j < k. */
  ghost function RowTerm(n: seq<Bigit>, k: nat, i: nat): nat
    requires i < |n|
  {
    Product(n[i], Pow(BASE, i), LimbVal(n[..Clamp(k - i, |n|)]))
  }

  /** All products n[i] * n[j] * BASE^(i + j) with i < m and i + j < k. */
  ghost function Row(n: seq<Bigit>, k: nat, m: nat): nat
    requires m <= |n|
    decreases m
  {
    if m == 0 then 0 else Row(n, k, m - 1) + RowTerm(n, k, m - 1)
  }

  /** First index of column k, and one past its last. */
  function ColumnLo(n: seq<Bigit>, k: nat): nat { Clamp(k - |n| + 1, |n|) }
  function ColumnHi(n: seq<Bigit>, k: nat): nat { Clamp(k + 1, |n|) }

  lemma ColumnEnds(n: seq<Bigit>, k: nat)
    ensures k < |n| ==> ColumnLo(n, k) == 0 && ColumnHi(n, k) == k + 1
    ensures |n| <= k < 2 * |n| ==> ColumnLo(n, k) == k - |n| + 1 && ColumnHi(n, k) == |n|
  {}

  /** One more column adds at most one product to each row. */
  lemma RowTermStep(n: seq<Bigit>, k: nat, i: nat)
    requires i < |n| && k < 2 * |n|
    ensures ColumnLo(n, k) <= i < ColumnHi(n, k) ==>
              i <= k && k - i < |n| && RowTerm(n, k + 1, i) == RowTerm(n, k, i) + Product(n[i], n[k - i], Pow(BASE, k))
    ensures !(ColumnLo(n, k) <= i < ColumnHi(n, k)) ==> RowTerm(n, k + 1, i) == RowTerm(n, k, i)
  {
    hide Pow, LimbVal;
    if ColumnLo(n, k) <= i < ColumnHi(n, k) {
      LimbValTake(n, k - i);
      PowAdd(BASE, i, k - i);
      CrossTerm(n[i], Pow(BASE, i), LimbVal(n[..k - i]), n[k - i], Pow(BASE, k - i));
    }
  }

  lemma {:induction false} RowStep(n: seq<Bigit>, k: nat, m: nat)
    requires m <= |n| && k < 2 * |n|
    ensures Row(n, k + 1, m) == Row(n, k, m) + Column(n, k, ColumnLo(n, k), Clamp(m, ColumnHi(n, k))) * Pow(BASE, k)
  {
    hide Pow, LimbVal, RowTerm;
    if m > 0 {
      RowStep(n, k, m - 1);
      RowTermStep(n, k, m - 1);
      var i, lo := m - 1, ColumnLo(n, k);
      if lo <= i < ColumnHi(n, k) {
        Distribute(Column(n, k, lo, i), n[i] as int * n[k - i], Pow(BASE, k));
      }
    }
  }

  lemma CrossTerm(a: nat, P: nat, v: nat, b: nat, Q: nat)
    ensures Product(a, P, v + b * Q) == Product(a, P, v) + Product(a, b, P * Q)
  {
    Distribute(v, b * Q, a * P);
    Interchange(a, P, b, Q);
  }

  lemma {:induction false} RowZero(n: seq<Bigit>, m: nat)
    requires m <= |n|
    ensures Row(n, 0, m) == 0
  {
    if m > 0 {
      RowZero(n, m - 1);
      assert LimbVal(n[..0]) == 0;
      assert RowTerm(n, 0, m - 1) == 0;
    }
  }

  lemma {:induction false} RowAll(n: seq<Bigit>, m: nat)
    requires m <= |n|
    ensures Row(n, 2 * |n|, m) == LimbVal(n[..m]) * LimbVal(n)
  {
    if m == 0 {
    } else {
      hide Pow, LimbVal;
      RowAll(n, m - 1);
      LimbValTake(n, m - 1);
      assert n[..|n|] == n;
      Distribute(LimbVal(n[..m - 1]), n[m - 1] * Pow(BASE, m - 1), LimbVal(n));
    }
  }

  /** The limbs below k and the carry together hold every cross product of weight below BASE^k. */
  ghost predicate ColumnsDone(r: seq<Bigit>, n: seq<Bigit>, k: nat, sum: nat)
  {
    k <= |r| == 2 * |n| && LimbVal(r[..k]) + sum * Pow(BASE, k) == Row(n, k, |n|)
  }

  lemma ColumnsStart(r: seq<Bigit>, n: seq<Bigit>)
    requires |r| == 2 * |n|
    ensures ColumnsDone(r, n, 0, 0)
  {
    RowZero(n, |n|);
  }

  lemma ColumnStart(n: seq<Bigit>, k: nat, lo: nat)
    requires lo <= |n| && lo <= k + 1 && k - |n| < lo
    ensures Column(n, k, lo, lo) == 0
  {}

  lemma {:induction false} ColumnBound(n: seq<Bigit>, k: nat, lo: nat, hi: nat)
    requires lo <= hi <= |n| && hi <= k + 1 && k - |n| < lo
    ensures Column(n, k, lo, hi) <= (hi - lo) * (BASE - 1) * (BASE - 1)
    decreases hi
  {
    if lo < hi {
      ColumnBound(n, k, lo, hi - 1);
      LimbProduct(n[hi - 1], n[k - (hi - 1)]);
    }
  }

  /** Adding one cross product stays exact in 128 bits. */
  lemma ColumnAdd(n: seq<Bigit>, k: nat, lo: nat, i: nat, carry: nat, N: nat)
    requires N == |n| < 0x4000_0000 && lo <= i < |n| && i <= k && k - |n| < lo && carry <= N * BASE
    ensures Column(n, k, lo, i + 1) == Column(n, k, lo, i) + n[i] as int * n[k - i]
    ensures n[i] * n[k - i] <= (BASE - 1) * (BASE - 1)
    ensures carry + Column(n, k, lo, i + 1) < BASE * BASE * BASE * BASE
  {
    ColumnBound(n, k, lo, i + 1);
    LimbProduct(n[i], n[k - i]);
  }

  /** Storing the low limb of a finished column and shifting the rest keeps every product. */
  lemma ColumnDone(before: seq<Bigit>, after: seq<Bigit>, n: seq<Bigit>, k: nat, carry: nat, sum: nat)
    requires ColumnsDone(before, n, k, carry) && k < 2 * |n| && |n| < 0x4000_0000
    requires |after| == |before| && after == before[k := after[k]] && after[k] == sum % BASE
    requires sum == carry + Column(n, k, ColumnLo(n, k), ColumnHi(n, k))
    requires carry <= |n| * BASE
    ensures ColumnsDone(after, n, k + 1, sum / BASE)
    ensures sum / BASE <= |n| * BASE
  {
    assert after[..k] == before[..k];
    LimbValTake(after, k);
    RowStep(n, k, |n|);
    ColumnBound(n, k, ColumnLo(n, k), ColumnHi(n, k));
    ColumnAlgebra(carry, Column(n, k, ColumnLo(n, k), ColumnHi(n, k)), sum, Pow(BASE, k));
    CarryBound(carry, Column(n, k, ColumnLo(n, k), ColumnHi(n, k)), |n|);
  }

  lemma ColumnAlgebra(carry: nat, column: nat, sum: nat, P: nat)
    requires sum == carry + column
    ensures (sum % BASE) * P + (sum / BASE) * (BASE * P) == carry * P + column * P
  {
    Distribute(carry, column, P);
    Distribute(sum % BASE, (sum / BASE) * BASE, P);
    Associate(sum / BASE, BASE, P);
  }

  lemma CarryBound(carry: nat, column: nat, N: nat)
    requires carry <= N * BASE && column <= N * (BASE - 1) * (BASE - 1)
    ensures (carry + column) / BASE <= N * BASE
  {}

  /** After the last column nothing is left to carry. */
  lemma SquareDone(r: seq<Bigit>, n: seq<Bigit>, sum: nat)
    requires ColumnsDone(r, n, 2 * |n|, sum)
    ensures sum == 0 && LimbVal(r) == LimbVal(n) * LimbVal(n)
  {
    hide Pow, LimbVal, Row;
    assert r[..2 * |n|] == r && n[..|n|] == n;
    RowAll(n, |n|);
    LimbValBound(n);
    PowAdd(BASE, |n|, |n|);
    NothingLeft(LimbVal(r), sum, LimbVal(n), Pow(BASE, |n|), Pow(BASE, 2 * |n|));
  }

  lemma NothingLeft(r: nat, sum: nat, v: nat, p: nat, q: nat)
    requires r + sum * q == v * v && v < p && q == p * p
    ensures sum == 0
  {
    SquareBelow(v, p);
    if sum > 0 {
      MulAtLeast(q, sum);
    }
  }

  lemma SquareBelow(x: nat, p: nat)
    requires x < p
    ensures x * x < p * p
  {
    Monotone(x, p, x);
    Cancel(x, p, p);
  }

  lemma SquaredVal(w: nat, v: nat, e: nat)
    requires w == v * v
    ensures w * Pow(BASE, 2 * e) == (v * Pow(BASE, e)) * (v * Pow(BASE, e))
  {
    PowAdd(BASE, e, e);
    Interchange(v, v, Pow(BASE, e), Pow(BASE, e));
  }
}
