/** What a correctly rounded decimal is: a specification that mentions no bigint. */
module Rounding {
  import opened Powers

  function Pos(x: int): nat { if x > 0 then x else 0 }

  /** f * 2^e / 10^p is ScaledNum(f, e, p) / ScaledDen(e, p). */
  function ScaledNum(f: nat, e: int, p: int): nat { f * Pow(2, Pos(e)) * Pow(10, Pos(-p)) }
  function ScaledDen(e: int, p: int): (d: nat)
    ensures d > 0
  {
    MulPositive(Pow(2, Pos(-e)), Pow(10, Pos(p)));
    Pow(2, Pos(-e)) * Pow(10, Pos(p))
  }

  lemma MulPositive(x: nat, y: nat)
    requires x > 0 && y > 0
    ensures x * y > 0
  {}

  /** q is the integer nearest to n / m, the even one of two equally near. */
  ghost predicate IsNearestEven(q: int, n: int, m: int)
  {
    && 2 * n - m <= 2 * (q * m) <= 2 * n + m
    && (2 * (q * m) == 2 * n - m || 2 * (q * m) == 2 * n + m ==> q % 2 == 0)
  }

  lemma NearestEvenUnique(a: int, b: int, n: int, m: int)
    requires m > 0 && IsNearestEven(a, n, m) && IsNearestEven(b, n, m)
    ensures a == b
  {
    if a < b {
      NearestEvenOrdered(a, b, n, m);
    } else if b < a {
      NearestEvenOrdered(b, a, n, m);
    }
  }

  lemma NearestEvenOrdered(a: int, b: int, n: int, m: int)
    requires m > 0 && a < b && IsNearestEven(a, n, m)
    ensures !IsNearestEven(b, n, m)
  {
    Monotone(a + 1, b, m);
    Distribute(a, 1, m);
    if b > a + 1 {
      Monotone(a + 2, b, m);
      Distribute(a, 2, m);
    }
  }

  /** Rounding depends only on the ratio. */
  lemma NearestEvenRatio(q: int, n: int, m: int, n': int, m': int)
    requires m > 0 && m' > 0 && n * m' == n' * m && IsNearestEven(q, n, m)
    ensures IsNearestEven(q, n', m')
  {
    var qm, qm' := q * m, q * m';
    assert qm * m' == qm' * m by {
      Associate(q, m, m');
      Associate(q, m', m);
    }
    RatioBound(2 * qm - 2 * n, m, 2 * qm' - 2 * n', m') by {
      Distribute(2 * qm, 2 * n, m');
      Distribute(2 * qm', 2 * n', m);
      Associate(2, qm, m');
      Associate(2, n, m');
      Associate(2, qm', m);
      Associate(2, n', m);
    }
  }

  lemma RatioBound(a: int, m: int, b: int, m': int)
    requires m > 0 && m' > 0 && a * m' == b * m
    ensures -m <= a <==> -m' <= b
    ensures a <= m <==> b <= m'
    ensures a == m <==> b == m'
    ensures a == -m <==> b == -m'
  {
    Cancel(a, m, m');
    Cancel(m, a, m');
    Cancel(b, m', m);
    Cancel(m', b, m);
    Cancel(a, -m, m');
    Cancel(-m, a, m');
    Cancel(b, -m', m);
    Cancel(-m', b, m);
    assert m * m' == m' * m && (-m) * m' == (-m') * m;
  }

  /** Moving the decimal point by k digits multiplies the ratio by 10^k. */
  lemma ScaleShift(f: nat, e: int, x: int, k: nat, num: nat, den: nat)
    requires num * ScaledDen(e, x) == den * ScaledNum(f, e, x)
    ensures (num * Pow(10, k)) * ScaledDen(e, x - k) == den * ScaledNum(f, e, x - k)
  {
    hide Pow, Pos;
    var p := x - k;
    PowersOfTenBalance(p, x, k);
    ScaleAlgebra(num, den, f * Pow(2, Pos(e)), Pow(2, Pos(-e)), Pow(10, Pos(-p)), Pow(10, Pos(x)),
                 Pow(10, Pos(-x)), Pow(10, Pos(p)), Pow(10, k));
  }

  lemma PowersOfTenBalance(p: int, x: int, k: nat)
    requires p == x - k
    ensures Pow(10, Pos(-p)) * Pow(10, Pos(x)) == (Pow(10, Pos(-x)) * Pow(10, Pos(p))) * Pow(10, k)
  {
    hide Pow;
    PowAdd(10, Pos(-p), Pos(x));
    PowAdd(10, Pos(-x), Pos(p));
    PowAdd(10, Pos(-x) + Pos(p), k);
    assert Pos(-p) + Pos(x) == Pos(-x) + Pos(p) + k;
  }

  lemma ScaleAlgebra(num: nat, den: nat, a: nat, b: nat, pm: nat, xp: nat, xm: nat, pp: nat, k: nat)
    requires b > 0 && xp > 0
    requires num * (b * xp) == den * (a * xm)
    requires pm * xp == (xm * pp) * k
    ensures (num * k) * (b * pp) == den * (a * pm)
  {
    calc {
      ((num * k) * (b * pp)) * xp;
    ==  { Rearrange(num, k, b, pp, xp); }
      (num * (b * xp)) * (pp * k);
    ==
      (den * (a * xm)) * (pp * k);
    ==  { Regroup(den, a, xm, pp, k); }
      (den * a) * ((xm * pp) * k);
    ==
      (den * a) * (pm * xp);
    ==  { Associate(den * a, pm, xp); Associate(den, a, pm); }
      (den * (a * pm)) * xp;
    }
    Cancel((num * k) * (b * pp), den * (a * pm), xp);
  }

  lemma Rearrange(num: int, k: int, b: int, pp: int, xp: int)
    ensures ((num * k) * (b * pp)) * xp == (num * (b * xp)) * (pp * k)
  {
    calc {
      ((num * k) * (b * pp)) * xp;
    ==  { Interchange(num, k, b, pp); }
      ((num * b) * (k * pp)) * xp;
    ==  { Associate(num * b, k * pp, xp); assert (k * pp) * xp == xp * (k * pp); }
      (num * b) * (xp * (k * pp));
    ==  { Associate(num * b, xp, k * pp); Associate(num, b, xp); assert k * pp == pp * k; }
      (num * (b * xp)) * (pp * k);
    }
  }

  lemma Regroup(den: int, a: int, xm: int, pp: int, k: int)
    ensures (den * (a * xm)) * (pp * k) == (den * a) * ((xm * pp) * k)
  {
    Associate(den, a, xm);
    Associate(den * a, xm, pp * k);
    Associate(xm, pp, k);
  }
}
