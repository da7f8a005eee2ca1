/** Sums over sequences, for counting threads and pending work. */
module Totals {

  function One(b: bool): nat { if b then 1 else 0 }

  function Total<S>(f: S -> nat, xs: seq<S>): nat
  {
    if xs == [] then 0 else f(xs[0]) + Total(f, xs[1..])
  }

  lemma {:induction false} TotalUpdate<S>(f: S -> nat, xs: seq<S>, i: nat, x: S)
    requires i < |xs|
    ensures Total(f, xs[i := x]) + f(xs[i]) == Total(f, xs) + f(x)
  {
    if i == 0 {
      assert xs[i := x][1..] == xs[1..];
    } else {
      assert xs[i := x][1..] == xs[1..][i - 1 := x];
      TotalUpdate(f, xs[1..], i - 1, x);
    }
  }

  lemma {:induction false} TotalPush<S>(f: S -> nat, xs: seq<S>, x: S)
    ensures Total(f, xs + [x]) == Total(f, xs) + f(x)
  {
    if xs == [] {
      assert [x][1..] == [];
    } else {
      assert (xs + [x])[1..] == xs[1..] + [x];
      TotalPush(f, xs[1..], x);
    }
  }

  lemma {:induction false} TotalAtLeast<S>(f: S -> nat, xs: seq<S>, i: nat)
    requires i < |xs|
    ensures f(xs[i]) <= Total(f, xs)
  {
    if i > 0 {
      TotalAtLeast(f, xs[1..], i - 1);
    }
  }

  /** A positive total has a positive term. */
  lemma {:induction false} TotalWitness<S>(f: S -> nat, xs: seq<S>) returns (i: nat)
    requires Total(f, xs) > 0
    ensures i < |xs| && f(xs[i]) > 0
  {
    if f(xs[0]) > 0 {
      i := 0;
    } else {
      i := TotalWitness(f, xs[1..]);
      i := i + 1;
    }
  }

  lemma {:induction false} TotalZero<S>(f: S -> nat, xs: seq<S>)
    requires forall i :: 0 <= i < |xs| ==> f(xs[i]) == 0
    ensures Total(f, xs) == 0
  {
    if xs != [] {
      TotalZero(f, xs[1..]);
    }
  }
}
