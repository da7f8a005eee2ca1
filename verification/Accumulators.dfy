/** The two-word accumulator that stands in for a 128-bit integer in bigint::square. */
module Accumulators {
  import opened Limbs

  const WORD: int := 0x1_0000_0000_0000_0000

  class Accumulator {
    var lower: nat
    var upper: nat

    predicate Valid()
      reads this
    {
      lower < WORD && upper < WORD
    }

    function Value(): nat
      reads this
    {
      upper * WORD + lower
    }

    constructor ()
      ensures Valid() && Value() == 0
    {
      lower, upper := 0, 0;
    }

    /** Adds n exactly unless the sum needs a 129th bit. */
    method Add(n: nat)
      requires Valid() && n < WORD
      modifies this
      ensures Valid()
      ensures Value() == (old(Value()) + n) % (WORD * WORD)
    {
      ghost var l, u := lower, upper;
      lower := Low64(lower + n);
      if lower < n {
        upper := Low64(upper + 1);
      }
      assert lower == if l + n < WORD then l + n else l + n - WORD;
    }

    function LowBigit(): (b: Bigit)
      requires Valid()
      reads this
      ensures b == Value() % BASE
    {
      Low32(lower)
    }

    /** The two shifted words occupy disjoint bits, so + stands for the source's |. */
    method ShiftRight32()
      requires Valid()
      modifies this
      ensures Valid()
      ensures Value() == old(Value()) / BASE
    {
      lower := Low64(upper * BASE) + lower / BASE;
      upper := upper / BASE;
    }
  }
}
