/** Character buffers read as decimal numbers; ':' = '0' + 10 is the carry marker. */
module DecimalDigits {
  import opened Powers

  function Digit(c: char): int { c as int - '0' as int }

  /** '0' + d */
  function DigitChar(d: nat): (c: char)
    requires d <= 10
    ensures Digit(c) == d
  {
    (d + '0' as int) as char
  }

  predicate IsDigit(c: char) { '0' <= c <= '9' }

  predicate AllDigits(buf: seq<char>) { forall i :: 0 <= i < |buf| ==> IsDigit(buf[i]) }

  function DecVal(buf: seq<char>): int
  {
    if buf == [] then 0 else 10 * DecVal(buf[..|buf| - 1]) + Digit(buf[|buf| - 1])
  }

  lemma DecTake(buf: seq<char>, i: nat)
    requires i < |buf|
    ensures DecVal(buf[..i + 1]) == 10 * DecVal(buf[..i]) + Digit(buf[i])
  {
    assert buf[..i + 1][..i] == buf[..i];
  }

  /** Changing one character moves the number by the digits' difference at that place. */
  lemma {:induction false} DecUpdate(buf: seq<char>, i: nat, c: char)
    requires i < |buf|
    ensures DecVal(buf[i := c]) == DecVal(buf) + (Digit(c) - Digit(buf[i])) * Pow(10, |buf| - 1 - i)
  {
    var n := |buf| - 1;
    var r := buf[i := c];
    if i == n {
      assert r[..n] == buf[..n];
    } else {
      assert r[..n] == buf[..n][i := c];
      DecUpdate(buf[..n], i, c);
      var w := Digit(c) - Digit(buf[i]);
      Associate(10, w, Pow(10, n - 1 - i));
      Associate(w, 10, Pow(10, n - 1 - i));
    }
  }

  /** Turning a ':' into '0' and incrementing its left neighbour keeps the number. */
  lemma CarryStep(buf: seq<char>, i: nat)
    requires 0 < i < |buf| && buf[i] == ':' && IsDigit(buf[i - 1])
    ensures DecVal(buf[i := '0'][i - 1 := DigitChar(Digit(buf[i - 1]) + 1)]) == DecVal(buf)
  {
    var b := buf[i := '0'];
    DecUpdate(buf, i, '0');
    DecUpdate(b, i - 1, DigitChar(Digit(buf[i - 1]) + 1));
    assert Pow(10, |buf| - i) == 10 * Pow(10, |buf| - 1 - i);
  }

  lemma {:induction false} DecBounds(buf: seq<char>)
    requires buf != [] && AllDigits(buf)
    ensures 0 <= DecVal(buf) < Pow(10, |buf|)
    ensures buf[0] == '0' <==> DecVal(buf) < Pow(10, |buf| - 1)
  {
    var n := |buf| - 1;
    if n == 0 {
      assert buf[..0] == [];
      PowOne(10);
    } else {
      DecBounds(buf[..n]);
      assert Pow(10, n) == 10 * Pow(10, n - 1);
    }
  }

  lemma {:induction false} DecZeros(buf: seq<char>)
    requires buf != [] && forall i :: 0 < i < |buf| ==> buf[i] == '0'
    ensures DecVal(buf) == Digit(buf[0]) * Pow(10, |buf| - 1)
  {
    var n := |buf| - 1;
    if n == 0 {
      assert buf[..0] == [];
    } else {
      DecZeros(buf[..n]);
      Associate(10, Digit(buf[0]), Pow(10, n - 1));
      Associate(Digit(buf[0]), 10, Pow(10, n - 1));
    }
  }
}
