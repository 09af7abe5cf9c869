/** Python's `round`, `abs`, `min` and `max` on exact rationals; rounding ties go to the even neighbour. */
module Rounding {

  function RoundToInt(x: real): int {
    var below := x.Floor;
    var rest := x - below as real;
    if rest < 0.5 || (rest == 0.5 && below % 2 == 0) then below else below + 1
  }

  function Round2(x: real): real { RoundToInt(x * 100.0) as real / 100.0 }

  function Round4(x: real): real { RoundToInt(x * 10000.0) as real / 10000.0 }

  function Round6(x: real): real { RoundToInt(x * 1000000.0) as real / 1000000.0 }

  function Abs(x: real): real { if x < 0.0 then -x else x }

  function Min(a: real, b: real): real { if b < a then b else a }

  function Max(a: real, b: real): real { if b > a then b else a }

  /** A whole number of cents. */
  ghost predicate WholeCents(x: real) { (x * 100.0).Floor as real == x * 100.0 }

  lemma RoundError(x: real)
    ensures Abs(Round2(x) - x) <= 0.005
    ensures Abs(Round4(x) - x) <= 0.00005
    ensures Abs(Round6(x) - x) <= 0.0000005
  {
  }

  lemma RoundMonotone(x: real, y: real)
    requires x <= y
    ensures Round2(x) <= Round2(y) && Round6(x) <= Round6(y)
  {
    assert (x * 100.0).Floor <= (y * 100.0).Floor;
    assert (x * 1000000.0).Floor <= (y * 1000000.0).Floor;
  }

  /** Rounding to two decimals leaves whole cents alone, and so does the finer rounding. */
  lemma RoundKeepsCents(x: real)
    requires WholeCents(x)
    ensures Round2(x) == x && Round4(x) == x
  {
    var n := (x * 100.0).Floor;
    assert x * 10000.0 == (n * 100) as real;
    assert (x * 10000.0).Floor == n * 100;
  }

  lemma CentsCounted(x: real, n: int)
    requires x * 100.0 == n as real
    ensures WholeCents(x)
  {
  }

  lemma CentsOf(x: real) returns (n: int)
    requires WholeCents(x)
    ensures x * 100.0 == n as real
  {
    n := (x * 100.0).Floor;
  }

  lemma RoundIsWholeCents(x: real)
    ensures WholeCents(Round2(x))
  {
    CentsCounted(Round2(x), RoundToInt(x * 100.0));
  }

  lemma CentsArithmetic(x: real, y: real)
    requires WholeCents(x) && WholeCents(y)
    ensures WholeCents(x + y) && WholeCents(x - y) && WholeCents(-x)
  {
    hide WholeCents;
    var n := CentsOf(x);
    var m := CentsOf(y);
    CentsCounted(x + y, n + m);
    CentsCounted(x - y, n - m);
    CentsCounted(-x, -n);
  }

  /** Rounding six decimals twice changes nothing. */
  lemma Round6Idempotent(x: real)
    ensures Round6(Round6(x)) == Round6(x)
  {
    var n := RoundToInt(x * 1000000.0);
    assert Round6(x) * 1000000.0 == n as real;
    assert (Round6(x) * 1000000.0).Floor == n;
  }

  /** Rounding lands on a whole number of units, and a tie on the even one. */
  lemma RoundToNearest(x: real)
    ensures -0.5 <= RoundToInt(x) as real - x <= 0.5
    ensures x - RoundToInt(x) as real == 0.5 || x - RoundToInt(x) as real == -0.5 ==> RoundToInt(x) % 2 == 0
    ensures Round2(x) * 100.0 == RoundToInt(x * 100.0) as real
    ensures Round4(x) * 10000.0 == RoundToInt(x * 10000.0) as real
    ensures Round6(x) * 1000000.0 == RoundToInt(x * 1000000.0) as real
  {
  }
}
