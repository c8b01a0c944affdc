/** Python's built-in `round` on exact reals: `round(x)` rounds to the nearest
    integer with ties to the even neighbour, and `round(x, 2)` does the same at
    the second decimal. Binary floating-point artefacts are not modelled. */
module Rounding {

  /** `round(x)`: the nearest integer, ties going to the even one. */
  function RoundHalfEven(x: real): (r: int)
    ensures -0.5 <= x - r as real <= 0.5
    ensures (x - r as real == 0.5 || r as real - x == 0.5) ==> r % 2 == 0
  {
    var f := x.Floor;
    var frac := x - f as real;
    if frac < 0.5 then f
    else if frac > 0.5 then f + 1
    else if f % 2 == 0 then f
    else f + 1
  }

  /** The two postconditions of RoundHalfEven pin its result down: any integer
      meeting them is the rounded value. */
  lemma RoundHalfEvenUnique(x: real, r: int)
    requires -0.5 <= x - r as real <= 0.5
    requires (x - r as real == 0.5 || r as real - x == 0.5) ==> r % 2 == 0
    ensures r == RoundHalfEven(x)
  {
    var s := RoundHalfEven(x);
    assert -1.0 <= s as real - r as real <= 1.0;
    if r != s { assert false; }
  }

  /** Rounding an integer gives the integer back. */
  lemma RoundOfInteger(n: int)
    ensures RoundHalfEven(n as real) == n
  {
    RoundHalfEvenUnique(n as real, n);
  }

  /** Rounding is monotone. */
  lemma RoundMonotone(x: real, y: real)
    requires x <= y
    ensures RoundHalfEven(x) <= RoundHalfEven(y)
  {
    var r, s := RoundHalfEven(x), RoundHalfEven(y);
    assert r <= s + 1;
    if r == s + 1 { assert false; }
  }

  /** The split-to-100 fact behind the "residual" corrections: the rounded
      share and the rounded complementary share always add up to 100, ties
      included, because 100 is even. */
  lemma RoundComplement(x: real)
    ensures RoundHalfEven(x) + RoundHalfEven(100.0 - x) == 100
  {
    var r, s := RoundHalfEven(x), RoundHalfEven(100.0 - x);
    var e1, e2 := x - r as real, (100.0 - x) - s as real;
    assert e1 + e2 == (100 - r - s) as real;
    assert 99 <= r + s <= 101;
    if r + s != 100 { assert false; }
  }

  /** `round(x, 2)`: the nearest multiple of one hundredth, ties to even. */
  function RoundCents(x: real): (r: real)
    ensures -0.005 <= x - r <= 0.005
  {
    RoundHalfEven(x * 100.0) as real / 100.0
  }

  /** Rounding to cents keeps the order of amounts. */
  lemma RoundCentsMonotone(x: real, y: real)
    requires x <= y
    ensures RoundCents(x) <= RoundCents(y)
  {
    RoundMonotone(x * 100.0, y * 100.0);
  }

  /** A non-negative amount stays non-negative once rounded to cents. */
  lemma RoundCentsNonNegative(x: real)
    requires x >= 0.0
    ensures RoundCents(x) >= 0.0
  {
    RoundCentsMonotone(0.0, x);
    RoundOfInteger(0);
  }

  /** Amounts already in whole cents are left unchanged. */
  lemma RoundCentsOfCents(n: int)
    ensures RoundCents(n as real / 100.0) == n as real / 100.0
  {
    assert (n as real / 100.0) * 100.0 == n as real;
    RoundOfInteger(n);
  }
}
