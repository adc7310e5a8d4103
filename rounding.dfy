/** Decimal rounding as the server applies it: `parseFloat(x.toFixed(1))`.
    Numbers are exact reals; `toFixed(1)` rounds half away from zero. */
module Rounding {

  function Abs(x: real): real
  {
    if x < 0.0 then -x else x
  }

  /** x is a whole number of tenths. */
  predicate IsTenths(x: real)
  {
    (10.0 * x).Floor as real == 10.0 * x
  }

  /** x lies exactly half-way between two tenths (10x ends in .5). */
  predicate IsHalfTie(x: real)
  {
    (10.0 * x + 0.5).Floor as real == 10.0 * x + 0.5
  }

  /** floor(y + 1/2) tenths: the magnitude part of Round1, for y = 10|x|. */
  function HalfUpTenths(y: real): (r: real)
    requires y >= 0.0
    ensures IsTenths(r)
    ensures Abs(r - y / 10.0) <= 0.05
    ensures Abs(r - y / 10.0) == 0.05 ==> r > y / 10.0
  {
    var n := (y + 0.5).Floor;
    assert n as real <= y + 0.5 < n as real + 1.0;
    assert 10.0 * (n as real / 10.0) == n as real;
    n as real / 10.0
  }

  lemma TenthsNegate(u: real)
    requires IsTenths(u)
    ensures IsTenths(-u)
  {
    var k := (10.0 * u).Floor;
    assert 10.0 * -u == (-k) as real;
  }

  /** Round to one decimal, halves away from zero:
      sign(x) * floor(10|x| + 1/2) / 10.
      The result is a tenth, at most 0.05 away from x, and on a tie it is
      the tenth farther from zero. */
  function Round1(x: real): (r: real)
    ensures IsTenths(r)
    ensures Abs(r - x) <= 0.05
    ensures Abs(r - x) == 0.05 ==> Abs(r) > Abs(x)
  {
    if x >= 0.0 then HalfUpTenths(10.0 * x)
    else
      var u := HalfUpTenths(-10.0 * x);
      assert -10.0 * x / 10.0 == -x;
      TenthsNegate(u);
      -u
  }

  /** The three properties in Round1's contract determine its result. */
  lemma Round1Unique(x: real, r: real)
    requires IsTenths(r)
    requires Abs(r - x) <= 0.05
    requires Abs(r - x) == 0.05 ==> Abs(r) > Abs(x)
    ensures r == Round1(x)
  {
    var q := Round1(x);
    var a := (10.0 * r).Floor;
    var b := (10.0 * q).Floor;
    assert 10.0 * r == a as real;
    assert 10.0 * q == b as real;
    // both tenths lie within 0.05 of x, so they differ by at most one tenth
    assert -1 <= a - b <= 1;
    if a == b + 1 {
      // r = q + 0.1 puts x at the midpoint of q and r, and the tie rule
      // cannot then hold for both
      assert false;
    } else if a + 1 == b {
      assert false;
    }
  }

  /** A value that already is a whole number of tenths is left alone. */
  lemma Round1OfTenths(x: real)
    requires IsTenths(x)
    ensures Round1(x) == x
  {
    var n := (10.0 * x).Floor;
    if x >= 0.0 {
      assert (10.0 * x + 0.5).Floor == n;
    } else {
      assert (-10.0 * x + 0.5).Floor == -n;
    }
  }

  /** Rounding twice is rounding once. */
  lemma Round1Idempotent(x: real)
    ensures Round1(Round1(x)) == Round1(x)
  {
    Round1OfTenths(Round1(x));
  }

  /** Rounding a percentage c and its complement 100 - c separately gives
      back 100 exactly, except on a tie, where both round up and the sum
      is 100.1. */
  lemma ComplementRounding(c: real)
    requires 0.0 <= c <= 100.0
    ensures Round1(c) + Round1(100.0 - c) == if IsHalfTie(c) then 100.1 else 100.0
  {
    var y := 10.0 * c;
    var n := (y + 0.5).Floor;
    var m := (1000.0 - y + 0.5).Floor;
    assert 10.0 * (100.0 - c) + 0.5 == 1000.0 - y + 0.5;
    assert Round1(c) == n as real / 10.0;
    assert Round1(100.0 - c) == m as real / 10.0;
    if IsHalfTie(c) {
      assert n as real == y + 0.5;
      assert m == 1001 - n;
    } else {
      assert n as real < y + 0.5;
      assert m <= 1000 - n;
      assert m >= 1000 - n;
    }
  }

  /** The complement rule on a concrete tie: 12.25 rounds to 12.3 and
      87.75 to 87.8. Both values are exact binary fractions, so double
      arithmetic reaches the same tie. */
  lemma ComplementTieExample()
    ensures Round1(12.25) == 12.3 && Round1(100.0 - 12.25) == 87.8
    ensures Round1(12.25) + Round1(100.0 - 12.25) == 100.1
  {
    assert (10.0 * 12.25 + 0.5).Floor == 123;
    assert (10.0 * (100.0 - 12.25) + 0.5).Floor == 878;
  }

  /** Outside 0..100 a tie does not add up to 100.1: 101.25 rounds up to
      101.3, but its complement -1.25 rounds away from zero to -1.3. Both
      are exact binary fractions, so floating-point arithmetic reaches the
      same tie. */
  lemma ComplementTieOutOfRange()
    ensures IsHalfTie(101.25)
    ensures Round1(101.25) == 101.3 && Round1(100.0 - 101.25) == -1.3
    ensures Round1(101.25) + Round1(100.0 - 101.25) == 100.0
  {
    assert (10.0 * 101.25 + 0.5).Floor == 1013;
    assert (-10.0 * (100.0 - 101.25) + 0.5).Floor == 13;
  }
}
