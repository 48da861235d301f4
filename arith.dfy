/**
 * The numeric helpers the firmware and the host scripts rely on, written out
 * explicitly because Dafny's integers and reals are unbounded and its division
 * is Euclidean: Arduino's `abs` and `constrain`, C's `round`, the C (and
 * Python) float-to-int cast, and C's truncating integer division.
 */
module Arith {

  function AbsReal(x: real): (r: real)
    ensures r >= 0.0 && (r == x || r == -x)
  {
    if x < 0.0 then -x else x
  }

  function AbsInt(x: int): (r: nat)
    ensures r == x || r == -x
  {
    if x < 0 then -x else x
  }

  /** Arduino's `constrain(amt, low, high)` macro on integers. */
  function ConstrainInt(x: int, lo: int, hi: int): (r: int)
    requires lo <= hi
    ensures lo <= r <= hi
    ensures lo <= x <= hi ==> r == x
    ensures x < lo ==> r == lo
    ensures x > hi ==> r == hi
  {
    if x < lo then lo else if x > hi then hi else x
  }

  /** Arduino's `constrain(amt, low, high)` macro on floats. */
  function ConstrainReal(x: real, lo: real, hi: real): (r: real)
    requires lo <= hi
    ensures lo <= r <= hi
    ensures lo <= x <= hi ==> r == x
    ensures x < lo ==> r == lo
    ensures x > hi ==> r == hi
  {
    if x < lo then lo else if x > hi then hi else x
  }

  /**
   * C's `round` on a non-negative argument: the nearest integer, halfway
   * cases rounded away from zero (here: upwards).
   */
  function RoundHalfAway(x: real): (n: int)
    requires x >= 0.0
    ensures n >= 0
    ensures n as real - 0.5 <= x < n as real + 0.5
  {
    (x + 0.5).Floor
  }

  /**
   * Conversion of a float to an integer by truncation toward zero: C's
   * `(int)` cast and Python's `int()` on a float.
   */
  function TruncReal(x: real): (n: int)
    ensures AbsInt(n) as real <= AbsReal(x) < AbsInt(n) as real + 1.0
    ensures x >= 0.0 ==> n >= 0
    ensures x <= 0.0 ==> n <= 0
  {
    if x >= 0.0 then x.Floor else -((-x).Floor)
  }

  /**
   * C's integer division `a / b` (C99 and later) by a positive divisor: the
   * quotient truncated toward zero, so the remainder takes the sign of the
   * dividend (Dafny's own `/` rounds toward negative infinity instead).
   */
  function CDiv(a: int, b: int): (q: int)
    requires b > 0
    ensures a >= 0 ==> 0 <= a - q * b < b
    ensures a < 0 ==> -b < a - q * b <= 0
  {
    if a >= 0 then a / b else -((-a) / b)
  }

  /** Dividing an exact multiple gives back the factor. */
  lemma CDivExact(k: int, b: int)
    requires b > 0
    ensures CDiv(k * b, b) == k
  {
    var q := CDiv(k * b, b);
    var d := k - q;
    assert k * b - q * b == d * b;
    if d > 0 {
      assert false;
    } else if d < 0 {
      assert false;
    }
  }

  lemma MulNonneg(x: real, y: real)
    requires x >= 0.0 && y >= 0.0
    ensures x * y >= 0.0
  {
  }

  lemma MulMonotone(x: real, y: real, z: real)
    requires x >= 0.0 && y <= z
    ensures x * y <= x * z
  {
    MulNonneg(x, z - y);
    assert x * (z - y) == x * z - x * y;
  }
}
