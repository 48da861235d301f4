/**
 * The bipolar H-bridge drive of one electromagnet: `setPower` turns a signed
 * power into the PWM duty written to the magnet's two terminals (`rpwm`,
 * `lpwm`). The float version is the one in the control firmware and the sway
 * demo; the integer version is the one in the bench-test sketches.
 */
module Actuation {
  import opened Arith

  /** The largest PWM duty `analogWrite` is given. */
  const MAX_DRIVE: int := 255

  /** The duties written to a magnet's `rpwm` and `lpwm` terminals. */
  datatype DrivePair = DrivePair(rpwm: int, lpwm: int) {
    predicate InRange() { 0 <= rpwm <= MAX_DRIVE && 0 <= lpwm <= MAX_DRIVE }

    /** At most one terminal is energised. */
    predicate Exclusive() { rpwm == 0 || lpwm == 0 }

    /** The duty of whichever terminal is energised. */
    function Magnitude(): int { rpwm + lpwm }

    /** The same duty on the opposite terminal. */
    function Mirror(): DrivePair { DrivePair(lpwm, rpwm) }
  }

  /** Both terminals at 0: the magnet is off. */
  const Off: DrivePair := DrivePair(0, 0)

  /**
   * Float `setPower`: the duty is `|power|` rounded to the nearest integer and
   * capped at 255; a non-negative power drives `rpwm`, a negative one `lpwm`.
   */
  function SetPower(power: real): (d: DrivePair)
    ensures d.InRange() && d.Exclusive()
    ensures power >= 0.0 ==> d.lpwm == 0
    ensures power < 0.0 ==> d.rpwm == 0
    ensures AbsReal(power) >= 254.5 ==> d.Magnitude() == MAX_DRIVE
    ensures AbsReal(power) < 254.5 ==>
              d.Magnitude() as real - 0.5 <= AbsReal(power) < d.Magnitude() as real + 0.5
  {
    var val := ConstrainInt(RoundHalfAway(AbsReal(power)), 0, MAX_DRIVE);
    if power >= 0.0 then DrivePair(val, 0) else DrivePair(0, val)
  }

  /**
   * Integer `setPower`: the duty is `|power|` capped at 255; a non-negative
   * power drives `rpwm`, a negative one `lpwm`.
   */
  function SetPowerInt(power: int): (d: DrivePair)
    ensures d.InRange() && d.Exclusive()
    ensures power >= 0 ==> d.lpwm == 0
    ensures power < 0 ==> d.rpwm == 0
    ensures d.Magnitude() == if AbsInt(power) <= MAX_DRIVE then AbsInt(power) else MAX_DRIVE
  {
    var val := ConstrainInt(AbsInt(power), 0, MAX_DRIVE);
    if power >= 0 then DrivePair(val, 0) else DrivePair(0, val)
  }

  /** On whole numbers the two versions agree: rounding an integer changes nothing. */
  lemma SetPowerIntAgrees(power: int)
    ensures SetPowerInt(power) == SetPower(power as real)
  {
    var a := AbsInt(power);
    assert AbsReal(power as real) == a as real;
    assert RoundHalfAway(a as real) == a;
  }

  /** Within the cap a non-negative power is written as it is to `rpwm`. */
  lemma SetPowerIntForward(p: int)
    requires 0 <= p <= MAX_DRIVE
    ensures SetPowerInt(p) == DrivePair(p, 0)
  {
  }

  /** Within the cap a negative power is written, negated, to `lpwm`. */
  lemma SetPowerIntReverse(p: int)
    requires 0 < p <= MAX_DRIVE
    ensures SetPowerInt(-p) == DrivePair(0, p)
  {
  }

  /** Zero power switches both terminals off. */
  lemma SetPowerZero()
    ensures SetPower(0.0) == Off && SetPowerInt(0) == Off
  {
  }

  /**
   * Negating the power moves the same duty to the other terminal; this is
   * what makes a magnet pair driven with `-s` and `s` push and pull together.
   */
  lemma SetPowerNegated(power: real)
    ensures SetPower(-power) == SetPower(power).Mirror()
  {
    assert AbsReal(-power) == AbsReal(power);
  }
}
