/**
 * The integer proportional controller of the stabilisation bench test: the
 * front infrared reading is mapped linearly to a position in [-100, 100]
 * between its two calibration readings, scaled by 1.5 and truncated, capped
 * at +-255, and written to the front and back magnets, unless the reading is
 * outside the safety band, in which case both magnets are switched off. No
 * variable survives from one pass to the next.
 */
module ProportionalTest {
  import opened Arith
  import opened Actuation

  const S1_FRONT: int := 50
  const S1_BACK: int := 1450
  const S1_CENTER: int := 750

  /** Readings outside [SAFE_LOW, SAFE_HIGH] switch the magnets off. */
  const SAFE_LOW: int := 10
  const SAFE_HIGH: int := 2000

  /**
   * Arduino's `map`: linear interpolation in integers, with the division
   * truncating toward zero as in C.
   */
  function ArduinoMap(x: int, inMin: int, inMax: int, outMin: int, outMax: int): (r: int)
    requires inMin < inMax
    ensures x == inMin ==> r == outMin
    ensures x == inMax ==> r == outMax
  {
    if x == inMax then
      CDivExact(outMax - outMin, inMax - inMin);
      assert (x - inMin) * (outMax - outMin) == (outMax - outMin) * (inMax - inMin);
      CDiv((x - inMin) * (outMax - outMin), inMax - inMin) + outMin
    else
      CDiv((x - inMin) * (outMax - outMin), inMax - inMin) + outMin
  }

  /** `map(s1, S1_FRONT, S1_BACK, -100, 100)`: -100 at the front, 100 at the back, not clamped. */
  function Position(s1: int): (p: int)
    ensures s1 == S1_FRONT ==> p == -100
    ensures s1 == S1_BACK ==> p == 100
  {
    ArduinoMap(s1, S1_FRONT, S1_BACK, -100, 100)
  }

  /**
   * The calibration points land where the comments say, and readings beyond
   * them are not clamped to +-100.
   */
  lemma PositionCalibration()
    ensures Position(S1_FRONT) == -100 && Position(S1_CENTER) == 0 && Position(S1_BACK) == 100
    ensures Position(SAFE_HIGH) == 178 && Position(SAFE_LOW) == -105 && Position(0) == -107
  {
  }

  /** A larger reading never gives a smaller position. */
  lemma PositionMonotone(a: int, b: int)
    requires a <= b
    ensures Position(a) <= Position(b)
  {
    var na := (a - S1_FRONT) * 200;
    var nb := (b - S1_FRONT) * 200;
    assert na <= nb;
    if 0 <= na {
      assert na / 1400 <= nb / 1400;
    } else if nb < 0 {
      assert (-nb) / 1400 <= (-na) / 1400;
    }
  }

  /**
   * `constrain((int)(position * 1.5), -255, 255)`: one and a half times the
   * position, truncated toward zero and capped at +-255 (see
   * `ControlSignalTruncates` for the equality with the float expression).
   */
  function ControlSignal(position: int): (c: int)
    ensures -MAX_DRIVE <= c <= MAX_DRIVE
    ensures position > 0 ==> c > 0
    ensures position < 0 ==> c < 0
    ensures position == 0 ==> c == 0
    ensures 3 * AbsInt(position) < 2 * MAX_DRIVE ==> 2 * AbsInt(c) <= 3 * AbsInt(position) < 2 * AbsInt(c) + 2
    ensures 3 * AbsInt(position) >= 2 * MAX_DRIVE ==> AbsInt(c) == MAX_DRIVE
  {
    ConstrainInt(CDiv(3 * position, 2), -MAX_DRIVE, MAX_DRIVE)
  }

  /** The integer quotient `3 * p / 2` is the float product `p * 1.5` truncated by the `(int)` cast. */
  lemma ControlSignalTruncates(p: int)
    ensures ControlSignal(p) == ConstrainInt(TruncReal(p as real * 1.5), -MAX_DRIVE, MAX_DRIVE)
  {
    var q := CDiv(3 * p, 2);
    if p >= 0 {
      assert q as real <= p as real * 1.5 < q as real + 1.0;
    } else {
      assert q as real - 1.0 < p as real * 1.5 <= q as real;
    }
  }

  /** The level-triggered safety test. */
  predicate OutOfBand(s1: int)
  {
    s1 < SAFE_LOW || s1 > SAFE_HIGH
  }

  /** The plotter line: the raw reading, the position and the control signal. */
  datatype PlotLine = PlotLine(raw: int, position: int, drive: int)

  datatype LoopOutput = LoopOutput(front: DrivePair, back: DrivePair, plot: PlotLine)

  /** One pass of `loop()` for the reading `s1`. */
  function Loop(s1: int): LoopOutput
  {
    var position := Position(s1);
    var controlSignal := ControlSignal(position);
    SetPowerZero();
    if OutOfBand(s1) then LoopOutput(SetPowerInt(0), SetPowerInt(0), PlotLine(s1, position, controlSignal))
    else LoopOutput(SetPowerInt(controlSignal), SetPowerInt(controlSignal), PlotLine(s1, position, controlSignal))
  }

  /**
   * Out of the band both magnets are switched off; inside it front and back
   * get the same drive, `setPower` of the control signal; the plotter line
   * carries the control signal either way.
   */
  lemma LoopSafety(s1: int)
    ensures OutOfBand(s1) ==> Loop(s1).front == Off && Loop(s1).back == Off
    ensures !OutOfBand(s1) ==> Loop(s1).front == Loop(s1).back && Loop(s1).front == SetPowerInt(Loop(s1).plot.drive)
    ensures Loop(s1).plot == PlotLine(s1, Position(s1), ControlSignal(Position(s1)))
  {
  }

  /**
   * Inside the band the magnets are driven towards the centre: a reading on
   * the front side of the centre energises the `lpwm` terminals, one on the
   * back side the `rpwm` terminals, and the centre band switches both off.
   */
  lemma DriveDirection(s1: int)
    requires !OutOfBand(s1)
    ensures Position(s1) < 0 ==> Loop(s1).front.rpwm == 0 && Loop(s1).front.lpwm > 0
    ensures Position(s1) > 0 ==> Loop(s1).front.lpwm == 0 && Loop(s1).front.rpwm > 0
    ensures Position(s1) == 0 ==> Loop(s1).front == Off
  {
  }

  /** The cap is reached inside the band: at the upper edge the drive is saturated. */
  lemma SaturatesAtBandEdge()
    ensures Loop(SAFE_HIGH).front == DrivePair(MAX_DRIVE, 0)
    ensures Loop(SAFE_HIGH).plot.drive == MAX_DRIVE
    ensures Loop(SAFE_HIGH + 1).front == Off && Loop(SAFE_LOW - 1).front == Off
  {
    PositionCalibration();
    assert ControlSignal(178) == MAX_DRIVE;
    LoopSafety(SAFE_HIGH);
    LoopSafety(SAFE_HIGH + 1);
    LoopSafety(SAFE_LOW - 1);
  }

  /** The outputs of the passes `step` makes over a sequence of readings, one pass per reading. */
  function RunWith(step: int -> LoopOutput, readings: seq<int>): (outs: seq<LoopOutput>)
    ensures |outs| == |readings|
  {
    if readings == [] then [] else [step(readings[0])] + RunWith(step, readings[1..])
  }

  /** A pass that sees only its own reading produces the same output wherever it occurs in a run. */
  lemma {:induction false} RunWithPointwise(step: int -> LoopOutput, readings: seq<int>, i: nat)
    requires i < |readings|
    ensures RunWith(step, readings)[i] == step(readings[i])
    decreases i
  {
    if i > 0 {
      RunWithPointwise(step, readings[1..], i - 1);
    }
  }

  /** The outputs of `loop()` called once per reading. */
  function Run(readings: seq<int>): (outs: seq<LoopOutput>)
  {
    RunWith(Loop, readings)
  }

  /**
   * No latch: each pass depends on its own reading only, so a reading back in
   * the band drives the magnets again right after a cut-off.
   */
  lemma NoLatch(readings: seq<int>, i: nat)
    requires i < |readings|
    ensures Run(readings)[i] == Loop(readings[i])
  {
    RunWithPointwise(Loop, readings, i);
  }
}
