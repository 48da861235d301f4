/**
 * The sway demo's `loop()`: its own inline height polynomial, targets shifted
 * by a sway offset in opposite directions on the two sensor axes, the
 * unfiltered PID on both axes, and all four magnets driven. The sway value
 * (a sine of the clock in the firmware) is an input.
 */
module SwayDemo {
  import opened Arith
  import opened Actuation
  import opened Transform
  import opened Pid
  import opened VirtualTof

  const T1_BASE: real := 48.6
  const T2_BASE: real := 49.0

  const UPDATE_RATE: real := 0.0001
  const MAX_INTEGRAL: real := 500.0

  const GAINS_X: Gains := Gains(1.0, 0.001, 1.5, UPDATE_RATE, MAX_INTEGRAL)
  const GAINS_Y: Gains := Gains(50.0, 0.5, 20.0, UPDATE_RATE, MAX_INTEGRAL)

  /** The errors on the sensor axes: U's target moves up by `sway`, V's down. */
  function SwayErrorUV(s1: real, s2: real, sway: real): (e: Vec2)
    ensures e.x + e.y == SWAY_T1.Eval(s1, s2) + SWAY_T2.Eval(s1, s2) - T1_BASE - T2_BASE
    ensures e.x - e.y == SWAY_T1.Eval(s1, s2) - SWAY_T2.Eval(s1, s2) - T1_BASE + T2_BASE - 2.0 * sway
  {
    Vec2(SWAY_T1.Eval(s1, s2) - (T1_BASE + sway), SWAY_T2.Eval(s1, s2) - (T2_BASE - sway))
  }

  /** The errors rotated into the magnet axes. */
  function SwayErrorXY(s1: real, s2: real, sway: real): (e: Vec2)
    ensures XYToUv(e) == SwayErrorUV(s1, s2, sway)
  {
    var uv := SwayErrorUV(s1, s2, sway);
    RotationInvertible(uv.x, uv.y);
    UvToXY(uv.x, uv.y)
  }

  /**
   * The sway moves the target along the Y axis only: the X error does not
   * depend on it and the Y error shifts by `-2 * 0.7071 * sway`.
   */
  lemma SwayMovesOnlyY(s1: real, s2: real, sway: real)
    ensures SwayErrorXY(s1, s2, sway).x == SwayErrorXY(s1, s2, 0.0).x
    ensures SwayErrorXY(s1, s2, sway).y == SwayErrorXY(s1, s2, 0.0).y - 2.0 * COEFF * sway
  {
    var e := SwayErrorUV(s1, s2, sway);
    var e0 := SwayErrorUV(s1, s2, 0.0);
    assert e.x == e0.x - sway && e.y == e0.y + sway;
  }

  datatype DemoState = DemoState(x: PlainAxis, y: PlainAxis)

  /** The writes to the four magnets. */
  datatype Drives = Drives(front: DrivePair, back: DrivePair, left: DrivePair, right: DrivePair)

  datatype Step = Step(next: DemoState, drives: Drives)

  /** One pass of the demo's `loop()` once the rotated error `e` is known. */
  function DemoStep(st: DemoState, e: Vec2): (r: Step)
    ensures -MAX_INTEGRAL <= r.next.x.integral <= MAX_INTEGRAL && -MAX_INTEGRAL <= r.next.y.integral <= MAX_INTEGRAL
    ensures r.next.x.integral == IntegralStep(GAINS_X, st.x.integral, e.x)
    ensures r.next.y.integral == IntegralStep(GAINS_Y, st.y.integral, e.y)
    ensures r.next.x.lastError == e.x && r.next.y.lastError == e.y
    ensures r.drives.front == r.drives.back.Mirror() && r.drives.right == r.drives.left.Mirror()
    ensures r.drives.front.InRange() && r.drives.front.Exclusive() && r.drives.back.InRange() && r.drives.back.Exclusive()
    ensures r.drives.left.InRange() && r.drives.left.Exclusive() && r.drives.right.InRange() && r.drives.right.Exclusive()
  {
    var ux := PlainStep(GAINS_X, st.x, e.x);
    var uy := PlainStep(GAINS_Y, st.y, e.y);
    SetPowerNegated(uy.signal);
    SetPowerNegated(ux.signal);
    Step(DemoState(ux.next, uy.next),
         Drives(SetPower(-uy.signal), SetPower(uy.signal), SetPower(ux.signal), SetPower(-ux.signal)))
  }

  /**
   * The back and front magnets are driven with the Y signal and its
   * negation, the left and right ones with the X signal and its negation;
   * each signal is the PID sum of the error, the new clamped integral and
   * the raw change of the error since the previous pass.
   */
  lemma DemoDrives(st: DemoState, e: Vec2)
    ensures var r := DemoStep(st, e);
            var signalY := PidSum(GAINS_Y, e.y, r.next.y.integral, e.y - st.y.lastError);
            r.drives.back == SetPower(signalY) && r.drives.front == SetPower(-signalY)
    ensures var r := DemoStep(st, e);
            var signalX := PidSum(GAINS_X, e.x, r.next.x.integral, e.x - st.x.lastError);
            r.drives.left == SetPower(signalX) && r.drives.right == SetPower(-signalX)
  {
    var ux := PlainStep(GAINS_X, st.x, e.x);
    var uy := PlainStep(GAINS_Y, st.y, e.y);
    assert DemoStep(st, e) == Step(DemoState(ux.next, uy.next),
                                   Drives(SetPower(-uy.signal), SetPower(uy.signal), SetPower(ux.signal), SetPower(-ux.signal)));
  }

  /** One pass of the demo's `loop()`, with the error from the two infrared readings and the sway. */
  function DemoCycle(st: DemoState, s1: int, s2: int, sway: real): (r: Step)
    ensures -MAX_INTEGRAL <= r.next.x.integral <= MAX_INTEGRAL && -MAX_INTEGRAL <= r.next.y.integral <= MAX_INTEGRAL
    ensures r.next.x.lastError == SwayErrorXY(s1 as real, s2 as real, sway).x
    ensures r.next.y.lastError == SwayErrorXY(s1 as real, s2 as real, sway).y
    ensures r.drives.front == r.drives.back.Mirror() && r.drives.right == r.drives.left.Mirror()
    ensures r.drives.front.InRange() && r.drives.front.Exclusive() && r.drives.back.InRange() && r.drives.back.Exclusive()
    ensures r.drives.left.InRange() && r.drives.left.Exclusive() && r.drives.right.InRange() && r.drives.right.Exclusive()
  {
    DemoStep(st, SwayErrorXY(s1 as real, s2 as real, sway))
  }

  /**
   * The sway never reaches the X axis: its state and the left and right
   * magnets come out the same whatever the sway.
   */
  lemma SwayLeavesXAlone(st: DemoState, s1: int, s2: int, sway: real)
    ensures DemoCycle(st, s1, s2, sway).next.x == DemoCycle(st, s1, s2, 0.0).next.x
    ensures DemoCycle(st, s1, s2, sway).drives.left == DemoCycle(st, s1, s2, 0.0).drives.left
    ensures DemoCycle(st, s1, s2, sway).drives.right == DemoCycle(st, s1, s2, 0.0).drives.right
  {
    SwayMovesOnlyY(s1 as real, s2 as real, sway);
  }

  /** The demo's globals. */
  class Demo {
    var integralX: real
    var integralY: real
    var lastErrorX: real
    var lastErrorY: real

    function State(): DemoState
      reads this
    {
      DemoState(PlainAxis(integralX, lastErrorX), PlainAxis(integralY, lastErrorY))
    }

    constructor ()
      ensures State() == DemoState(PlainAxis(0.0, 0.0), PlainAxis(0.0, 0.0))
    {
      integralX, integralY := 0.0, 0.0;
      lastErrorX, lastErrorY := 0.0, 0.0;
    }

    /** The X-axis PID. */
    method UpdateX(error: real) returns (signalX: real)
      modifies this
      ensures var u := PlainStep(GAINS_X, old(State()).x, error);
              State() == old(State()).(x := u.next) && signalX == u.signal
    {
      integralX := ConstrainReal(integralX + error * UPDATE_RATE, -MAX_INTEGRAL, MAX_INTEGRAL);
      signalX := error * GAINS_X.kp + integralX * GAINS_X.ki + (error - lastErrorX) * GAINS_X.kd;
      lastErrorX := error;
    }

    /** The Y-axis PID. */
    method UpdateY(error: real) returns (signalY: real)
      modifies this
      ensures var u := PlainStep(GAINS_Y, old(State()).y, error);
              State() == old(State()).(y := u.next) && signalY == u.signal
    {
      integralY := ConstrainReal(integralY + error * UPDATE_RATE, -MAX_INTEGRAL, MAX_INTEGRAL);
      signalY := error * GAINS_Y.kp + integralY * GAINS_Y.ki + (error - lastErrorY) * GAINS_Y.kd;
      lastErrorY := error;
    }

    /** One call of `loop()`. */
    method Loop(s1: int, s2: int, sway: real) returns (drives: Drives)
      modifies this
      ensures State() == DemoCycle(old(State()), s1, s2, sway).next
      ensures drives == DemoCycle(old(State()), s1, s2, sway).drives
    {
      ghost var st0 := State();
      var errXY := SwayErrorXY(s1 as real, s2 as real, sway);
      ghost var ux := PlainStep(GAINS_X, st0.x, errXY.x);
      ghost var uy := PlainStep(GAINS_Y, st0.y, errXY.y);
      var sigX := UpdateX(errXY.x);
      var sigY := UpdateY(errXY.y);
      assert State() == DemoState(ux.next, uy.next) && sigX == ux.signal && sigY == uy.signal;
      drives := Drives(SetPower(-sigY), SetPower(sigY), SetPower(sigX), SetPower(-sigX));
    }
  }
}
