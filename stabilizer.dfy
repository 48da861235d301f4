/**
 * One pass of the control firmware's `loop()`: a serial command may switch the
 * calibration flag; the two infrared readings become estimated heights, then
 * errors against the targets, rotated into the magnet axes; each axis runs
 * the filtered PID; the front and back magnets are driven from the Y signal;
 * the two time-of-flight ranges and the infrared readings are exponentially
 * smoothed for calibration. The calibration flag only chooses which telemetry
 * line is printed.
 */
module Stabilizer {
  import opened Wrappers
  import opened Arith
  import opened Text
  import opened Actuation
  import opened Transform
  import opened Pid
  import opened VirtualTof

  const T1_TARGET: real := 48.6
  const T2_TARGET: real := 49.0

  const UPDATE_RATE: real := 0.01
  const MAX_INTEGRAL: real := 500.0

  const GAINS_X: Gains := Gains(0.2, 0.001, 0.7, UPDATE_RATE, MAX_INTEGRAL)
  const GAINS_Y: Gains := Gains(20.0, 0.0, 700.0, UPDATE_RATE, MAX_INTEGRAL)

  /** Derivative filter weights of the X and Y axes. */
  const ALPHA_X: real := 0.1
  const ALPHA_Y: real := 0.05

  /** Weight of a new sample in the range and infrared smoothing. */
  const TOF_ALPHA: real := 0.05

  const TOF1_OFFSET: real := -12.0
  const TOF2_OFFSET: real := 38.0

  /** The range-status code of a good VL6180X reading (`VL6180X_ERROR_NONE`). */
  const ERROR_NONE: int := 0

  /** An 8-bit value as the range sensor returns it. */
  newtype Byte = x: int | 0 <= x < 256

  /** One `readRange()` / `readRangeStatus()` pair. */
  datatype RangeReading = RangeReading(range: Byte, status: Byte)

  /**
   * What one pass reads: the serial line if one was available (without its
   * `'\n'`), the two 12-bit infrared samples and the two range readings.
   */
  datatype CycleInput = CycleInput(command: Option<string>, s1: int, s2: int, tof1: RangeReading, tof2: RangeReading)

  /** The firmware's globals. */
  datatype LoopState = LoopState(
    x: FilteredAxis, y: FilteredAxis,
    smoothS1: real, smoothS2: real, smoothT1: real, smoothT2: real,
    calibration: bool)

  /** Everything starts at 0, in stabilisation mode. */
  const INITIAL: LoopState :=
    LoopState(FilteredAxis(0.0, 0.0, 0.0), FilteredAxis(0.0, 0.0, 0.0), 0.0, 0.0, 0.0, 0.0, false)

  /** The lines printed on the serial port, by content. */
  datatype Telemetry =
    | ModeMessage(calibration: bool)
    | Diagnostics(ex: real, ey: real, sx: real, sy: real, ix: real, iy: real)
    | CalibrationSample(s1: int, s2: int, t1: real, t2: real)

  /** The magnet writes and the printed lines of one pass. */
  datatype CycleOutput = CycleOutput(front: DrivePair, back: DrivePair, telemetry: seq<Telemetry>)

  datatype CommandEffect = CommandEffect(calibration: bool, printed: seq<Telemetry>)

  /**
   * The serial command: after trimming, `CAL_ON` turns calibration on and
   * `CAL_OFF` turns it off, each with its message; anything else, or no
   * line, changes nothing.
   */
  function ApplyCommand(calibration: bool, command: Option<string>): (r: CommandEffect)
    ensures command.Some? && Strip(command.value, IsCSpace) == "CAL_ON" ==> r == CommandEffect(true, [ModeMessage(true)])
    ensures command.Some? && Strip(command.value, IsCSpace) == "CAL_OFF" ==> r == CommandEffect(false, [ModeMessage(false)])
    ensures (command.None? || Strip(command.value, IsCSpace) !in {"CAL_ON", "CAL_OFF"}) ==> r == CommandEffect(calibration, [])
  {
    match command
    case None => CommandEffect(calibration, [])
    case Some(line) =>
      var cmd := Strip(line, IsCSpace);
      if cmd == "CAL_ON" then CommandEffect(true, [ModeMessage(true)])
      else if cmd == "CAL_OFF" then CommandEffect(false, [ModeMessage(false)])
      else CommandEffect(calibration, [])
  }

  /**
   * Surrounding whitespace, such as the `'\r'` of a Windows line ending, does
   * not stop a command from switching the mode.
   */
  lemma CommandToleratesPadding(calibration: bool, p: string, q: string)
    requires forall k :: 0 <= k < |p| ==> IsCSpace(p[k])
    requires forall k :: 0 <= k < |q| ==> IsCSpace(q[k])
    ensures ApplyCommand(calibration, Some(p + "CAL_ON" + q)) == CommandEffect(true, [ModeMessage(true)])
    ensures ApplyCommand(calibration, Some(p + "CAL_OFF" + q)) == CommandEffect(false, [ModeMessage(false)])
  {
    StripPadded(p, "CAL_ON", q, IsCSpace);
    StripPadded(p, "CAL_OFF", q, IsCSpace);
  }

  /**
   * The height errors on the U and V sensor axes: an error is positive
   * exactly when the estimated height is beyond its target, and both are
   * zero exactly when both heights are on target.
   */
  function ErrorUV(s1: real, s2: real): (e: Vec2)
    ensures e.x > 0.0 <==> GetT1Est(s1, s2) > T1_TARGET
    ensures e.y > 0.0 <==> GetT2Est(s1, s2) > T2_TARGET
    ensures e == Vec2(0.0, 0.0) <==> GetT1Est(s1, s2) == T1_TARGET && GetT2Est(s1, s2) == T2_TARGET
  {
    Vec2(GetT1Est(s1, s2) - T1_TARGET, GetT2Est(s1, s2) - T2_TARGET)
  }

  /** The errors rotated into the magnets' X and Y axes. */
  function ErrorXY(s1: real, s2: real): (e: Vec2)
    ensures XYToUv(e) == ErrorUV(s1, s2)
  {
    var uv := ErrorUV(s1, s2);
    RotationInvertible(uv.x, uv.y);
    UvToXY(uv.x, uv.y)
  }

  /** `last * (1 - TOF_ALPHA) + sample * TOF_ALPHA`. */
  function Smooth(last: real, sample: real): (r: real)
    ensures Between(last, r, sample)
    ensures sample == last ==> r == last
  {
    last * (1.0 - TOF_ALPHA) + sample * TOF_ALPHA
  }

  /**
   * A range reading smoothed with a fixed offset: a reading with a bad status
   * is replaced by the current smoothed value, so it leaves that value as it
   * is; a good one pulls the value towards `range + offset`.
   */
  function SmoothRange(smooth: real, reading: RangeReading, offset: real): (r: real)
    ensures reading.status as int != ERROR_NONE ==> r == smooth
    ensures reading.status as int == ERROR_NONE ==> Between(smooth, r, reading.range as real + offset)
  {
    var raw := if reading.status as int == ERROR_NONE then reading.range as real + offset else smooth;
    Smooth(smooth, raw)
  }

  /** The state with the two ranges and the two infrared readings smoothed in. */
  function SmoothAll(st: LoopState, input: CycleInput): (r: LoopState)
    ensures r.x == st.x && r.y == st.y && r.calibration == st.calibration
  {
    st.(smoothT1 := SmoothRange(st.smoothT1, input.tof1, TOF1_OFFSET),
        smoothT2 := SmoothRange(st.smoothT2, input.tof2, TOF2_OFFSET),
        smoothS1 := Smooth(st.smoothS1, input.s1 as real),
        smoothS2 := Smooth(st.smoothS2, input.s2 as real))
  }

  /** The new state and the output of one pass. */
  datatype Step = Step(next: LoopState, out: CycleOutput)

  /**
   * One pass of `loop()` once the rotated height error `e` is known: the
   * serial command, the X and Y PIDs with their filtered derivatives, the
   * two Y magnets, the telemetry and the smoothing.
   */
  function CycleOn(st: LoopState, input: CycleInput, e: Vec2): (r: Step)
    ensures -MAX_INTEGRAL <= r.next.x.integral <= MAX_INTEGRAL
    ensures -MAX_INTEGRAL <= r.next.y.integral <= MAX_INTEGRAL
    ensures r.next.x.integral == IntegralStep(GAINS_X, st.x.integral, e.x)
    ensures r.next.y.integral == IntegralStep(GAINS_Y, st.y.integral, e.y)
    ensures r.next.x.lastError == e.x && r.next.y.lastError == e.y
    ensures r.next.x.lastDerivative == LowPass(ALPHA_X, e.x - st.x.lastError, st.x.lastDerivative)
    ensures r.next.y.lastDerivative == LowPass(ALPHA_Y, e.y - st.y.lastError, st.y.lastDerivative)
    ensures r.out.front.InRange() && r.out.front.Exclusive()
    ensures r.out.back.InRange() && r.out.back.Exclusive()
    ensures r.out.front == r.out.back.Mirror()
    ensures r.next.calibration == ApplyCommand(st.calibration, input.command).calibration
    ensures r.next.smoothT1 == SmoothRange(st.smoothT1, input.tof1, TOF1_OFFSET)
    ensures r.next.smoothT2 == SmoothRange(st.smoothT2, input.tof2, TOF2_OFFSET)
    ensures r.next.smoothS1 == Smooth(st.smoothS1, input.s1 as real)
    ensures r.next.smoothS2 == Smooth(st.smoothS2, input.s2 as real)
  {
    var cmd := ApplyCommand(st.calibration, input.command);
    var ux := FilteredStep(GAINS_X, ALPHA_X, st.x, e.x);
    var uy := FilteredStep(GAINS_Y, ALPHA_Y, st.y, e.y);
    var front := SetPower(-uy.signal);
    var back := SetPower(uy.signal);
    SetPowerNegated(uy.signal);
    var diagnostics := if cmd.calibration then [] else [Diagnostics(e.x, e.y, ux.signal, uy.signal, ux.next.integral, uy.next.integral)];
    var smoothed := SmoothAll(st, input);
    var sample := if cmd.calibration then [CalibrationSample(input.s1, input.s2, smoothed.smoothT1, smoothed.smoothT2)] else [];
    Step(smoothed.(x := ux.next, y := uy.next, calibration := cmd.calibration),
         CycleOutput(front, back, cmd.printed + diagnostics + sample))
  }

  /**
   * The back magnet is driven with the Y signal and the front one with its
   * negation, the Y signal being the PID sum of the Y error and of the Y
   * integral and filtered Y derivative the pass stores.
   */
  lemma CycleDrives(st: LoopState, input: CycleInput, e: Vec2)
    ensures var r := CycleOn(st, input, e);
            var signalY := PidSum(GAINS_Y, e.y, r.next.y.integral, r.next.y.lastDerivative);
            r.out.back == SetPower(signalY) && r.out.front == SetPower(-signalY)
  {
  }

  /** One pass of `loop()`, with the error estimated from the two infrared readings. */
  function Cycle(st: LoopState, input: CycleInput): (r: Step)
    ensures -MAX_INTEGRAL <= r.next.x.integral <= MAX_INTEGRAL
    ensures -MAX_INTEGRAL <= r.next.y.integral <= MAX_INTEGRAL
    ensures r.next.x.lastError == ErrorXY(input.s1 as real, input.s2 as real).x
    ensures r.next.y.lastError == ErrorXY(input.s1 as real, input.s2 as real).y
    ensures r.next.x.lastDerivative == LowPass(ALPHA_X, ErrorXY(input.s1 as real, input.s2 as real).x - st.x.lastError, st.x.lastDerivative)
    ensures r.next.y.lastDerivative == LowPass(ALPHA_Y, ErrorXY(input.s1 as real, input.s2 as real).y - st.y.lastError, st.y.lastDerivative)
    ensures r.out.front.InRange() && r.out.front.Exclusive()
    ensures r.out.back.InRange() && r.out.back.Exclusive()
    ensures r.out.front == r.out.back.Mirror()
    ensures r.next.calibration == ApplyCommand(st.calibration, input.command).calibration
  {
    CycleOn(st, input, ErrorXY(input.s1 as real, input.s2 as real))
  }

  /** The state apart from the calibration flag. */
  function ControlPart(st: LoopState): LoopState
  {
    st.(calibration := false)
  }

  /**
   * The calibration flag and the serial commands affect nothing but the
   * printed lines: the magnet drives and every other part of the state come
   * out the same.
   */
  lemma ModeDoesNotAffectControl(st: LoopState, st': LoopState, input: CycleInput, input': CycleInput)
    requires ControlPart(st) == ControlPart(st')
    requires input.(command := None) == input'.(command := None)
    ensures var r := Cycle(st, input); var r' := Cycle(st', input');
            && r.out.front == r'.out.front && r.out.back == r'.out.back
            && ControlPart(r.next) == ControlPart(r'.next)
  {
    assert st.x == st'.x && st.y == st'.y;
  }

  /**
   * Each pass prints the diagnostics line in stabilisation mode and the
   * calibration sample in calibration mode, after the mode message if a
   * command switched the mode.
   */
  lemma TelemetryFollowsMode(st: LoopState, input: CycleInput)
    ensures var r := Cycle(st, input);
            var cmd := ApplyCommand(st.calibration, input.command);
            && |r.out.telemetry| == |cmd.printed| + 1
            && r.out.telemetry[..|cmd.printed|] == cmd.printed
            && (r.next.calibration <==> r.out.telemetry[|cmd.printed|].CalibrationSample?)
            && (!r.next.calibration <==> r.out.telemetry[|cmd.printed|].Diagnostics?)
  {
  }

  /**
   * The stored derivative of each axis is the filtered one of this pass, and
   * with an unchanged error it is the previous one scaled by 1 - alpha, so its
   * magnitude never grows.
   */
  lemma HeldErrorDampsDerivative(st: LoopState, input: CycleInput)
    requires ErrorXY(input.s1 as real, input.s2 as real).x == st.x.lastError
    requires ErrorXY(input.s1 as real, input.s2 as real).y == st.y.lastError
    ensures Cycle(st, input).next.x.lastDerivative == 0.9 * st.x.lastDerivative
    ensures Cycle(st, input).next.y.lastDerivative == 0.95 * st.y.lastDerivative
    ensures AbsReal(Cycle(st, input).next.x.lastDerivative) <= AbsReal(st.x.lastDerivative)
    ensures AbsReal(Cycle(st, input).next.y.lastDerivative) <= AbsReal(st.y.lastDerivative)
  {
  }

  /** The outputs of a sequence of passes and the state they leave. */
  datatype Trace = Trace(final: LoopState, outs: seq<CycleOutput>)

  function Run(st: LoopState, inputs: seq<CycleInput>): (t: Trace)
    ensures |t.outs| == |inputs|
    decreases |inputs|
  {
    if inputs == [] then Trace(st, [])
    else
      var s := Cycle(st, inputs[0]);
      var rest := Run(s.next, inputs[1..]);
      Trace(rest.final, [s.out] + rest.outs)
  }

  /** Two input sequences that differ at most in their serial commands. */
  predicate SameReadings(inputs: seq<CycleInput>, inputs': seq<CycleInput>)
  {
    |inputs| == |inputs'| && forall i :: 0 <= i < |inputs| ==> inputs[i].(command := None) == inputs'[i].(command := None)
  }

  /** Two output sequences that drive the magnets identically. */
  predicate SameDrives(outs: seq<CycleOutput>, outs': seq<CycleOutput>)
  {
    |outs| == |outs'| && forall i :: 0 <= i < |outs| ==> outs[i].front == outs'[i].front && outs[i].back == outs'[i].back
  }

  /**
   * Over any number of passes, switching calibration on or off at any time
   * never changes what the magnets are driven with.
   */
  lemma {:induction false} ModeNeverAffectsDrives(st: LoopState, st': LoopState, inputs: seq<CycleInput>, inputs': seq<CycleInput>)
    requires ControlPart(st) == ControlPart(st')
    requires SameReadings(inputs, inputs')
    ensures ControlPart(Run(st, inputs).final) == ControlPart(Run(st', inputs').final)
    ensures SameDrives(Run(st, inputs).outs, Run(st', inputs').outs)
    decreases |inputs|
  {
    if inputs != [] {
      ModeDoesNotAffectControl(st, st', inputs[0], inputs'[0]);
      var s := Cycle(st, inputs[0]);
      var s' := Cycle(st', inputs'[0]);
      assert SameReadings(inputs[1..], inputs'[1..]) by {
        forall i | 0 <= i < |inputs| - 1 ensures inputs[1..][i].(command := None) == inputs'[1..][i].(command := None) {
          assert inputs[1..][i] == inputs[i + 1] && inputs'[1..][i] == inputs'[i + 1];
        }
      }
      ModeNeverAffectsDrives(s.next, s'.next, inputs[1..], inputs'[1..]);
      SameDrivesCons(s.out, s'.out, Run(s.next, inputs[1..]).outs, Run(s'.next, inputs'[1..]).outs);
    }
  }

  lemma SameDrivesCons(o: CycleOutput, o': CycleOutput, outs: seq<CycleOutput>, outs': seq<CycleOutput>)
    requires o.front == o'.front && o.back == o'.back && SameDrives(outs, outs')
    ensures SameDrives([o] + outs, [o'] + outs')
  {
    forall i | 0 <= i < |outs| + 1
      ensures ([o] + outs)[i].front == ([o'] + outs')[i].front && ([o] + outs)[i].back == ([o'] + outs')[i].back
    {
      if i > 0 {
        assert ([o] + outs)[i] == outs[i - 1] && ([o'] + outs')[i] == outs'[i - 1];
      }
    }
  }

  /** Every integral stays within +-maxIntegral over any run from any state. */
  lemma {:induction false} IntegralsStayBounded(st: LoopState, inputs: seq<CycleInput>)
    requires -MAX_INTEGRAL <= st.x.integral <= MAX_INTEGRAL && -MAX_INTEGRAL <= st.y.integral <= MAX_INTEGRAL
    ensures var f := Run(st, inputs).final;
            -MAX_INTEGRAL <= f.x.integral <= MAX_INTEGRAL && -MAX_INTEGRAL <= f.y.integral <= MAX_INTEGRAL
    decreases |inputs|
  {
    if inputs != [] {
      IntegralsStayBounded(Cycle(st, inputs[0]).next, inputs[1..]);
    }
  }

  /** The firmware's globals, updated in place by each call of `Loop`. */
  class Firmware {
    var integralX: real
    var integralY: real
    var lastErrorX: real
    var lastErrorY: real
    var lastDerivativeX: real
    var lastDerivativeY: real
    var smoothS1: real
    var smoothS2: real
    var smoothT1: real
    var smoothT2: real
    var calibrationMode: bool

    function State(): LoopState
      reads this
    {
      LoopState(FilteredAxis(integralX, lastErrorX, lastDerivativeX), FilteredAxis(integralY, lastErrorY, lastDerivativeY),
                smoothS1, smoothS2, smoothT1, smoothT2, calibrationMode)
    }

    /** The globals' initial values. */
    constructor ()
      ensures State() == INITIAL
    {
      integralX, integralY := 0.0, 0.0;
      lastErrorX, lastErrorY := 0.0, 0.0;
      lastDerivativeX, lastDerivativeY := 0.0, 0.0;
      smoothS1, smoothS2, smoothT1, smoothT2 := 0.0, 0.0, 0.0, 0.0;
      calibrationMode := false;
    }

    /** Stage 0: the serial command, if a line was available. */
    method HandleCommand(command: Option<string>) returns (printed: seq<Telemetry>)
      modifies this
      ensures State() == old(State()).(calibration := ApplyCommand(old(calibrationMode), command).calibration)
      ensures printed == ApplyCommand(old(calibrationMode), command).printed
    {
      printed := [];
      if command.Some? {
        var cmd := Strip(command.value, IsCSpace);
        if cmd == "CAL_ON" {
          calibrationMode := true;
          printed := [ModeMessage(true)];
        } else if cmd == "CAL_OFF" {
          calibrationMode := false;
          printed := [ModeMessage(false)];
        }
      }
    }

    /** Stage 3: the X-axis PID with its filtered derivative. */
    method UpdateX(error: real) returns (signalX: real)
      modifies this
      ensures var u := FilteredStep(GAINS_X, ALPHA_X, old(State()).x, error);
              State() == old(State()).(x := u.next) && signalX == u.signal
    {
      integralX := ConstrainReal(integralX + error * UPDATE_RATE, -MAX_INTEGRAL, MAX_INTEGRAL);
      var derivX := error - lastErrorX;
      var filteredX := LowPass(ALPHA_X, derivX, lastDerivativeX);
      lastDerivativeX := filteredX;
      signalX := error * GAINS_X.kp + integralX * GAINS_X.ki + filteredX * GAINS_X.kd;
      lastErrorX := error;
    }

    /** Stage 4: the Y-axis PID with its filtered derivative. */
    method UpdateY(error: real) returns (signalY: real)
      modifies this
      ensures var u := FilteredStep(GAINS_Y, ALPHA_Y, old(State()).y, error);
              State() == old(State()).(y := u.next) && signalY == u.signal
    {
      integralY := ConstrainReal(integralY + error * UPDATE_RATE, -MAX_INTEGRAL, MAX_INTEGRAL);
      var derivY := error - lastErrorY;
      var filteredY := LowPass(ALPHA_Y, derivY, lastDerivativeY);
      lastDerivativeY := filteredY;
      signalY := error * GAINS_Y.kp + integralY * GAINS_Y.ki + filteredY * GAINS_Y.kd;
      lastErrorY := error;
    }

    /** The range and infrared smoothing. */
    method SmoothSensors(input: CycleInput)
      modifies this
      ensures State() == SmoothAll(old(State()), input)
    {
      smoothT1 := SmoothRange(smoothT1, input.tof1, TOF1_OFFSET);
      smoothT2 := SmoothRange(smoothT2, input.tof2, TOF2_OFFSET);
      smoothS1 := Smooth(smoothS1, input.s1 as real);
      smoothS2 := Smooth(smoothS2, input.s2 as real);
    }

    /** One call of `loop()`. */
    method Loop(input: CycleInput) returns (out: CycleOutput)
      modifies this
      ensures State() == Cycle(old(State()), input).next
      ensures out == Cycle(old(State()), input).out
    {
      ghost var st0 := State();
      ghost var cmd := ApplyCommand(calibrationMode, input.command);
      var printed := HandleCommand(input.command);
      var errorXY := ErrorXY(input.s1 as real, input.s2 as real);
      ghost var ux := FilteredStep(GAINS_X, ALPHA_X, st0.x, errorXY.x);
      ghost var uy := FilteredStep(GAINS_Y, ALPHA_Y, st0.y, errorXY.y);
      var signalX := UpdateX(errorXY.x);
      var signalY := UpdateY(errorXY.y);
      assert State() == st0.(calibration := cmd.calibration, x := ux.next, y := uy.next);
      assert signalX == ux.signal && signalY == uy.signal;
      var front := SetPower(-signalY);
      var back := SetPower(signalY);
      ghost var diagnostics := if cmd.calibration then [] else [Diagnostics(errorXY.x, errorXY.y, ux.signal, uy.signal, ux.next.integral, uy.next.integral)];
      if !calibrationMode {
        printed := printed + [Diagnostics(errorXY.x, errorXY.y, signalX, signalY, integralX, integralY)];
      }
      assert printed == cmd.printed + diagnostics;
      SmoothSensors(input);
      ghost var smoothed := SmoothAll(st0, input);
      assert State() == smoothed.(x := ux.next, y := uy.next, calibration := cmd.calibration);
      ghost var sample := if cmd.calibration then [CalibrationSample(input.s1, input.s2, smoothed.smoothT1, smoothed.smoothT2)] else [];
      if calibrationMode {
        printed := printed + [CalibrationSample(input.s1, input.s2, smoothT1, smoothT2)];
      }
      assert printed == cmd.printed + diagnostics + sample;
      out := CycleOutput(front, back, printed);
      assert Cycle(st0, input) == CycleOn(st0, input, errorXY);
    }
  }
}
