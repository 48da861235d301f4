/**
 * The per-axis controller. Each cycle adds `error * dt` to the integral and
 * clamps it to +-maxIntegral (anti-windup by clamping), takes the change in
 * error as the derivative, and outputs `error * Kp + integral * Ki +
 * derivative * Kd`. The control firmware low-pass filters the derivative with
 * a per-axis `alpha`; the sway demo uses it unfiltered.
 */
module Pid {
  import opened Arith

  datatype Gains = Gains(kp: real, ki: real, kd: real, dt: real, maxIntegral: real)
  {
    predicate Valid() { maxIntegral >= 0.0 }
  }

  /** The state of one axis with a filtered derivative. */
  datatype FilteredAxis = FilteredAxis(integral: real, lastError: real, lastDerivative: real)

  /** The state of one axis with an unfiltered derivative. */
  datatype PlainAxis = PlainAxis(integral: real, lastError: real)

  /** The new axis state and the control signal of one cycle. */
  datatype Update<S> = Update(next: S, signal: real)

  predicate Between(lo: real, x: real, hi: real)
  {
    (lo <= x <= hi) || (hi <= x <= lo)
  }

  /** `integral = constrain(integral + error * dt, -maxIntegral, maxIntegral)`. */
  function IntegralStep(g: Gains, integral: real, error: real): (r: real)
    requires g.Valid()
    ensures -g.maxIntegral <= r <= g.maxIntegral
    ensures -g.maxIntegral <= integral + error * g.dt <= g.maxIntegral ==> r == integral + error * g.dt
  {
    ConstrainReal(integral + error * g.dt, -g.maxIntegral, g.maxIntegral)
  }

  /** The one-pole low-pass filter `alpha * raw + (1 - alpha) * last`. */
  function LowPass(alpha: real, raw: real, last: real): (r: real)
    ensures 0.0 <= alpha <= 1.0 ==> Between(last, r, raw)
    ensures raw == 0.0 ==> r == (1.0 - alpha) * last
  {
    LowPassBetween(alpha, raw, last);
    alpha * raw + (1.0 - alpha) * last
  }

  /** A weight in [0, 1] puts the filtered value between the old one and the new sample. */
  lemma LowPassBetween(alpha: real, raw: real, last: real)
    ensures 0.0 <= alpha <= 1.0 ==> Between(last, alpha * raw + (1.0 - alpha) * last, raw)
  {
    if 0.0 <= alpha <= 1.0 {
      var r := alpha * raw + (1.0 - alpha) * last;
      if raw >= last {
        MulNonneg(alpha, raw - last);
        MulNonneg(1.0 - alpha, raw - last);
        assert r - last == alpha * (raw - last);
        assert raw - r == (1.0 - alpha) * (raw - last);
      } else {
        MulNonneg(alpha, last - raw);
        MulNonneg(1.0 - alpha, last - raw);
        assert last - r == alpha * (last - raw);
        assert r - raw == (1.0 - alpha) * (last - raw);
      }
    }
  }

  /** The controller's output: the error, the integral and the derivative, each weighted by its gain. */
  function PidSum(g: Gains, error: real, integral: real, derivative: real): real
  {
    error * g.kp + integral * g.ki + derivative * g.kd
  }

  /** The axis state after one cycle of the controller with a low-pass filtered derivative. */
  function FilteredNext(g: Gains, alpha: real, st: FilteredAxis, error: real): FilteredAxis
    requires g.Valid()
  {
    FilteredAxis(IntegralStep(g, st.integral, error), error, LowPass(alpha, error - st.lastError, st.lastDerivative))
  }

  /** One cycle of the controller with a low-pass filtered derivative. */
  function FilteredStep(g: Gains, alpha: real, st: FilteredAxis, error: real): (u: Update<FilteredAxis>)
    requires g.Valid()
    ensures -g.maxIntegral <= u.next.integral <= g.maxIntegral
    ensures u.next.lastError == error
    ensures u.signal == PidSum(g, error, u.next.integral, u.next.lastDerivative)
  {
    var next := FilteredNext(g, alpha, st, error);
    Update(next, PidSum(g, error, next.integral, next.lastDerivative))
  }

  /** One cycle of the controller with the raw derivative. */
  function PlainStep(g: Gains, st: PlainAxis, error: real): (u: Update<PlainAxis>)
    requires g.Valid()
    ensures -g.maxIntegral <= u.next.integral <= g.maxIntegral
    ensures u.next.lastError == error
    ensures u.signal == PidSum(g, error, u.next.integral, error - st.lastError)
  {
    var integral := IntegralStep(g, st.integral, error);
    Update(PlainAxis(integral, error), PidSum(g, error, integral, error - st.lastError))
  }

  /**
   * The unfiltered controller is the filtered one with `alpha = 1`, whatever
   * the remembered filtered derivative.
   */
  lemma PlainIsUnfiltered(g: Gains, st: PlainAxis, lastDerivative: real, error: real)
    requires g.Valid()
    ensures var f := FilteredStep(g, 1.0, FilteredAxis(st.integral, st.lastError, lastDerivative), error);
            var p := PlainStep(g, st, error);
            p.signal == f.signal && p.next == PlainAxis(f.next.integral, f.next.lastError)
  {
  }

  /** `n * step`, written as repeated addition. */
  function Times(n: nat, step: real): (r: real)
    ensures step >= 0.0 ==> r >= 0.0
    ensures step <= 0.0 ==> r <= 0.0
  {
    if n == 0 then 0.0 else Times(n - 1, step) + step
  }

  lemma {:induction false} TimesIsProduct(n: nat, step: real)
    ensures Times(n, step) == n as real * step
  {
    if n > 0 {
      TimesIsProduct(n - 1, step);
      assert n as real * step == (n - 1) as real * step + step;
    }
  }

  /** `q^n * d`, written as repeated scaling. */
  function Decay(q: real, n: nat, d: real): real
  {
    if n == 0 then d else q * Decay(q, n - 1, d)
  }

  /** `n` cycles of the filtered controller with the same error every cycle. */
  function HoldError(g: Gains, alpha: real, st: FilteredAxis, error: real, n: nat): FilteredAxis
    requires g.Valid()
  {
    if n == 0 then st else FilteredNext(g, alpha, HoldError(g, alpha, st, error, n - 1), error)
  }

  /**
   * Under a held error the integral moves in a straight line, `n * error * dt`
   * after `n` cycles, until it meets the clamp, and then stays exactly at
   * +-maxIntegral.
   */
  lemma {:induction false} HeldIntegralSaturates(g: Gains, alpha: real, st: FilteredAxis, error: real, n: nat)
    requires g.Valid()
    requires -g.maxIntegral <= st.integral <= g.maxIntegral
    ensures HoldError(g, alpha, st, error, n).integral
            == ConstrainReal(st.integral + Times(n, error * g.dt), -g.maxIntegral, g.maxIntegral)
  {
    if n > 0 {
      HeldIntegralSaturates(g, alpha, st, error, n - 1);
      var m := g.maxIntegral;
      var step := error * g.dt;
      var before := st.integral + Times(n - 1, step);
      var prev := HoldError(g, alpha, st, error, n - 1).integral;
      HoldErrorStep(g, alpha, st, error, n);
      IntegralStepUnfold(g, prev, error, step);
      ClampAccumulates(m, st.integral, Times(n - 1, step), step);
    }
  }

  lemma HoldErrorStep(g: Gains, alpha: real, st: FilteredAxis, error: real, n: nat)
    requires g.Valid() && n > 0
    ensures HoldError(g, alpha, st, error, n).integral
            == IntegralStep(g, HoldError(g, alpha, st, error, n - 1).integral, error)
  {
  }

  lemma IntegralStepUnfold(g: Gains, integral: real, error: real, step: real)
    requires g.Valid() && step == error * g.dt
    ensures IntegralStep(g, integral, error) == ConstrainReal(integral + step, -g.maxIntegral, g.maxIntegral)
  {
  }

  /**
   * Adding a step to a clamped running sum, where all steps so far had the
   * step's sign, gives the clamp of the unclamped sum.
   */
  lemma ClampAccumulates(m: real, start: real, sum: real, step: real)
    requires m >= 0.0 && -m <= start <= m
    requires step >= 0.0 ==> sum >= 0.0
    requires step <= 0.0 ==> sum <= 0.0
    ensures ConstrainReal(ConstrainReal(start + sum, -m, m) + step, -m, m) == ConstrainReal(start + sum + step, -m, m)
  {
  }

  /** Under a held error the filtered derivative shrinks by the factor `1 - alpha` every cycle. */
  lemma {:induction false} HeldDerivativeGeometric(g: Gains, alpha: real, st: FilteredAxis, error: real, n: nat)
    requires g.Valid()
    requires st.lastError == error
    ensures HoldError(g, alpha, st, error, n).lastDerivative == Decay(1.0 - alpha, n, st.lastDerivative)
    ensures HoldError(g, alpha, st, error, n).lastError == error
  {
    if n > 0 {
      HeldDerivativeGeometric(g, alpha, st, error, n - 1);
      var prev := HoldError(g, alpha, st, error, n - 1);
      assert HoldError(g, alpha, st, error, n) == FilteredNext(g, alpha, prev, error);
      assert error - prev.lastError == 0.0;
    }
  }

  /** Scaling by a non-negative factor scales the magnitude by it. */
  lemma AbsScale(q: real, v: real)
    requires q >= 0.0
    ensures AbsReal(q * v) == q * AbsReal(v)
  {
    if v < 0.0 {
      MulNonneg(q, -v);
      assert q * v == -(q * -v);
    } else {
      MulNonneg(q, v);
    }
  }

  /** (1 - a) (1 + n a) = 1 + (n - 1) a - n a^2 <= 1 + (n - 1) a. */
  lemma FactorStep(alpha: real, n: nat)
    requires 0.0 < alpha <= 1.0 && n > 0
    ensures (1.0 - alpha) * (1.0 + n as real * alpha) <= 1.0 + (n - 1) as real * alpha
  {
    var k := n as real;
    assert (1.0 - alpha) * (1.0 + k * alpha) == 1.0 + (k - 1.0) * alpha - k * alpha * alpha;
    MulNonneg(k, alpha);
    MulNonneg(k * alpha, alpha);
  }

  /** A bound `|v| g <= b` survives scaling `v` by `q >= 0` when `q f <= g`. */
  lemma ScaleStep(q: real, v: real, f: real, g: real, b: real)
    requires q >= 0.0 && AbsReal(v) * g <= b && q * f <= g
    ensures AbsReal(q * v) * f <= b
  {
    var x := AbsReal(v);
    AbsScale(q, v);
    assert (q * x) * f == x * (q * f);
    MulMonotone(x, q * f, g);
  }

  /**
   * The decay is at least as fast as 1 / (1 + n * alpha), so the filtered
   * derivative under a held error tends to 0 for every alpha in (0, 1].
   */
  lemma {:induction false} DecayBound(alpha: real, n: nat, d: real)
    requires 0.0 < alpha <= 1.0
    ensures ShrunkBy(Decay(1.0 - alpha, n, d), 1.0 + n as real * alpha, AbsReal(d))
  {
    if n > 0 {
      DecayBound(alpha, n - 1, d);
      ShrinkStep(alpha, n, Decay(1.0 - alpha, n - 1, d), AbsReal(d));
    }
  }

  /** One more cycle of decay raises the factor of the bound from `1 + (n - 1) alpha` to `1 + n alpha`. */
  lemma ShrinkStep(alpha: real, n: nat, v: real, b: real)
    requires 0.0 < alpha <= 1.0 && n > 0
    requires ShrunkBy(v, 1.0 + (n - 1) as real * alpha, b)
    ensures ShrunkBy((1.0 - alpha) * v, 1.0 + n as real * alpha, b)
  {
    FactorStep(alpha, n);
    ScaleStep(1.0 - alpha, v, 1.0 + n as real * alpha, 1.0 + (n - 1) as real * alpha, b);
  }

  /** `x`, scaled by `factor`, is no larger in magnitude than `bound`. */
  predicate ShrunkBy(x: real, factor: real, bound: real)
  {
    AbsReal(x) * factor <= bound
  }

  /** Held error: after `n` cycles |derivative| * (1 + n * alpha) <= |initial derivative|. */
  lemma HeldDerivativeVanishes(g: Gains, alpha: real, st: FilteredAxis, error: real, n: nat)
    requires g.Valid() && 0.0 < alpha <= 1.0
    requires st.lastError == error
    ensures ShrunkBy(HoldError(g, alpha, st, error, n).lastDerivative, 1.0 + n as real * alpha, AbsReal(st.lastDerivative))
  {
    HeldDerivativeGeometric(g, alpha, st, error, n);
    DecayBound(alpha, n, st.lastDerivative);
  }
}
