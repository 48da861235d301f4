/**
 * The "virtual time-of-flight" estimators: a fixed degree-2 polynomial in the
 * two infrared readings `s1`, `s2` per axis, whose coefficients the host-side
 * correlator fits and writes into a generated header. The estimators have no
 * state and no range check.
 */
module VirtualTof {

  /**
   * `c0 + c1 s1 + c2 s2 + c11 s1^2 + c12 s1 s2 + c22 s2^2`, the term order the
   * generated header uses (the polynomial-feature order 1, s1, s2, s1^2, s1 s2, s2^2).
   */
  datatype Poly2 = Poly2(c0: real, c1: real, c2: real, c11: real, c12: real, c22: real)
  {
    function Eval(s1: real, s2: real): real
    {
      var s1Sq := s1 * s1;
      var s2Sq := s2 * s2;
      c0 + c1 * s1 + c2 * s2 + c11 * s1Sq + c12 * s1 * s2 + c22 * s2Sq
    }
  }

  /** The coefficients of `get_t1_est` in the generated header. */
  const T1: Poly2 := Poly2(-35.001870, 0.0429769281, 0.0435583123, -0.0000054849, -0.0000127265, -0.0000040333)

  /** The coefficients of `get_t2_est` in the generated header. */
  const T2: Poly2 := Poly2(139.873197, -0.0476692343, -0.0404498862, 0.0000063287, 0.0000120940, 0.0000029441)

  /** The coefficients written inline in the sway demo for its t1 estimate. */
  const SWAY_T1: Poly2 := Poly2(-4.705125, 0.0058928339, 0.0403866126, 0.0000026319, -0.0000076040, -0.0000050890)

  /** The coefficients written inline in the sway demo for its t2 estimate. */
  const SWAY_T2: Poly2 := Poly2(327.215778, -0.1293694981, -0.1502912265, 0.0000136065, 0.0000376023, 0.0000182367)

  /** `get_t1_est(s1, s2)`. */
  function GetT1Est(s1: real, s2: real): (t: real)
    ensures s1 == 0.0 && s2 == 0.0 ==> t == T1.c0
  {
    T1.Eval(s1, s2)
  }

  /** `get_t2_est(s1, s2)`. */
  function GetT2Est(s1: real, s2: real): (t: real)
    ensures s1 == 0.0 && s2 == 0.0 ==> t == T2.c0
  {
    T2.Eval(s1, s2)
  }

  /**
   * Recovers the six coefficients of a degree-2 polynomial from its values at
   * six points by finite differences: the value at the origin, the central
   * first and second differences along each axis, and the mixed difference.
   */
  function FitFromSamples(f: (real, real) -> real): Poly2
  {
    var o := f(0.0, 0.0);
    Poly2(
      o,
      (f(1.0, 0.0) - f(-1.0, 0.0)) / 2.0,
      (f(0.0, 1.0) - f(0.0, -1.0)) / 2.0,
      (f(1.0, 0.0) + f(-1.0, 0.0) - 2.0 * o) / 2.0,
      f(1.0, 1.0) - f(1.0, 0.0) - f(0.0, 1.0) + o,
      (f(0.0, 1.0) + f(0.0, -1.0) - 2.0 * o) / 2.0)
  }

  /**
   * The evaluation determines the coefficients: an estimator's six
   * coefficients are exactly the ones its values imply, so each term of the
   * header contributes as its coefficient says and no two coefficient sets
   * give the same estimator.
   */
  lemma EvalDeterminesCoefficients(p: Poly2)
    ensures FitFromSamples((a, b) => p.Eval(a, b)) == p
  {
    assert p.Eval(1.0, 0.0) == p.c0 + p.c1 + p.c11;
    assert p.Eval(-1.0, 0.0) == p.c0 - p.c1 + p.c11;
    assert p.Eval(0.0, 1.0) == p.c0 + p.c2 + p.c22;
    assert p.Eval(0.0, -1.0) == p.c0 - p.c2 + p.c22;
    assert p.Eval(1.0, 1.0) == p.c0 + p.c1 + p.c2 + p.c11 + p.c12 + p.c22;
  }

  /** Two estimators that agree everywhere have the same coefficients. */
  lemma AgreeingEstimatorsHaveSameCoefficients(p: Poly2, q: Poly2)
    requires forall a, b :: p.Eval(a, b) == q.Eval(a, b)
    ensures p == q
  {
    EvalDeterminesCoefficients(p);
    EvalDeterminesCoefficients(q);
    assert p.Eval(0.0, 0.0) == q.Eval(0.0, 0.0) && p.Eval(1.0, 1.0) == q.Eval(1.0, 1.0);
    assert p.Eval(1.0, 0.0) == q.Eval(1.0, 0.0) && p.Eval(-1.0, 0.0) == q.Eval(-1.0, 0.0);
    assert p.Eval(0.0, 1.0) == q.Eval(0.0, 1.0) && p.Eval(0.0, -1.0) == q.Eval(0.0, -1.0);
  }

  /** At the origin each estimator returns its intercept. */
  lemma EstimatesAtOrigin()
    ensures GetT1Est(0.0, 0.0) == -35.001870
    ensures GetT2Est(0.0, 0.0) == 139.873197
    ensures SWAY_T1.Eval(0.0, 0.0) == -4.705125
    ensures SWAY_T2.Eval(0.0, 0.0) == 327.215778
  {
  }
}
