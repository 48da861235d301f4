/**
 * The 45-degree rotation from the oblique sensing axes (U, V) to the cardinal
 * actuation axes (X, Y), `uvToXY`. The source rotates with the truncated
 * constant 0.7071 in place of cos 45 degrees.
 */
module Transform {

  const COEFF: real := 0.7071

  datatype Vec2 = Vec2(x: real, y: real)

  function Dot(a: Vec2, b: Vec2): real
  {
    a.x * b.x + a.y * b.y
  }

  /** `uvToXY`: x = -(u + v) * c, y = (u - v) * c. */
  function UvToXY(u: real, v: real): (r: Vec2)
  {
    Vec2(-u * COEFF - v * COEFF, u * COEFF - v * COEFF)
  }

  /** The inverse of the rotation, used only to state that nothing is lost. */
  function XYToUv(p: Vec2): (r: Vec2)
  {
    Vec2((p.y - p.x) / (2.0 * COEFF), -(p.x + p.y) / (2.0 * COEFF))
  }

  /** The rotation is invertible: the oblique error can be recovered exactly. */
  lemma RotationInvertible(u: real, v: real)
    ensures XYToUv(UvToXY(u, v)) == Vec2(u, v)
  {
    var p := UvToXY(u, v);
    assert p.y - p.x == 2.0 * COEFF * u;
    assert -(p.x + p.y) == 2.0 * COEFF * v;
  }

  /** The images of the two oblique unit vectors are orthogonal. */
  lemma AxesOrthogonal()
    ensures Dot(UvToXY(1.0, 0.0), UvToXY(0.0, 1.0)) == 0.0
  {
  }

  /**
   * The rotation is linear, and scales every squared length by the same
   * factor 2c^2 (0.99998 rather than exactly 1, because of the rounded c).
   */
  lemma RotationLinearAndConformal(u: real, v: real, u': real, v': real)
    ensures UvToXY(u + u', v + v') == Vec2(UvToXY(u, v).x + UvToXY(u', v').x, UvToXY(u, v).y + UvToXY(u', v').y)
    ensures Dot(UvToXY(u, v), UvToXY(u, v)) == 2.0 * COEFF * COEFF * (u * u + v * v)
  {
  }
}
