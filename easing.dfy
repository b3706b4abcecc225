/**
  `easeInOutCubic`, the easing curve every animated version applies to the
  clamped progress before blending two snapshots.
*/
module Easing {

  function Cube(a: real): real
  {
    a * a * a
  }

  /**
    The cubic ease-in-out curve: 4u³ below one half, 1 − (2 − 2u)³/2 from one
    half on (`Math.pow(-2 * u + 2, 3)` is the cube of 2 − 2u).
  */
  function Ease(u: real): (e: real)
    ensures 0.0 <= u <= 1.0 ==> 0.0 <= e <= 1.0
  {
    if u < 0.5 then
      CubeMonotone(0.0, u);
      CubeMonotone(u, 0.5);
      4.0 * Cube(u)
    else
      CubeMonotone(0.0, 2.0 - 2.0 * u);
      CubeMonotone(2.0 - 2.0 * u, 1.0);
      1.0 - Cube(-2.0 * u + 2.0) / 2.0
  }

  lemma CubeMonotone(a: real, b: real)
    ensures 0.0 <= a <= b ==> Cube(a) <= Cube(b)
  {
    if 0.0 <= a <= b {
      assert a * a <= b * b by {
        assert a * a <= a * b <= b * b;
      }
      assert a * a * a <= b * b * a <= b * b * b;
    }
  }

  lemma CubeDouble(a: real)
    ensures Cube(2.0 * a) == 8.0 * Cube(a)
  {
  }

  /** The curve starts at 0, passes through one half at the midpoint and ends at 1. */
  lemma EaseFixedPoints()
    ensures Ease(0.0) == 0.0 && Ease(0.5) == 0.5 && Ease(1.0) == 1.0
  {
  }

  /**
    The curve is point-symmetric about (1/2, 1/2): easing the reversed progress
    1 − u gives the reversed weight.  So running a blend backwards from the far
    snapshot retraces the forward run.
  */
  lemma EaseSymmetric(u: real)
    ensures Ease(1.0 - u) == 1.0 - Ease(u)
  {
    if u < 0.5 {
      CubeDouble(u);
      assert -2.0 * (1.0 - u) + 2.0 == 2.0 * u;
    } else if u > 0.5 {
      CubeDouble(1.0 - u);
      assert -2.0 * u + 2.0 == 2.0 * (1.0 - u);
    }
  }

  /** On [0, 1] the curve never goes back: a later progress gives a weight at least as large. */
  lemma EaseMonotone(u1: real, u2: real)
    requires 0.0 <= u1 <= u2 <= 1.0
    ensures Ease(u1) <= Ease(u2)
  {
    if u2 < 0.5 {
      CubeMonotone(u1, u2);
    } else if u1 >= 0.5 {
      CubeMonotone(2.0 - 2.0 * u2, 2.0 - 2.0 * u1);
    } else {
      CubeMonotone(u1, 0.5);
      CubeMonotone(2.0 - 2.0 * u2, 1.0);
    }
  }
}
