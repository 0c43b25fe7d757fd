/** `utils::lerp`: linear interpolation. */
module LerpUtil {

  function Lerp(t: real, a: real, b: real): real {
    a + t * (b - a)
  }

  lemma LerpEnds(a: real, b: real)
    ensures Lerp(0.0, a, b) == a
    ensures Lerp(1.0, a, b) == b
  {
  }

  /** Interpolating between equal values gives that value, for every t. */
  lemma LerpConstant(t: real, a: real)
    ensures Lerp(t, a, a) == a
  {
  }

  /** For t in [0, 1] the result lies between the two end values. */
  lemma LerpBetween(t: real, a: real, b: real)
    requires 0.0 <= t <= 1.0
    ensures a <= b ==> a <= Lerp(t, a, b) <= b
    ensures b <= a ==> b <= Lerp(t, a, b) <= a
  {
    if a <= b {
      LerpRising(t, a, b - a);
    } else {
      LerpRising(1.0 - t, b, a - b);
      LerpReverse(t, a, b);
    }
  }

  /** Moving from a towards a + d, for d >= 0, by a weight in [0, 1]. */
  lemma LerpRising(t: real, a: real, d: real)
    requires 0.0 <= t <= 1.0 && 0.0 <= d
    ensures a <= Lerp(t, a, a + d) <= a + d
  {
    assert Lerp(t, a, a + d) == a + t * d;
    assert t * d <= 1.0 * d;
  }

  /** Interpolating from the other end with the complementary weight. */
  lemma LerpReverse(t: real, a: real, b: real)
    ensures Lerp(t, a, b) == Lerp(1.0 - t, b, a)
  {
  }
}
