/** `utils::fade`: the quintic smoothing curve 6t^5 - 15t^4 + 10t^3. */
module FadeUtil {

  function Fade(t: real): real {
    t * t * t * (t * (t * 6.0 - 15.0) + 10.0)
  }

  lemma FadeEnds()
    ensures Fade(0.0) == 0.0
    ensures Fade(1.0) == 1.0
    ensures Fade(0.5) == 0.5
  {
  }

  /** The curve is point-symmetric about (1/2, 1/2). */
  lemma FadeSymmetric(t: real)
    ensures Fade(1.0 - t) == 1.0 - Fade(t)
  {
  }

  /** Fade maps [0, 1] into [0, 1]. */
  lemma FadeBounds(t: real)
    requires 0.0 <= t <= 1.0
    ensures 0.0 <= Fade(t) <= 1.0
  {
    FadeNonNegative(t);
    FadeNonNegative(1.0 - t);
    FadeSymmetric(t);
  }

  /** For t >= 0 the quadratic factor 6t^2 - 15t + 10 is positive (its
      discriminant is negative), so the curve is not negative. */
  lemma FadeNonNegative(t: real)
    requires 0.0 <= t
    ensures 0.0 <= Fade(t)
  {
    var q := t * (t * 6.0 - 15.0) + 10.0;
    assert q == 6.0 * (t - 1.25) * (t - 1.25) + 0.625;
    assert 0.0 <= t * t;
    assert 0.0 <= (t * t) * t;
    assert 0.0 < q;
    assert Fade(t) == (t * t * t) * q;
  }
}
