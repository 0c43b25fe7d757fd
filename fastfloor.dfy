/** `utils::fastfloor`: the same rule as `fast_floor`, through an `as i64` cast. */
module FastfloorUtil {
  import opened Cast
  import FastFloorUtil

  function Fastfloor(x: real): (r: int)
    requires TruncFitsI64(x)
    ensures I64Min <= r <= I64Max
    ensures r as real <= x && x - r as real <= 1.0
    ensures x > 0.0 ==> r == Trunc(x)
    ensures x <= 0.0 ==> r == Trunc(x) - 1
  {
    if x > 0.0 then Trunc(x) else Trunc(x) - 1
  }

  /** The result is below the true floor exactly at the non-positive integers. */
  lemma BelowFloorIff(x: real)
    requires TruncFitsI64(x)
    ensures Fastfloor(x) < x.Floor <==> x <= 0.0 && IsInteger(x)
    ensures Fastfloor(x) >= x.Floor - 1
  {
    AgreesWithFastFloor(x);
  }

  /** `fastfloor` and `fast_floor` agree wherever both are defined. */
  lemma AgreesWithFastFloor(x: real)
    requires TruncFitsI64(x)
    ensures Fastfloor(x) == FastFloorUtil.FastFloor(x)
  {
  }
}
