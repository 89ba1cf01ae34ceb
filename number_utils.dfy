/**
 * The comparison and clamping macros of cxa_numberUtils.h over unbounded integers.
 * Each CLAMP macro assigns its result back to `val`; here it is a function that
 * returns the new value of `val`.
 */
module NumberUtils {

  /** CXA_MAX: the larger of the two arguments. */
  function Max(x: int, y: int): (r: int)
    ensures r >= x && r >= y
    ensures r == x || r == y
  {
    if x > y then x else y
  }

  /** CXA_MIN: the smaller of the two arguments. */
  function Min(x: int, y: int): (r: int)
    ensures r <= x && r <= y
    ensures r == x || r == y
  {
    if x < y then x else y
  }

  /** CXA_CLAMP_HIGH: the new value of `val` after limiting it to at most `max`. */
  function ClampHigh(val: int, max: int): (r: int)
    ensures r <= max
    ensures val <= max ==> r == val
    ensures val > max ==> r == max
  {
    Min(val, max)
  }

  /** CXA_CLAMP_LOW: the new value of `val` after raising it to at least `min`. */
  function ClampLow(val: int, min: int): (r: int)
    ensures r >= min
    ensures val >= min ==> r == val
    ensures val < min ==> r == min
  {
    Max(val, min)
  }

  /**
   * CXA_CLAMP_LOW_HIGH: first clamp low, then clamp high. When the bounds are
   * inverted the high clamp is applied last and wins.
   */
  function ClampLowHigh(val: int, min: int, max: int): (r: int)
    ensures min <= max ==> min <= r <= max
    ensures min <= val <= max ==> r == val
    ensures min > max ==> r == max
  {
    ClampHigh(ClampLow(val, min), max)
  }

  lemma ClampHighIdempotent(val: int, max: int)
    ensures ClampHigh(ClampHigh(val, max), max) == ClampHigh(val, max)
  {
  }

  lemma ClampLowIdempotent(val: int, min: int)
    ensures ClampLow(ClampLow(val, min), min) == ClampLow(val, min)
  {
  }

  lemma ClampLowHighIdempotent(val: int, min: int, max: int)
    ensures ClampLowHigh(ClampLowHigh(val, min, max), min, max) == ClampLowHigh(val, min, max)
  {
  }
}
