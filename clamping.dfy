/** `clamp`: restrict an input to the interval spanned by two bounds, given
    in either order. Numbers are modelled as reals (no NaN, no signed zero). */
module Clamping {

  /** `Math.min` and `Math.max` on ordered numbers. */
  function Min(a: real, b: real): (r: real)
    ensures r <= a && r <= b
    ensures r == a || r == b
  {
    if a <= b then a else b
  }

  function Max(a: real, b: real): (r: real)
    ensures a <= r && b <= r
    ensures r == a || r == b
  {
    if a <= b then b else a
  }

  /** Swap the bounds when `min > max`, then `Math.min(max, Math.max(min, input))`. */
  function Clamp(min: real, max: real, input: real): (r: real)
    ensures Min(min, max) <= r <= Max(min, max)
    ensures Min(min, max) <= input <= Max(min, max) ==> r == input
    ensures input > Max(min, max) ==> r == Max(min, max)
    ensures input < Min(min, max) ==> r == Min(min, max)
  {
    var (lo, hi) := if min > max then (max, min) else (min, max);
    Min(hi, Max(lo, input))
  }

  /** The order in which the bounds are given does not matter. */
  lemma ClampSymmetric(a: real, b: real, x: real)
    ensures Clamp(a, b, x) == Clamp(b, a, x)
  {
  }

  /** Clamping a clamped value changes nothing. */
  lemma ClampIdempotent(a: real, b: real, x: real)
    ensures Clamp(a, b, Clamp(a, b, x)) == Clamp(a, b, x)
  {
  }

  /** Equal bounds leave only one possible result. */
  lemma ClampPoint(a: real, x: real)
    ensures Clamp(a, a, x) == a
  {
  }

  /** Clamping keeps the order of its inputs. */
  lemma ClampMonotone(a: real, b: real, x: real, y: real)
    requires x <= y
    ensures Clamp(a, b, x) <= Clamp(a, b, y)
  {
  }
}
