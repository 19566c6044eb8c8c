/**
 * The integer clamp helpers every incrementer is built on.
 * `Clamp` applies the lower bound first and the upper bound second, so with
 * inverted bounds the upper bound wins.
 */
module ClampMath {

  /** v, raised to min when it is below it. */
  function ClampMin(v: int, min: int): (r: int)
    ensures r >= min && r >= v
    ensures r == v || r == min
  {
    if v < min then min else v
  }

  /** v, lowered to max when it is above it. */
  function ClampMax(v: int, max: int): (r: int)
    ensures r <= max && r <= v
    ensures r == v || r == max
  {
    if v > max then max else v
  }

  /** ClampMax after ClampMin. */
  function Clamp(v: int, min: int, max: int): (r: int)
    ensures min <= max ==> min <= r <= max
    ensures min <= v <= max ==> r == v
    ensures v < min && min <= max ==> r == min
    ensures v > max && min <= max ==> r == max
    ensures min > max ==> r == max
  {
    ClampMax(ClampMin(v, min), max)
  }

  /** Clamping into a proper range twice is clamping once. */
  lemma ClampIdempotent(v: int, min: int, max: int)
    requires min <= max
    ensures Clamp(Clamp(v, min, max), min, max) == Clamp(v, min, max)
  {
  }

  /** A clamped value is the closest point of [min, max] to v. */
  lemma ClampNearest(v: int, min: int, max: int, w: int)
    requires min <= w <= max
    ensures Dist(Clamp(v, min, max), v) <= Dist(w, v)
  {
  }

  function Dist(a: int, b: int): nat
  {
    if a < b then b - a else a - b
  }
}
