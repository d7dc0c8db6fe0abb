/**
 * The 2-D point every other part of the converter is built from: a value with
 * componentwise arithmetic, value equality and per-coordinate rounding.
 */
module Pixels {
  import opened Builtins

  /** A point of the beatmap's logical plane (conventionally 0..512 by 0..384). */
  datatype Pixel = Pixel(x: real, y: real)

  /** What `+` and `-` accept on the right: an int shifts both coordinates, a Pixel works componentwise. */
  datatype Operand = Scalar(k: int) | Point(p: Pixel)

  /** True when both coordinates are whole numbers. */
  predicate IsIntegral(p: Pixel)
  {
    p.x.Floor as real == p.x && p.y.Floor as real == p.y
  }

  /** `p + v`. */
  function Add(p: Pixel, v: Operand): (r: Pixel)
    ensures v.Scalar? ==> r.x - p.x == v.k as real && r.y - p.y == v.k as real
    ensures v.Point? ==> r.x - p.x == v.p.x && r.y - p.y == v.p.y
  {
    match v
    case Scalar(k) => Pixel(p.x + k as real, p.y + k as real)
    case Point(q) => Pixel(p.x + q.x, p.y + q.y)
  }

  /** `p - v`. */
  function Sub(p: Pixel, v: Operand): (r: Pixel)
    ensures v.Scalar? ==> p.x - r.x == v.k as real && p.y - r.y == v.k as real
    ensures v.Point? ==> p.x - r.x == v.p.x && p.y - r.y == v.p.y
  {
    match v
    case Scalar(k) => Pixel(p.x - k as real, p.y - k as real)
    case Point(q) => Pixel(p.x - q.x, p.y - q.y)
  }

  /** `p * k`; `k * p` is the same operation with the factor written first. */
  function Scale(p: Pixel, k: real): (r: Pixel)
    ensures k != 0.0 ==> r.x / k == p.x && r.y / k == p.y
    ensures k == 0.0 ==> r == Pixel(0.0, 0.0)
  {
    Pixel(p.x * k, p.y * k)
  }

  /** `k * p`, which the source forwards to `p * k`. */
  function ScaleLeft(k: real, p: Pixel): (r: Pixel)
    ensures r == Scale(p, k)
  {
    Scale(p, k)
  }

  /** `p == q`: the printed forms agree exactly when both coordinates do. */
  function Equals(p: Pixel, q: Pixel): (r: bool)
    ensures r <==> p.x == q.x && p.y == q.y
  {
    p == q
  }

  /** Iterating a Pixel yields its x and then its y. */
  function Coordinates(p: Pixel): (r: seq<real>)
    ensures |r| == 2 && Pixel(r[0], r[1]) == p
  {
    [p.x, p.y]
  }

  /** `p.round()`: each coordinate rounded on its own, ties to even. */
  function Round(p: Pixel): (r: Pixel)
    ensures IsIntegral(r)
    ensures -0.5 <= r.x - p.x <= 0.5 && -0.5 <= r.y - p.y <= 0.5
    ensures (r.x - p.x == 0.5 || p.x - r.x == 0.5) ==> r.x.Floor % 2 == 0
    ensures (r.y - p.y == 0.5 || p.y - r.y == 0.5) ==> r.y.Floor % 2 == 0
  {
    Pixel(RoundHalfEven(p.x) as real, RoundHalfEven(p.y) as real)
  }

  /** Subtracting what was added gives the point back, and the other way round. */
  lemma AddSubInverse(p: Pixel, v: Operand)
    ensures Sub(Add(p, v), v) == p
    ensures Add(Sub(p, v), v) == p
  {
  }

  /** Adding two points does not depend on their order. */
  lemma AddCommutes(p: Pixel, q: Pixel)
    ensures Add(p, Point(q)) == Add(q, Point(p))
  {
  }

  /** Scaling distributes over componentwise addition. */
  lemma ScaleDistributes(p: Pixel, q: Pixel, k: real)
    ensures Scale(Add(p, Point(q)), k) == Add(Scale(p, k), Point(Scale(q, k)))
  {
  }

  /** A point with whole-number coordinates is left as it is by rounding. */
  lemma RoundIntegral(p: Pixel)
    requires IsIntegral(p)
    ensures Round(p) == p
  {
    RoundOfInteger(p.x.Floor);
    RoundOfInteger(p.y.Floor);
  }

  /**
   * Away from ties, rounding picks the one whole number within half a unit
   * of each coordinate.
   */
  lemma RoundNearest(p: Pixel, kx: int, ky: int)
    requires -0.5 < p.x - kx as real < 0.5 && -0.5 < p.y - ky as real < 0.5
    ensures Round(p) == Pixel(kx as real, ky as real)
  {
    RoundNearestInteger(p.x, kx);
    RoundNearestInteger(p.y, ky);
  }

  /** Rounding twice is rounding once. */
  lemma RoundIdempotent(p: Pixel)
    ensures Round(Round(p)) == Round(p)
  {
    RoundIntegral(Round(p));
  }

  /** Equality of pixels is an equivalence. */
  lemma EqualsIsEquivalence(p: Pixel, q: Pixel, s: Pixel)
    ensures Equals(p, p)
    ensures Equals(p, q) ==> Equals(q, p)
    ensures Equals(p, q) && Equals(q, s) ==> Equals(p, s)
  {
  }
}
