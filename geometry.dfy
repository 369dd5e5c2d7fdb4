/**
 * Plane geometry used by the queueing planner and the agent clusters: the
 * part of the simulator's 2D vector type that the model needs.
 *
 * Coordinates are reals. The simulator compares Euclidean lengths
 * (a square root) against fixed radii; the model compares SQUARED
 * distances against squared radii instead. SquaresOrderedLe and
 * SquaresOrderedLt show that both comparisons agree for every
 * non-negative length, so nothing is lost by dropping the square root.
 */
module Geometry {

  /** A point or a displacement in the plane. */
  datatype Vec = Vec(x: real, y: real)

  function Plus(a: Vec, b: Vec): Vec {
    Vec(a.x + b.x, a.y + b.y)
  }

  function Minus(a: Vec, b: Vec): Vec {
    Vec(a.x - b.x, a.y - b.y)
  }

  /** Squared Euclidean length of a displacement. */
  function Norm2(v: Vec): (r: real)
    ensures r >= 0.0
  {
    SquareSign(v.x);
    SquareSign(v.y);
    v.x * v.x + v.y * v.y
  }

  /** Squared Euclidean distance between two points. */
  function Dist2(a: Vec, b: Vec): (r: real)
    ensures r >= 0.0
    ensures a == b ==> r == 0.0
  {
    Norm2(Minus(a, b))
  }

  /** A square is never negative. */
  lemma SquareSign(t: real)
    ensures t * t >= 0.0
  {
    if t > 0.0 {
      ProductPositive(t, t);
    } else if t < 0.0 {
      ProductPositive(-t, -t);
      assert (-t) * (-t) == t * t;
    }
  }

  /** Shifting both points by the same displacement keeps their distance. */
  lemma Dist2Translate(a: Vec, b: Vec, d: Vec)
    ensures Dist2(Minus(a, d), Minus(b, d)) == Dist2(a, b)
  {
    assert Minus(Minus(a, d), Minus(b, d)) == Minus(a, b);
  }

  /** A point moved back by `d` lies at distance |d| from where it was. */
  lemma Dist2OfDisplacement(p: Vec, d: Vec)
    ensures Dist2(Minus(p, d), p) == Norm2(d)
  {
    assert Minus(Minus(p, d), p) == Vec(-d.x, -d.y);
    Norm2Negate(d);
  }

  lemma Norm2Negate(v: Vec)
    ensures Norm2(Vec(-v.x, -v.y)) == Norm2(v)
  {
    NegatedSquare(v.x);
    NegatedSquare(v.y);
  }

  lemma NegatedSquare(t: real)
    ensures (-t) * (-t) == t * t
  {
  }

  /**
   * For non-negative numbers, comparing the numbers and comparing their
   * squares agree: `len <= radius` exactly when `len² <= radius²`.
   */
  lemma SquaresOrderedLe(len: real, radius: real)
    requires len >= 0.0 && radius >= 0.0
    ensures len <= radius <==> len * len <= radius * radius
  {
    if len <= radius {
      ProductsOrderedLe(len, radius, len, radius);
    } else {
      ProductsOrderedLt(radius, len, radius, len);
    }
  }

  /** The strict form: `len < radius` exactly when `len² < radius²`. */
  lemma SquaresOrderedLt(len: real, radius: real)
    requires len >= 0.0 && radius >= 0.0
    ensures len < radius <==> len * len < radius * radius
  {
    if len < radius {
      ProductsOrderedLt(len, radius, len, radius);
    } else {
      ProductsOrderedLe(radius, len, radius, len);
    }
  }

  lemma ProductsOrderedLe(a: real, b: real, c: real, d: real)
    requires 0.0 <= a <= b && 0.0 <= c <= d
    ensures a * c <= b * d
  {
    ScaleLe(a, b, c);
    ScaleLe(c, d, b);
  }

  lemma ProductsOrderedLt(a: real, b: real, c: real, d: real)
    requires 0.0 <= a < b && 0.0 <= c < d
    ensures a * c < b * d
  {
    ScaleLe(a, b, c);
    ScaleLt(c, d, b);
  }

  /** Multiplying by a non-negative factor keeps `<=`. */
  lemma ScaleLe(a: real, b: real, c: real)
    requires a <= b && c >= 0.0
    ensures a * c <= c * b
  {
    assert c * b - a * c == (b - a) * c;
    ProductNonNegative(b - a, c);
  }

  /** Multiplying by a positive factor keeps `<`. */
  lemma ScaleLt(a: real, b: real, c: real)
    requires a < b && c > 0.0
    ensures a * c < c * b
  {
    assert c * b - a * c == (b - a) * c;
    ProductPositive(b - a, c);
  }

  lemma ProductNonNegative(a: real, b: real)
    requires a >= 0.0 && b >= 0.0
    ensures a * b >= 0.0
  {
  }

  lemma ProductPositive(a: real, b: real)
    requires a > 0.0 && b > 0.0
    ensures a * b > 0.0
  {
  }
}
