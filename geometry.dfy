/** Plane geometry shared by the field layout, target placement and hit testing.
    Pixel coordinates are modelled as reals (the source uses single-precision floats). */
module Geometry {

  /** A pixel position (ImVec2 in the source). */
  datatype Point = Point(x: real, y: real)

  function Max(a: real, b: real): real { if a >= b then a else b }

  function Min(a: real, b: real): real { if a <= b then a else b }

  /** Squared Euclidean distance. The source compares `distance` (a square root) with a
      non-negative bound, and the hit test compares squared distances directly; both are
      stated here on squared distances. */
  function DistSq(p: Point, q: Point): real
  {
    (p.x - q.x) * (p.x - q.x) + (p.y - q.y) * (p.y - q.y)
  }

  /** `distance(p, q) < bound` for a bound that is at least zero: since the square root
      is monotone, this is the same as comparing the squares. */
  predicate Closer(p: Point, q: Point, bound: real)
  {
    DistSq(p, q) < bound * bound
  }

  /** `dx*dx + dy*dy <= r*r`: the source's hit test (and its idle-start test). */
  predicate Within(p: Point, q: Point, r: real)
  {
    DistSq(p, q) <= r * r
  }

  lemma SquareNonNegative(x: real)
    ensures x * x >= 0.0
  {
  }

  /** A coordinate differs by no more than the distance: from dx*dx + dy*dy <= m*m
      with m >= 0 follows -m <= dx <= m. */
  lemma CoordinateWithin(p: Point, q: Point, m: real)
    requires m >= 0.0 && DistSq(p, q) <= m * m
    ensures -m <= p.x - q.x <= m && -m <= p.y - q.y <= m
  {
    var dx, dy := p.x - q.x, p.y - q.y;
    SquareNonNegative(dx);
    SquareNonNegative(dy);
    SquareBound(dx, m);
    SquareBound(dy, m);
  }

  lemma SquareBound(d: real, m: real)
    requires m >= 0.0 && d * d <= m * m
    ensures -m <= d <= m
  {
    var product := (d - m) * (d + m);
    assert product <= 0.0;
    if d >= 0.0 {
      if d + m > 0.0 {
        assert d - m == product / (d + m);
      }
    } else {
      assert d + m == product / (d - m);
    }
  }
}
