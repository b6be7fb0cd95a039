/** Random choices of the session engine: the spawn delay (`randomInt`) and the target
    placement (`SpawnCircle`'s rejection loop), with the random generators injected.

    The source draws from two Mersenne-Twister generators: one local to `randomInt`
    (delays) and one shared by the placement code. Here each is an infinite stream
    (`nat -> ...`) read at a cursor that the caller advances. */
module Sampling {
  import opened Geometry

  /** The placement loop gives up after this many candidates. */
  const MaxAttempts: nat := 50

  function MinInt(a: int, b: int): int { if a <= b then a else b }

  function MaxInt(a: int, b: int): int { if a >= b then a else b }

  /** `randomInt(min, max)`: reversed bounds are swapped, never rejected, and the value
      is drawn from the closed range. `draw` is the generator's raw output. */
  function RandomInt(lo: int, hi: int, draw: nat): (r: int)
    ensures MinInt(lo, hi) <= r <= MaxInt(lo, hi)
  {
    var (a, b) := if lo > hi then (hi, lo) else (lo, hi);
    a + draw % (b - a + 1)
  }

  /** Every value of the range can be drawn: the range is exactly [min, max]. */
  lemma RandomIntCoversRange(lo: int, hi: int, v: int)
    requires MinInt(lo, hi) <= v <= MaxInt(lo, hi)
    ensures RandomInt(lo, hi, v - MinInt(lo, hi)) == v
  {
    var width := MaxInt(lo, hi) - MinInt(lo, hi) + 1;
    assert (v - MinInt(lo, hi)) % width == v - MinInt(lo, hi);
  }

  /** Swapping the bounds changes nothing. */
  lemma RandomIntSymmetric(lo: int, hi: int, draw: nat)
    ensures RandomInt(lo, hi, draw) == RandomInt(hi, lo, draw)
  {
  }

  /** A point of the closed unit disc: the source's `(r cos t, r sin t)` with
      `r = sqrt(u)`, u uniform in [0, 1], t uniform in [0, 2*pi). The trigonometry and the
      square root stay in the injected stream. */
  datatype Offset = Offset(dx: real, dy: real)

  type UnitOffset = o: Offset | o.dx * o.dx + o.dy * o.dy <= 1.0
    witness Offset(0.0, 0.0)

  /** `center + a * r * (cos t, sin t)`. */
  function Candidate(center: Point, a: real, o: UnitOffset): Point
  {
    Point(center.x + a * o.dx, center.y + a * o.dy)
  }

  /** Every candidate lies in the disc of radius `a` around the centre. */
  lemma CandidateInDisc(center: Point, a: real, o: UnitOffset)
    ensures Within(Candidate(center, a, o), center, a)
  {
    var c := Candidate(center, a, o);
    calc {
      DistSq(c, center);
      (a * o.dx) * (a * o.dx) + (a * o.dy) * (a * o.dy);
      (a * a) * (o.dx * o.dx + o.dy * o.dy);
    }
    SquareNonNegative(a);
    assert (a * a) * (o.dx * o.dx + o.dy * o.dy) <= (a * a) * 1.0;
  }

  /** `max(0, (fieldSize - 2R) * distanceRatio)`: the required gap to the previous target. */
  function MinDistance(fieldSize: real, radius: real, distanceRatio: real): (d: real)
    ensures d >= 0.0
    ensures d >= (fieldSize - 2.0 * radius) * distanceRatio
    ensures d == 0.0 || d == (fieldSize - 2.0 * radius) * distanceRatio
  {
    Max(0.0, (fieldSize - 2.0 * radius) * distanceRatio)
  }

  /** The candidate drawn at stream position `k`. */
  function CandidateAt(center: Point, a: real, source: nat -> UnitOffset, k: nat): Point
  {
    Candidate(center, a, source(k))
  }

  /** The rejection loop of `SpawnCircle` (reached only with a positive spawn radius `a`).
      It draws candidates from `source` starting at position `next`; unless this is the
      session's first target it retries while the candidate is closer than `minDistance`
      to `last` and fewer than `MaxAttempts` were drawn. `drawn` is how many it drew.
      As in the source, reaching the attempt bound falls back to the centre even when the
      candidate drawn last was acceptable. */
  method SamplePosition(center: Point, a: real, minDistance: real, first: bool, last: Point,
                        source: nat -> UnitOffset, next: nat)
    returns (p: Point, drawn: nat)
    ensures 1 <= drawn <= MaxAttempts
    ensures first ==> drawn == 1
    ensures forall j :: next <= j < next + drawn - 1 ==> Closer(CandidateAt(center, a, source, j), last, minDistance)
    ensures drawn < MaxAttempts ==> first || !Closer(CandidateAt(center, a, source, next + drawn - 1), last, minDistance)
    ensures p == if drawn >= MaxAttempts then center else CandidateAt(center, a, source, next + drawn - 1)
    ensures Within(p, center, a)
    ensures !first ==> p == center || !Closer(p, last, minDistance)
  {
    var candidate := CandidateAt(center, a, source, next);
    drawn := 1;
    while !first && drawn < MaxAttempts && Closer(candidate, last, minDistance)
      invariant 1 <= drawn <= MaxAttempts
      invariant first ==> drawn == 1
      invariant candidate == CandidateAt(center, a, source, next + drawn - 1)
      invariant forall j :: next <= j < next + drawn - 1 ==> Closer(CandidateAt(center, a, source, j), last, minDistance)
      decreases MaxAttempts - drawn
    {
      candidate := CandidateAt(center, a, source, next + drawn);
      drawn := drawn + 1;
    }
    p := if drawn >= MaxAttempts then center else candidate;
    if drawn < MaxAttempts {
      CandidateInDisc(center, a, source(next + drawn - 1));
    } else {
      SquareNonNegative(a);
    }
  }

  /** Fifty rejected-then-acceptable draws: when the first 49 candidates are too close and
      the 50th keeps the gap, the loop still returns the centre. */
  lemma FiftiethCandidateDiscarded(center: Point, a: real, minDistance: real, last: Point,
                                   source: nat -> UnitOffset, next: nat, p: Point, drawn: nat)
    requires forall j :: next <= j < next + MaxAttempts - 1 ==> Closer(CandidateAt(center, a, source, j), last, minDistance)
    requires forall j :: next <= j < next + drawn - 1 ==> Closer(CandidateAt(center, a, source, j), last, minDistance)
    requires 1 <= drawn <= MaxAttempts
    requires drawn < MaxAttempts ==> !Closer(CandidateAt(center, a, source, next + drawn - 1), last, minDistance)
    requires p == if drawn >= MaxAttempts then center else CandidateAt(center, a, source, next + drawn - 1)
    ensures drawn == MaxAttempts && p == center
  {
  }
}
