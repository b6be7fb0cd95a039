/** The statistics computed when a session finishes: accuracy, average reaction time and
    score. The square root of the count-mode score is injected (`root`); the model only
    uses that it is zero at zero and, where stated, that it is monotone. */
module Scoring {
  import opened Records

  /** Sum of a list, accumulated from the front as the source's loop does. */
  function Sum(s: seq<int>): int
  {
    if s == [] then 0 else Sum(s[..|s| - 1]) + s[|s| - 1]
  }

  /** The sum loop of the finalisation step. */
  method SumReactionTimes(reactionTimes: seq<int>) returns (sum: int)
    ensures sum == Sum(reactionTimes)
  {
    sum := 0;
    var i := 0;
    while i < |reactionTimes|
      invariant 0 <= i <= |reactionTimes|
      invariant sum == Sum(reactionTimes[..i])
    {
      assert reactionTimes[..i + 1][..i] == reactionTimes[..i];
      sum := sum + reactionTimes[i];
      i := i + 1;
    }
    assert reactionTimes[..i] == reactionTimes;
  }

  /** Average reaction time, defined as 0 for an empty list. */
  function AverageReactionTime(reactionTimes: seq<int>): real
  {
    if reactionTimes == [] then 0.0 else Sum(reactionTimes) as real / |reactionTimes| as real
  }

  /** The average is the mean: times the count it gives back the total. */
  lemma AverageIsMean(reactionTimes: seq<int>)
    ensures reactionTimes == [] ==> AverageReactionTime(reactionTimes) == 0.0
    ensures reactionTimes != [] ==>
      AverageReactionTime(reactionTimes) * |reactionTimes| as real == Sum(reactionTimes) as real
  {
  }

  /** The average of the list and the finalisation's loop-and-divide agree. */
  method ComputeAverageReactionTime(reactionTimes: seq<int>) returns (avg: real)
    ensures avg == AverageReactionTime(reactionTimes)
  {
    avg := 0.0;
    if |reactionTimes| > 0 {
      var sum := SumReactionTimes(reactionTimes);
      avg := sum as real / |reactionTimes| as real;
    }
  }

  /** Bounds carry over from the elements to the sum. */
  lemma {:induction false} SumBounds(s: seq<int>, lo: int, hi: int)
    requires forall i :: 0 <= i < |s| ==> lo <= s[i] <= hi
    ensures |s| * lo <= Sum(s) <= |s| * hi
  {
    if s != [] {
      SumBounds(s[..|s| - 1], lo, hi);
    }
  }

  /** The average lies between the smallest and the largest reaction time: in particular
      it is non-negative when every reaction time is. */
  lemma AverageBetweenBounds(reactionTimes: seq<int>, lo: int, hi: int)
    requires reactionTimes != []
    requires forall i :: 0 <= i < |reactionTimes| ==> lo <= reactionTimes[i] <= hi
    ensures lo as real <= AverageReactionTime(reactionTimes) <= hi as real
  {
    SumBounds(reactionTimes, lo, hi);
    var n := |reactionTimes| as real;
    var avg := AverageReactionTime(reactionTimes);
    AverageIsMean(reactionTimes);
    PositiveFactor(avg - lo as real, n);
    PositiveFactor(hi as real - avg, n);
  }

  /** A product with a positive factor is non-negative only if the other factor is. */
  lemma PositiveFactor(x: real, n: real)
    requires n > 0.0 && x * n >= 0.0
    ensures x >= 0.0
  {
  }

  /** `100 * hits / attempts`, or 0 when nothing was attempted. */
  function Accuracy(hits: int, attempts: int): real
  {
    if attempts > 0 then 100.0 * hits as real / attempts as real else 0.0
  }

  /** Accuracy is the percentage of attempts that hit: 0 with no attempts, within
      [0, 100] when the hits are among the attempts, and 100 when every attempt hit. */
  lemma AccuracyIsPercentage(hits: int, attempts: int)
    ensures attempts <= 0 ==> Accuracy(hits, attempts) == 0.0
    ensures attempts > 0 ==> Accuracy(hits, attempts) * attempts as real == 100.0 * hits as real
    ensures 0 <= hits <= attempts ==> 0.0 <= Accuracy(hits, attempts) <= 100.0
    ensures 0 < hits == attempts ==> Accuracy(hits, attempts) == 100.0
  {
    if attempts > 0 {
      var n := attempts as real;
      var accuracy := Accuracy(hits, attempts);
      assert accuracy * n == 100.0 * hits as real;
      if 0 <= hits {
        PositiveFactor(accuracy, n);
      }
      if hits <= attempts {
        assert (100.0 - accuracy) * n == 100.0 * (attempts - hits) as real;
        PositiveFactor(100.0 - accuracy, n);
      }
    }
  }

  /** The targets of a count-mode game that were not hit, floored at zero. */
  function Shortfall(settings: GameSettings, hits: int): nat
  {
    if settings.maxSpawnCount - hits > 0 then settings.maxSpawnCount - hits else 0
  }

  /** The final score: lower is better in count mode (missed targets cost 100 times their
      square root, plus the average reaction time), higher is better in time mode (hits). */
  function Score(settings: GameSettings, hits: int, avgReactionTime: real, root: nat -> real): real
  {
    if settings.endBySpawnCount then root(Shortfall(settings, hits)) * 100.0 + avgReactionTime
    else hits as real
  }

  /** Time mode scores the hits. */
  lemma TimeModeScoresHits(settings: GameSettings, hits: int, avg: real, root: nat -> real)
    requires !settings.endBySpawnCount
    ensures Score(settings, hits, avg, root) == hits as real
  {
  }

  /** Count mode with every target hit scores the average reaction time alone. */
  lemma CountModeAllHitScoresAverage(settings: GameSettings, hits: int, avg: real, root: nat -> real)
    requires settings.endBySpawnCount && root(0) == 0.0
    requires hits >= settings.maxSpawnCount
    ensures Score(settings, hits, avg, root) == avg
  {
  }

  /** In count mode, with a monotone root, more hits at the same average never give a
      worse (higher) score. */
  lemma CountModeMoreHitsNoWorse(settings: GameSettings, fewer: int, more: int, avg: real, root: nat -> real)
    requires settings.endBySpawnCount
    requires forall m: nat, n: nat :: m <= n ==> root(m) <= root(n)
    requires fewer <= more
    ensures Score(settings, more, avg, root) <= Score(settings, fewer, avg, root)
  {
    assert Shortfall(settings, more) <= Shortfall(settings, fewer);
  }
}
