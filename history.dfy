/** The selection of past summaries comparable with the last game, made each time the
    results window is drawn. */
module History {
  import opened Records

  /** Tolerance for the two radius fractions, which are floats read back from text. */
  const Eps: real := 0.001

  function Abs(x: real): real { if x < 0.0 then -x else x }

  /** A summary matches the settings when the radii agree within `Eps`, the lifetime,
      game time, delays and end condition are equal, and (in count mode only) so is the
      target count. */
  predicate SameSettings(s: GameSummary, g: GameSettings)
  {
    && Abs(s.circleRadiusNorm - g.circleRadiusNorm) < Eps
    && Abs(s.cursorRadiusNorm - g.cursorRadiusNorm) < Eps
    && s.circleLifetimeMs == g.circleLifetimeMs
    && s.gameTimeSec == g.gameTimeSec
    && s.minSpawnDelayMs == g.minSpawnDelayMs
    && s.maxSpawnDelayMs == g.maxSpawnDelayMs
    && s.endBySpawnCount == g.endBySpawnCount
    && (!s.endBySpawnCount || s.maxSpawnCount == g.maxSpawnCount)
  }

  /** The matching summaries, in log order. */
  function Matching(all: seq<GameSummary>, g: GameSettings): seq<GameSummary>
  {
    if all == [] then []
    else
      var rest := Matching(all[..|all| - 1], g);
      if SameSettings(all[|all| - 1], g) then rest + [all[|all| - 1]] else rest
  }

  /** The filter loop that refills the list of current-setting summaries. */
  method FilterSummaries(all: seq<GameSummary>, g: GameSettings) returns (current: seq<GameSummary>)
    ensures current == Matching(all, g)
  {
    current := [];
    var i := 0;
    while i < |all|
      invariant 0 <= i <= |all|
      invariant current == Matching(all[..i], g)
    {
      assert all[..i + 1][..i] == all[..i];
      if SameSettings(all[i], g) {
        current := current + [all[i]];
      }
      i := i + 1;
    }
    assert all[..i] == all;
  }

  /** A summary is selected exactly when it is in the log and matches. */
  lemma {:induction false} MatchingExactly(all: seq<GameSummary>, g: GameSettings, s: GameSummary)
    ensures s in Matching(all, g) <==> s in all && SameSettings(s, g)
  {
    if all != [] {
      MatchingExactly(all[..|all| - 1], g, s);
      assert all == all[..|all| - 1] + [all[|all| - 1]];
    }
  }

  /** The selection never grows the log, and an appended summary is selected after the
      earlier ones exactly when it matches. */
  lemma {:induction false} MatchingAppend(all: seq<GameSummary>, s: GameSummary, g: GameSettings)
    ensures Matching(all + [s], g) == if SameSettings(s, g) then Matching(all, g) + [s] else Matching(all, g)
    ensures |Matching(all, g)| <= |all|
  {
    assert (all + [s])[..|all|] == all;
    if all != [] {
      MatchingAppend(all[..|all| - 1], all[|all| - 1], g);
      assert all[..|all| - 1] + [all[|all| - 1]] == all;
    }
  }

  /** The count-mode target count is ignored for time-mode summaries. */
  lemma TimeModeIgnoresTargetCount(s: GameSummary, g: GameSettings, n: int)
    requires !s.endBySpawnCount
    ensures SameSettings(s, g) == SameSettings(s, g.(maxSpawnCount := n))
  {
  }
}
