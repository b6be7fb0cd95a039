/** The session's value records: the settings captured at game start, the result shown
    after a game, and the summary appended to the history log. Colours, the cursor style
    and the frame latency setting play no part in the session logic and are not carried. */
module Records {

  datatype GameState = NotStarted | Running | Finished

  datatype GameSettings = GameSettings(
    scale: real,
    circleRadiusNorm: real,
    cursorRadiusNorm: real,
    circleLifetimeMs: int,
    gameTimeSec: int,
    distanceRatio: real,
    minSpawnDelayMs: int,
    maxSpawnDelayMs: int,
    endBySpawnCount: bool,
    maxSpawnCount: int)

  /** The field initialisers of `GameSettings`. */
  const DefaultSettings := GameSettings(0.9, 0.112, 0.015, 250, 60, 0.2, 0, 0, false, 0)

  datatype GameResult = GameResult(
    settings: GameSettings,
    hits: int,
    attempts: int,
    accuracy: real,
    avgReactionTime: real,
    score: real,
    scoreHistory: seq<int>,
    reactionTimes: seq<int>)

  const EmptyResult := GameResult(DefaultSettings, 0, 0, 0.0, 0.0, 0.0, [], [])

  /** One line of the history log. `timestamp` is the wall-clock time of the finish, an
      opaque input here. */
  datatype GameSummary = GameSummary(
    circleRadiusNorm: real,
    cursorRadiusNorm: real,
    circleLifetimeMs: int,
    gameTimeSec: int,
    endBySpawnCount: bool,
    maxSpawnCount: int,
    minSpawnDelayMs: int,
    maxSpawnDelayMs: int,
    hits: int,
    avgReactionTime: real,
    score: real,
    timestamp: int)

  /** The summary built from a finished game's result. */
  function SummaryOf(r: GameResult, timestamp: int): GameSummary
  {
    GameSummary(r.settings.circleRadiusNorm, r.settings.cursorRadiusNorm,
                r.settings.circleLifetimeMs, r.settings.gameTimeSec,
                r.settings.endBySpawnCount, r.settings.maxSpawnCount,
                r.settings.minSpawnDelayMs, r.settings.maxSpawnDelayMs,
                r.hits, r.avgReactionTime, r.score, timestamp)
  }
}
