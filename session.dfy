/** The aim-trainer session engine: the game state, one tick per frame, the start and
    reset of a game, the target spawn and the click judging.

    The source keeps this state in globals (and, for the "last circle" latch and the
    force-finish request, in locals of the frame loop); here it is the fields of one
    `Session` object. The clock is the `nowMs` of each frame, the random generators are
    injected streams read at a cursor, and the square root of the count-mode score is the
    injected `root`. */
module Session {
  import opened Wrappers
  import opened Geometry
  import opened Records
  import opened Sampling
  import opened Scoring
  import Renderer
  import Audio

  /** C++ division of integers, which truncates toward zero. */
  function TruncDiv(a: int, b: int): int
    requires b > 0
  {
    if a >= 0 then a / b else -((-a) / b)
  }

  /** `n` copies of `v` (none when `n` is not positive). */
  function Repeat(v: int, n: int): (r: seq<int>)
    ensures |r| == if n > 0 then n else 0
    ensures forall i :: 0 <= i < |r| ==> r[i] == v
  {
    if n <= 0 then [] else Repeat(v, n - 1) + [v]
  }

  /** The per-second backfill loop: one copy of the current hit count for every whole
      second from `lastSecond + 1` to `elapsedSec`. */
  method AppendSamples(history: seq<int>, hits: int, lastSecond: int, elapsedSec: int) returns (h: seq<int>)
    ensures h == history + Repeat(hits, elapsedSec - lastSecond)
  {
    h := history;
    var s := lastSecond + 1;
    while s <= elapsedSec
      invariant lastSecond + 1 <= s <= MaxInt(elapsedSec + 1, lastSecond + 1)
      invariant h == history + Repeat(hits, s - lastSecond - 1)
    {
      h := h + [hits];
      s := s + 1;
    }
  }

  /** The end conditions of a session: a forced finish, the target count reached in count
      mode, or the game time reached in time mode. */
  predicate EndReached(settings: GameSettings, spawnCount: int, elapsedMs: int, forceFinish: bool)
  {
    || forceFinish
    || (settings.endBySpawnCount && spawnCount >= settings.maxSpawnCount)
    || (!settings.endBySpawnCount && elapsedMs >= settings.gameTimeSec * 1000)
  }

  /** `R + Cr`: a click hits when the cursor disc touches the target disc. */
  function HitRadius(field: Renderer.FieldCache): real
  {
    field.circleRadiusPx + field.cursorRadiusPx
  }

  /** The required gap to the previous target under the live settings. */
  function SpawnGap(field: Renderer.FieldCache, distanceRatio: real): real
  {
    MinDistance(field.fieldSize, field.circleRadiusPx, distanceRatio)
  }

  /** One frame's input: the clock, the R and E keys, the left click (when it reached the
      game rather than the user interface) with the cursor position, and the wall-clock
      time stamped on a summary. */
  datatype FrameInput = FrameInput(nowMs: int, resetPressed: bool, finishPressed: bool,
                                   click: Option<Point>, timestamp: int)

  /** The result of a finished game: the captured settings, the counters, accuracy, the
      average reaction time, the score, the per-second history and the reaction times. */
  function ResultOf(settings: GameSettings, hits: int, attempts: int, history: seq<int>,
                    reactionTimes: seq<int>, root: nat -> real): GameResult
  {
    var avg := AverageReactionTime(reactionTimes);
    GameResult(settings, hits, attempts, Accuracy(hits, attempts), avg,
               Score(settings, hits, avg, root), history, reactionTimes)
  }

  /** The globals of the game loop: the game state, the clock marks, the current and the
      previous target, the counters, the per-second history, the reaction times, the
      spawn schedule, the "last circle" latch and the finish request (locals of the loop in
      the source), the settings captured at the start, the last result, the history log,
      and how many values each random generator has produced. */
  datatype SessionState = SessionState(
    state: GameState,
    gameStartTimeMs: int,
    circleSpawnTimeMs: int,
    circlePos: Point,
    hits: int,
    attempts: int,
    spawnCount: int,
    lastCirclePos: Point,
    firstCircle: bool,
    scoreHistory: seq<int>,
    lastSampleSecond: int,
    reactionTimes: seq<int>,
    lastReactionTime: int,
    isCircleActive: bool,
    isLastCircle: bool,
    nextSpawnTimeMs: int,
    forceFinish: bool,
    showResults: bool,
    startSettings: GameSettings,
    lastResult: GameResult,
    summaries: seq<GameSummary>,
    delayDraws: nat,
    pointDraws: nat)
  {
    /** Hits never exceed attempts, one reaction time per hit, one score sample per
        elapsed second since the start, every hit consumed a distinct spawned target, the
        count-mode spawn bound, and an active target or a finish request only while
        running. */
    predicate Valid()
    {
      && 0 <= hits <= attempts
      && |reactionTimes| == hits
      && 0 <= spawnCount
      && (state == NotStarted ==> hits == 0 && attempts == 0 && spawnCount == 0 && !isLastCircle)
      && (state != NotStarted ==>
            && 0 <= lastSampleSecond && |scoreHistory| == lastSampleSecond + 1
            && hits + (if isCircleActive then 1 else 0) <= spawnCount)
      && (startSettings.endBySpawnCount ==> spawnCount <= MaxInt(0, startSettings.maxSpawnCount))
      && (isCircleActive ==> state == Running)
      && (forceFinish ==> state == Running)
    }
  }

  /** The globals' initial values, with the history log loaded at start-up. */
  function InitialState(loaded: seq<GameSummary>): SessionState
  {
    SessionState(NotStarted, 0, 0, Point(0.0, 0.0), 0, 0, 0, Point(0.0, 0.0), true, [], 0, [], 0,
                 false, false, 0, false, false, DefaultSettings, EmptyResult, loaded, 0, 0)
  }

  /** What `SpawnCircle` leaves, from `o` to `n`, at time `now` with the field in effect,
      the live distance ratio and the placement stream `source`. With no room to place
      (spawn radius not positive) the target goes to the centre and nothing else but the
      spawn time changes. Otherwise the rejection loop drew `n.pointDraws - o.pointDraws`
      candidates (1 to 50, exactly 1 for the first target), every one before the last was
      too close to the previous target, the last is kept unless 50 were drawn (then the
      centre), and it becomes the previous position. */
  ghost predicate Placed(o: SessionState, n: SessionState, field: Renderer.FieldCache, distanceRatio: real,
                         now: int, source: nat -> UnitOffset)
  {
    var center, a, gap := field.center, field.spawnMaxRadius, SpawnGap(field, distanceRatio);
    && (a <= 0.0 ==> n == o.(circlePos := center, circleSpawnTimeMs := now))
    && (a > 0.0 ==>
          var drawn := n.pointDraws - o.pointDraws;
          && n == o.(circlePos := n.circlePos, circleSpawnTimeMs := now, lastCirclePos := n.circlePos,
                     firstCircle := false, pointDraws := n.pointDraws)
          && 1 <= drawn <= MaxAttempts
          && (o.firstCircle ==> drawn == 1)
          && (forall j :: o.pointDraws <= j < n.pointDraws - 1 ==> Closer(CandidateAt(center, a, source, j), o.lastCirclePos, gap))
          && (drawn < MaxAttempts ==> o.firstCircle || !Closer(CandidateAt(center, a, source, n.pointDraws - 1), o.lastCirclePos, gap))
          && n.circlePos == if drawn >= MaxAttempts then center else CandidateAt(center, a, source, n.pointDraws - 1))
  }

  /** A placed target lies within the spawn radius of the centre, and unless it is the
      first one it is at the centre or at least the required gap from the previous one. */
  lemma PlacedWithinAndApart(o: SessionState, n: SessionState, field: Renderer.FieldCache, distanceRatio: real,
                             now: int, source: nat -> UnitOffset)
    requires Placed(o, n, field, distanceRatio, now, source)
    ensures Within(n.circlePos, field.center, field.spawnMaxRadius)
    ensures field.spawnMaxRadius > 0.0 && !o.firstCircle ==>
      n.circlePos == field.center || !Closer(n.circlePos, o.lastCirclePos, SpawnGap(field, distanceRatio))
  {
    var a := field.spawnMaxRadius;
    SquareNonNegative(a);
    if a > 0.0 && n.pointDraws - o.pointDraws < MaxAttempts {
      CandidateInDisc(field.center, a, source(n.pointDraws - 1));
    }
  }

  /** The state `ResetGame` leaves: counters, target, latch, history and reaction times
      cleared and the game back to not started; the sample second, the captured settings,
      the last result, the log and the generators' cursors are kept. With the finish
      request cleared too, as the R key does, the invariant holds again whatever the
      state before. */
  function Reset(o: SessionState): (n: SessionState)
    ensures n.state == NotStarted && n.hits == 0 && n.attempts == 0 && n.spawnCount == 0
    ensures n.scoreHistory == [] && n.reactionTimes == [] && !n.isCircleActive && !n.isLastCircle
    ensures n.(forceFinish := false).Valid()
  {
    o.(hits := 0, attempts := 0, spawnCount := 0, state := NotStarted,
       showResults := false, firstCircle := true, lastCirclePos := Point(0.0, 0.0),
       isCircleActive := false, isLastCircle := false, nextSpawnTimeMs := 0,
       scoreHistory := [], reactionTimes := [], lastReactionTime := 0)
  }

  /** The state `StartGame` leaves at time `now` with the live settings, `draw` being the
      delay generator's next value: running from `now` with the settings captured, the
      history seeded with one sample of 0, no target, the latch clear, and the first
      spawn a random delay after the start. */
  function Started(o: SessionState, now: int, live: GameSettings, draw: nat): (n: SessionState)
    ensures n.state == Running && n.gameStartTimeMs == now && n.startSettings == live
    ensures n.scoreHistory == [0] && n.lastSampleSecond == 0 && !n.isCircleActive && !n.isLastCircle
    ensures now + MinInt(live.minSpawnDelayMs, live.maxSpawnDelayMs) <= n.nextSpawnTimeMs
              <= now + MaxInt(live.minSpawnDelayMs, live.maxSpawnDelayMs)
    ensures n.delayDraws == o.delayDraws + 1
  {
    o.(state := Running, gameStartTimeMs := now, scoreHistory := [0], lastSampleSecond := 0,
       spawnCount := 0, isLastCircle := false, startSettings := live, isCircleActive := false,
       nextSpawnTimeMs := now + RandomInt(live.minSpawnDelayMs, live.maxSpawnDelayMs, draw),
       delayDraws := o.delayDraws + 1, showResults := false)
  }

  /** A click at `p` hits: a target is up and the click lies within `R + Cr` of it. */
  predicate IsHit(o: SessionState, p: Point, field: Renderer.FieldCache)
  {
    o.isCircleActive && Within(p, o.circlePos, HitRadius(field))
  }

  /** The state a click at `p` at time `now` leaves during a game, `draw` being the delay
      generator's next value: one more attempt; on a hit one more hit, its reaction time
      logged, the target removed and, unless the latch is set, the next spawn scheduled
      a random delay from now. */
  function Judged(o: SessionState, p: Point, now: int, field: Renderer.FieldCache, draw: nat): (n: SessionState)
    ensures n.attempts == o.attempts + 1
    ensures n.hits == o.hits + (if IsHit(o, p, field) then 1 else 0)
    ensures n.reactionTimes == o.reactionTimes + (if IsHit(o, p, field) then [now - o.circleSpawnTimeMs] else [])
    ensures n.isCircleActive == (o.isCircleActive && !IsHit(o, p, field))
    ensures !IsHit(o, p, field) || o.isLastCircle ==> n.nextSpawnTimeMs == o.nextSpawnTimeMs && n.delayDraws == o.delayDraws
    ensures n.state == o.state && n.circleSpawnTimeMs == o.circleSpawnTimeMs
  {
    if !IsHit(o, p, field) then o.(attempts := o.attempts + 1)
    else
      var reactionTime := now - o.circleSpawnTimeMs;
      o.(hits := o.hits + 1, attempts := o.attempts + 1, lastReactionTime := reactionTime,
         reactionTimes := o.reactionTimes + [reactionTime], isCircleActive := false,
         nextSpawnTimeMs := if o.isLastCircle then o.nextSpawnTimeMs
                            else now + RandomInt(o.startSettings.minSpawnDelayMs, o.startSettings.maxSpawnDelayMs, draw),
         delayDraws := if o.isLastCircle then o.delayDraws else o.delayDraws + 1)
  }

  /** Judging a click keeps the running state's invariant. */
  lemma JudgedKeepsValid(o: SessionState, p: Point, now: int, field: Renderer.FieldCache, draw: nat)
    requires o.Valid() && o.state == Running
    ensures Judged(o, p, now, field, draw).Valid() && Judged(o, p, now, field, draw).state == Running
  {
  }

  /** The game session. `s` holds the loop's globals; the random generators and the square
      root are fixed for the object's lifetime. */
  class Session {
    var s: SessionState
    /** The delay generator's outputs, read at `s.delayDraws`. */
    const delaySource: nat -> nat
    /** The placement generator's unit-disc points, read at `s.pointDraws`. */
    const pointSource: nat -> UnitOffset
    /** The square root used by the count-mode score. */
    const root: nat -> real

    /** The state invariant, and a finished game shows the result of its own counters. */
    ghost predicate Valid()
      reads this
    {
      && s.Valid()
      && (s.state == Finished ==>
            s.showResults && s.lastResult == ResultOf(s.startSettings, s.hits, s.attempts, s.scoreHistory, s.reactionTimes, root))
    }

    constructor (delaySource: nat -> nat, pointSource: nat -> UnitOffset, root: nat -> real,
                 loaded: seq<GameSummary>)
      ensures Valid()
      ensures s == InitialState(loaded)
      ensures this.delaySource == delaySource && this.pointSource == pointSource && this.root == root
    {
      s := InitialState(loaded);
      this.delaySource, this.pointSource, this.root := delaySource, pointSource, root;
    }

    /** `ResetGame` (the R key): counters, target and latch cleared, back to not started.
        The sample second, the captured settings, the last result and the history are
        kept. */
    method ResetGame()
      modifies this`s
      ensures s == Reset(old(s))
    {
      s := s.(hits := 0, attempts := 0, spawnCount := 0, state := NotStarted,
              showResults := false, firstCircle := true, lastCirclePos := Point(0.0, 0.0),
              isCircleActive := false, isLastCircle := false, nextSpawnTimeMs := 0,
              scoreHistory := [], reactionTimes := [], lastReactionTime := 0);
    }

    /** `StartGame`: running from `now` with the live settings captured, the history seeded
        with one sample of 0, no target, the latch clear, and the first spawn scheduled a
        random delay after the start. Hits and attempts are not touched (a game starts
        only from a reset state). */
    method StartGame(now: int, live: GameSettings)
      modifies this`s
      ensures s == Started(old(s), now, live, delaySource(old(s).delayDraws))
    {
      s := s.(state := Running, gameStartTimeMs := now, scoreHistory := [0], lastSampleSecond := 0,
              spawnCount := 0, isLastCircle := false, startSettings := live, isCircleActive := false);
      var delay := RandomInt(live.minSpawnDelayMs, live.maxSpawnDelayMs, delaySource(s.delayDraws));
      s := s.(nextSpawnTimeMs := now + delay, delayDraws := s.delayDraws + 1, showResults := false);
    }

    /** `SpawnCircle` at time `now`, with the field geometry in effect and the live
        distance ratio. With no room to place (spawn radius not positive) the target goes
        to the centre and the previous position and first-target flag are left alone.
        Otherwise the rejection loop picks the position: the first candidate for the first
        target, else the first candidate at least the required gap from the previous
        target, else (after 50 draws) the centre; the position is remembered as the
        previous one. */
    method SpawnCircle(field: Renderer.FieldCache, distanceRatio: real, now: int)
      modifies this`s
      ensures Placed(old(s), s, field, distanceRatio, now, pointSource)
      ensures Within(s.circlePos, field.center, field.spawnMaxRadius)
      ensures field.spawnMaxRadius > 0.0 && !old(s).firstCircle ==>
        s.circlePos == field.center || !Closer(s.circlePos, old(s).lastCirclePos, SpawnGap(field, distanceRatio))
    {
      var center := field.center;
      var a := field.spawnMaxRadius;
      var minDistance := SpawnGap(field, distanceRatio);
      if a <= 0.0 {
        s := s.(circlePos := center, circleSpawnTimeMs := now);
        SquareNonNegative(a);
        return;
      }
      var p, drawn := SamplePosition(center, a, minDistance, s.firstCircle, s.lastCirclePos, pointSource, s.pointDraws);
      s := s.(pointDraws := s.pointDraws + drawn, circlePos := p, circleSpawnTimeMs := now,
              lastCirclePos := p, firstCircle := false);
    }

    /** The per-second backfill: when a new whole second has passed, one sample of the
        current hits for each second crossed, and the sample second advanced. */
    method SampleSeconds(elapsedSec: int)
      requires s.Valid() && s.state == Running
      modifies this`s
      ensures s.Valid() && s.state == Running
      ensures elapsedSec > old(s).lastSampleSecond ==>
        s == old(s).(scoreHistory := old(s).scoreHistory + Repeat(old(s).hits, elapsedSec - old(s).lastSampleSecond),
                     lastSampleSecond := elapsedSec)
      ensures elapsedSec <= old(s).lastSampleSecond ==> s == old(s)
    {
      if elapsedSec > s.lastSampleSecond {
        var history := AppendSamples(s.scoreHistory, s.hits, s.lastSampleSecond, elapsedSec);
        s := s.(scoreHistory := history, lastSampleSecond := elapsedSec);
      }
    }

    /** The latch: set when an end condition holds, never cleared here. */
    method UpdateLatch(elapsedMs: int)
      requires s.Valid() && s.state == Running
      modifies this`s
      ensures s.Valid() && s.state == Running
      ensures s == old(s).(isLastCircle := old(s).isLastCircle || EndReached(old(s).startSettings, old(s).spawnCount, elapsedMs, old(s).forceFinish))
    {
      if !s.isLastCircle {
        if s.forceFinish {
          s := s.(isLastCircle := true);
        } else if s.startSettings.endBySpawnCount && s.spawnCount >= s.startSettings.maxSpawnCount {
          s := s.(isLastCircle := true);
        } else if !s.startSettings.endBySpawnCount && elapsedMs >= s.startSettings.gameTimeSec * 1000 {
          s := s.(isLastCircle := true);
        }
      }
    }

    /** Expiry: an active target at least `circleLifetimeMs` old is removed, and the next
        spawn is scheduled a random delay from now unless the latch is set. */
    method ExpireTarget(now: int)
      requires s.Valid() && s.state == Running
      modifies this`s
      ensures s.Valid() && s.state == Running
      ensures s.isLastCircle == old(s).isLastCircle && s.scoreHistory == old(s).scoreHistory
      ensures s.lastSampleSecond == old(s).lastSampleSecond
      ensures var o := old(s);
        var expired := o.isCircleActive && now - o.circleSpawnTimeMs >= o.startSettings.circleLifetimeMs;
        && (!expired ==> s == o)
        && (expired && o.isLastCircle ==> s == o.(isCircleActive := false))
        && (expired && !o.isLastCircle ==>
              s == o.(isCircleActive := false,
                      nextSpawnTimeMs := now + RandomInt(o.startSettings.minSpawnDelayMs, o.startSettings.maxSpawnDelayMs, delaySource(o.delayDraws)),
                      delayDraws := o.delayDraws + 1))
    {
      if s.isCircleActive {
        var elapsedCircleMs := now - s.circleSpawnTimeMs;
        if elapsedCircleMs >= s.startSettings.circleLifetimeMs {
          s := s.(isCircleActive := false);
          if !s.isLastCircle {
            var delay := RandomInt(s.startSettings.minSpawnDelayMs, s.startSettings.maxSpawnDelayMs, delaySource(s.delayDraws));
            s := s.(nextSpawnTimeMs := now + delay, delayDraws := s.delayDraws + 1);
          }
        }
      }
    }

    /** The spawn gate: with no active target, the latch clear and the scheduled time
        reached, a target is spawned and counted. */
    method MaybeSpawn(now: int, field: Renderer.FieldCache, distanceRatio: real)
      requires s.Valid() && s.state == Running
      requires s.startSettings.endBySpawnCount && !s.isLastCircle ==> s.spawnCount < s.startSettings.maxSpawnCount
      modifies this`s
      ensures s.Valid() && s.state == Running
      ensures var o := old(s);
        var spawned := !o.isCircleActive && !o.isLastCircle && now >= o.nextSpawnTimeMs;
        && (!spawned ==> s == o)
        && (spawned ==>
              && s.isCircleActive && s.spawnCount == o.spawnCount + 1
              && Placed(o, s.(isCircleActive := o.isCircleActive, spawnCount := o.spawnCount), field, distanceRatio, now, pointSource)
              && Within(s.circlePos, field.center, field.spawnMaxRadius)
              && (field.spawnMaxRadius > 0.0 && !o.firstCircle ==>
                    s.circlePos == field.center || !Closer(s.circlePos, o.lastCirclePos, SpawnGap(field, distanceRatio))))
    {
      if !s.isCircleActive && !s.isLastCircle && now >= s.nextSpawnTimeMs {
        SpawnCircle(field, distanceRatio, now);
        s := s.(isCircleActive := true, spawnCount := s.spawnCount + 1);
      }
    }

    /** The finish: once the latch is set and no target is active, the game is finished,
        the history backfilled, the result computed from the captured settings and the
        counters, and its summary appended to the history log unless the finish was
        forced; the finish request is cleared. */
    method FinishGame(elapsedSec: int, timestamp: int)
      requires Valid() && s.state == Running
      modifies this`s
      ensures Valid()
      ensures !(old(s).isLastCircle && !old(s).isCircleActive) ==> s == old(s)
      ensures old(s).isLastCircle && !old(s).isCircleActive ==>
        var o := old(s);
        var history := if elapsedSec > o.lastSampleSecond then o.scoreHistory + Repeat(o.hits, elapsedSec - o.lastSampleSecond) else o.scoreHistory;
        var result := ResultOf(o.startSettings, o.hits, o.attempts, history, o.reactionTimes, root);
        s == o.(state := Finished, scoreHistory := history, lastSampleSecond := MaxInt(o.lastSampleSecond, elapsedSec),
                lastResult := result,
                summaries := o.summaries + (if o.forceFinish then [] else [SummaryOf(result, timestamp)]),
                showResults := true, forceFinish := false)
    {
      if s.isLastCircle && !s.isCircleActive {
        SampleSeconds(elapsedSec);
        s := s.(state := Finished);
        var avg := ComputeAverageReactionTime(s.reactionTimes);
        var finalScore := Score(s.startSettings, s.hits, avg, root);
        var result := GameResult(s.startSettings, s.hits, s.attempts, Accuracy(s.hits, s.attempts), avg,
                                 finalScore, s.scoreHistory, s.reactionTimes);
        var summary := SummaryOf(result, timestamp);
        s := s.(lastResult := result);
        if !s.forceFinish {
          s := s.(summaries := s.summaries + [summary]);
        }
        s := s.(showResults := true, forceFinish := false);
      }
    }

    /** The first part of a tick: backfill the per-second history, update the latch and
        expire the target, scheduling the next spawn unless the latch (as just updated)
        is set. */
    method Advance(now: int)
      requires s.Valid() && s.state == Running
      modifies this`s
      ensures s.Valid() && s.state == Running
      ensures var o := old(s);
        var second := MaxInt(o.lastSampleSecond, TruncDiv(now - o.gameStartTimeMs, 1000));
        var latch := o.isLastCircle || EndReached(o.startSettings, o.spawnCount, now - o.gameStartTimeMs, o.forceFinish);
        var expired := o.isCircleActive && now - o.circleSpawnTimeMs >= o.startSettings.circleLifetimeMs;
        var rescheduled := expired && !latch;
        s == o.(scoreHistory := o.scoreHistory + Repeat(o.hits, second - o.lastSampleSecond),
                lastSampleSecond := second,
                isLastCircle := latch,
                isCircleActive := o.isCircleActive && !expired,
                nextSpawnTimeMs := if rescheduled
                                   then now + RandomInt(o.startSettings.minSpawnDelayMs, o.startSettings.maxSpawnDelayMs, delaySource(o.delayDraws))
                                   else o.nextSpawnTimeMs,
                delayDraws := if rescheduled then o.delayDraws + 1 else o.delayDraws)
    {
      var elapsedGameMs := now - s.gameStartTimeMs;
      SampleSeconds(TruncDiv(elapsedGameMs, 1000));
      UpdateLatch(elapsedGameMs);
      ExpireTarget(now);
    }

    /** One tick of a running game: backfill the per-second history, update the latch,
        expire the target, maybe spawn, maybe finish. The finish's own backfill adds
        nothing, as the tick's first one already reached the elapsed second. */
    method Tick(now: int, field: Renderer.FieldCache, distanceRatio: real, timestamp: int)
      requires Valid() && s.state == Running
      modifies this`s
      ensures Valid()
      ensures var o := old(s);
        && s.lastSampleSecond == MaxInt(o.lastSampleSecond, TruncDiv(now - o.gameStartTimeMs, 1000))
        && s.scoreHistory == o.scoreHistory + Repeat(o.hits, s.lastSampleSecond - o.lastSampleSecond)
        && s.isLastCircle == (o.isLastCircle || EndReached(o.startSettings, o.spawnCount, now - o.gameStartTimeMs, o.forceFinish))
        && o.spawnCount <= s.spawnCount <= o.spawnCount + 1
        && s.hits == o.hits && s.attempts == o.attempts && s.reactionTimes == o.reactionTimes
        && s.state == (if s.isLastCircle && !s.isCircleActive then Finished else Running)
        && (s.state == Finished ==>
              s.summaries == o.summaries + (if o.forceFinish then [] else [SummaryOf(s.lastResult, timestamp)]))
        && (s.state == Running ==> s.summaries == o.summaries && s.forceFinish == o.forceFinish)
    {
      var elapsedSec := TruncDiv(now - s.gameStartTimeMs, 1000);
      Advance(now);
      MaybeSpawn(now, field, distanceRatio);
      FinishGame(elapsedSec, timestamp);
    }

    /** A left click before the start, with the cursor at `p`: a click on the start target
        (the field centre, within `R + Cr`) starts a game with the live settings and
        clears the latch; any other click does nothing. */
    method ClickToStart(p: Point, now: int, field: Renderer.FieldCache, live: GameSettings)
      requires Valid() && s.state == NotStarted
      modifies this`s
      ensures Valid()
      ensures s == if Within(p, field.center, HitRadius(field)) then Started(old(s), now, live, delaySource(old(s).delayDraws))
                   else old(s)
    {
      if Within(p, field.center, HitRadius(field)) {
        StartGame(now, live);
        s := s.(isLastCircle := false);
      }
    }

    /** A left click during a game, with the cursor at `p`: every click is an attempt; a
        click within `R + Cr` of the active target is a hit, which logs its reaction time,
        removes the target and schedules the next spawn a random delay from now unless the
        latch is set. `hit` tells the caller to play the hit sound. */
    method JudgeClick(p: Point, now: int, field: Renderer.FieldCache) returns (hit: bool)
      requires s.Valid() && s.state == Running
      modifies this`s
      ensures s.Valid() && s.state == Running
      ensures hit == IsHit(old(s), p, field)
      ensures s == Judged(old(s), p, now, field, delaySource(old(s).delayDraws))
    {
      JudgedKeepsValid(s, p, now, field, delaySource(s.delayDraws));
      hit := false;
      if s.isCircleActive {
        if Within(p, s.circlePos, HitRadius(field)) {
          hit := true;
          var reactionTime := now - s.circleSpawnTimeMs;
          s := s.(hits := s.hits + 1, attempts := s.attempts + 1, lastReactionTime := reactionTime,
                  reactionTimes := s.reactionTimes + [reactionTime], isCircleActive := false);
          if !s.isLastCircle {
            var delay := RandomInt(s.startSettings.minSpawnDelayMs, s.startSettings.maxSpawnDelayMs, delaySource(s.delayDraws));
            s := s.(nextSpawnTimeMs := now + delay, delayDraws := s.delayDraws + 1);
          }
        } else {
          s := s.(attempts := s.attempts + 1);
        }
      } else {
        s := s.(attempts := s.attempts + 1);
      }
    }

    /** The keys of one frame: R resets the game and clears the latch and the finish
        request; E, while a game runs, requests a finish. */
    method HandleKeys(resetPressed: bool, finishPressed: bool)
      requires Valid()
      modifies this`s
      ensures Valid()
      ensures resetPressed ==> s == Reset(old(s)).(forceFinish := false)
      ensures !resetPressed ==>
        s == old(s).(forceFinish := old(s).forceFinish || (finishPressed && old(s).state == Running))
    {
      if resetPressed {
        ResetGame();
        s := s.(isLastCircle := false, forceFinish := false);
      }
      if finishPressed && s.state == Running {
        s := s.(forceFinish := true);
      }
    }

    /** A left click that reached the game: before the start it may start a game, during
        a game it is judged and a hit plays the hit sound, after the finish it does
        nothing. A click never changes the latch, the finish request, the last result or
        the history log. */
    method HandleClick(p: Point, now: int, field: Renderer.FieldCache, live: GameSettings, audio: Audio.AudioEngine)
      requires Valid() && audio.Valid()
      modifies this`s, audio`nextHitVoiceIndex, audio`played
      ensures Valid() && audio.Valid()
      ensures var o, draw := old(s), delaySource(old(s).delayDraws);
        && (o.state == NotStarted ==>
              s == if Within(p, field.center, HitRadius(field)) then Started(o, now, live, draw) else o)
        && (o.state == Running ==> s == Judged(o, p, now, field, draw))
        && (o.state == Finished ==> s == o)
      ensures var heard := old(s).state == Running && IsHit(old(s), p, field)
                           && old(audio.hitSound.data.Some? && audio.voices[audio.nextHitVoiceIndex]);
        && (heard ==> audio.played == old(audio.played) + [old(audio.nextHitVoiceIndex)]
                      && audio.nextHitVoiceIndex == (old(audio.nextHitVoiceIndex) + 1) % Audio.HitVoiceCount)
        && (!heard ==> audio.played == old(audio.played) && audio.nextHitVoiceIndex == old(audio.nextHitVoiceIndex))
      ensures && s.isLastCircle == old(s).isLastCircle && s.forceFinish == old(s).forceFinish
              && s.lastResult == old(s).lastResult && s.summaries == old(s).summaries
      ensures var o := old(s);
        o.state == Running ==>
          && s.state == Running && s.attempts == o.attempts + 1
          && (s.hits == o.hits || (s.hits == o.hits + 1 && !s.isCircleActive))
          && s.reactionTimes == o.reactionTimes + (if s.hits == o.hits then [] else [now - s.circleSpawnTimeMs])
      ensures audio.played != old(audio.played) ==> old(s).state == Running && s.hits == old(s).hits + 1
    {
      if s.state == NotStarted {
        ClickToStart(p, now, field, live);
      } else if s.state == Running {
        var hit := JudgeClick(p, now, field);
        if hit {
          audio.PlayHitSound();
        }
      }
    }

    /** One rendered frame of the game loop: the keys, then a tick of a running game, then
        the click. `field` is the field cache in effect and `live` the settings as
        currently edited. Across a frame the latch stays set unless reset, the history log
        grows by at most the summary of the game just finished and not at all on a forced
        finish, and without a reset a finished game stays as it is. */
    method Frame(input: FrameInput, field: Renderer.FieldCache, live: GameSettings, audio: Audio.AudioEngine)
      requires Valid() && audio.Valid()
      modifies this`s, audio`nextHitVoiceIndex, audio`played
      ensures Valid() && audio.Valid()
      ensures !input.resetPressed && old(s).isLastCircle ==> s.isLastCircle
      ensures s.summaries == old(s).summaries || s.summaries == old(s).summaries + [SummaryOf(s.lastResult, input.timestamp)]
      ensures old(s).forceFinish || input.finishPressed ==> s.summaries == old(s).summaries
      ensures !input.resetPressed && old(s).state == Finished ==> s == old(s)
      ensures audio.played == old(audio.played) || (input.click.Some? && audio.played == old(audio.played) + [old(audio.nextHitVoiceIndex)])
      ensures audio.played != old(audio.played) ==> s.hits == old(s).hits + 1
      ensures var o := old(s);
        var idle := if input.resetPressed then Reset(o).(forceFinish := false) else o;
        input.resetPressed || o.state == NotStarted ==>
          s == if input.click.Some? && Within(input.click.value, field.center, HitRadius(field))
               then Started(idle, input.nowMs, live, delaySource(o.delayDraws))
               else idle
      ensures var o := old(s);
        !input.resetPressed && o.state == Running && s.state == Running ==>
          && s.attempts == o.attempts + (if input.click.Some? then 1 else 0)
          && (s.hits == o.hits || (input.click.Some? && s.hits == o.hits + 1 && !s.isCircleActive))
          && s.reactionTimes == o.reactionTimes + (if s.hits == o.hits then [] else [input.nowMs - s.circleSpawnTimeMs])
    {
      HandleKeys(input.resetPressed, input.finishPressed);
      if s.state == Running {
        Tick(input.nowMs, field, live.distanceRatio, input.timestamp);
      }
      if input.click.Some? {
        HandleClick(input.click.value, input.nowMs, field, live, audio);
      }
    }
  }
}
