# Flicks aim-trainer core in Dafny

This project models the logic of the Flicks aim trainer with the Windows, Direct3D and
XAudio2 calls removed, and proves properties of that model. It covers three parts.

**The session engine** (`session.dfy`, `sampling.dfy`, `scoring.dfy`, `history.dfy`, `mouse.dfy`,
`records.dfy`):
- A game moves from not started to running to finished.
- Each rendered frame handles the R and E keys, then one tick of a running game:
  - the per-second hit-history backfill;
  - the sticky "last circle" latch;
  - target expiry;
  - the spawn gate;
  - the finish, which computes accuracy, average reaction time and score, and logs a
    summary unless the finish was forced.
- The frame then judges the left click.
- Also modelled: `ResetGame`, `StartGame`, `randomInt`, the `SpawnCircle` rejection
  sampler, the filter that picks past summaries with the last game's settings, and the
  Windows mouse-speed multiplier table.

The loop's globals are the fields of one `SessionState` value, held by a `Session`
object whose methods update it in place. Its invariant `SessionState.Valid` says:
- hits never exceed attempts;
- there is one reaction time per hit;
- there is one history sample per elapsed second, plus the seed sample;
- every hit consumed a spawned target;
- in count mode the spawn count stays within `max(0, maxSpawnCount)`;
- a target is active, or a finish is requested, only while a game runs.

A finished game also shows the result of its own counters. The invariant holds after every
frame (`Session.Frame`) and is kept by the key, tick and click steps. `ResetGame` on its
own can break it, since it keeps a pending finish request while leaving the running state;
the R key clears that request right after the reset, as the source does.

**The renderer** (`renderer.dfy`):
- the square play field centred in the viewport (`UpdateFieldCache`);
- the "upload only if changed" cache of the three shader constant buffers, with a ghost
  count of uploads per buffer;
- the frame-latency clamp.

**The audio module** (`audio.dfy`):
- the RIFF/WAVE chunk walk of `LoadWAVFromFile`, over the file's bytes;
- the four-voice rotation of `PlayHitSound`;
- the slot clearing of `CleanupXAudio2`.

The WAV layout is the RIFF chunk structure of the Microsoft/IBM *Multimedia Programming
Interface and Data Specifications 1.0* (chapter 2), with the `fmt ` and `data` chunks of
its WAVE form (chapter 3).

Inputs the model takes as parameters:
- **Clock.** Each frame's clock is `FrameInput.nowMs`, and every clock read within a frame
  uses that value.
- **Summary timestamp.** The wall-clock stamp of a summary is `FrameInput.timestamp`.
- **Random generators.** The two generators are injected streams: `delaySource` for
  `randomInt` and `pointSource` for unit-disc offsets. Each is read at a cursor in the
  state (`delayDraws`, `pointDraws`).
- **Square root.** The count-mode score's square root is the injected `root`.
- **Distances.** Float geometry is over `real`. `distance(...) < bound` is compared on
  squared distances (`Geometry.Closer`), which is equivalent since the bound is never
  negative.

## Model

| member | source | states |
|---|---|---|
| Geometry.Closer | Flicks/src/main.cpp:435-439 | Defined as `dx*dx + dy*dy < bound*bound`, which for a non-negative bound is `distance(p, q) < bound` as the placement loop at line 530 tests it |
| Geometry.Within | Flicks/src/main.cpp:1462-1478 | Defined as `dx*dx + dy*dy <= r*r`, the squared-distance test of the start button and the hit test |
| Sampling.RandomInt | Flicks/src/main.cpp:121-127 | The drawn value lies in `[min(lo, hi), max(lo, hi)]`: reversed bounds are swapped, never rejected |
| Sampling.RandomIntCoversRange | Flicks/src/main.cpp:121-127 | Every value of `[min, max]` is produced by some draw, so the range is exactly the closed interval |
| Sampling.RandomIntSymmetric | Flicks/src/main.cpp:123-125 | Swapping the bounds never changes the value drawn |
| Sampling.CandidateInDisc | Flicks/src/main.cpp:522-527 | Every placement candidate lies within the spawn radius `a` of the field centre |
| Sampling.MinDistance | Flicks/src/main.cpp:508 | The required gap is never negative; it is at least `(fieldSize - 2R) * distanceRatio` and equals either 0 or that product |
| Sampling.SamplePosition | Flicks/src/main.cpp:518-536 | The loop draws 1 to 50 candidates, and exactly one for the first target. Every rejected candidate was too close. It stops early only at an acceptable one. The result is the last candidate, or the centre once 50 were drawn. The result lies in the spawn disc, and a non-first result is the centre or keeps the gap |
| Sampling.FiftiethCandidateDiscarded | Flicks/src/main.cpp:528-535 | When the first 49 candidates are too close, the loop ends at 50 draws with the centre, even if the 50th candidate was acceptable |
| Scoring.SumReactionTimes | Flicks/src/main.cpp:1402-1403 | The sum loop computes the sum of the reaction-time list |
| Scoring.ComputeAverageReactionTime | Flicks/src/main.cpp:1400-1405 | The average step yields `AverageReactionTime`: 0 for an empty list, else sum / count |
| Scoring.AverageIsMean | Flicks/src/main.cpp:1400-1405 | The average is 0 for no reaction times; otherwise the average times the count equals the sum |
| Scoring.SumBounds | Flicks/src/main.cpp:1403 | Element bounds `lo..hi` bound the sum by `n*lo..n*hi` |
| Scoring.AverageBetweenBounds | Flicks/src/main.cpp:1400-1405 | A non-empty average lies between any lower and upper bound of the reaction times |
| Scoring.Accuracy | Flicks/src/main.cpp:1421 | Defined as `100 * hits / attempts` with at least one attempt, else 0 |
| Scoring.AccuracyIsPercentage | Flicks/src/main.cpp:1421 | Accuracy is 0 with no attempts; otherwise accuracy times attempts equals `100 * hits`. It lies in `[0, 100]` when `0 <= hits <= attempts` and is 100 when every attempt hit |
| Scoring.Score | Flicks/src/main.cpp:1407-1416 | Defined as `root(max(0, maxSpawnCount - hits)) * 100 + avg` in count mode, else `hits` |
| Scoring.TimeModeScoresHits | Flicks/src/main.cpp:1414-1416 | In time mode the score is the hit count |
| Scoring.CountModeAllHitScoresAverage | Flicks/src/main.cpp:1408-1413 | In count mode with every target hit, and `sqrt(0) = 0`, the score is the average reaction time |
| Scoring.CountModeMoreHitsNoWorse | Flicks/src/main.cpp:1408-1413 | In count mode, with a monotone square root, more hits at the same average never give a higher (worse) score |
| History.FilterSummaries | Flicks/src/main.cpp:578-593 | The filter loop leaves exactly `Matching(all, settings)`: the matching summaries, in log order |
| History.MatchingExactly | Flicks/src/main.cpp:581-593 | A summary is selected if and only if it is in the log and matches: radii within 0.001, the other settings equal, and the target count equal in count mode only |
| History.MatchingAppend | Flicks/src/main.cpp:581-593 | Appending a summary to the log adds it to the selection, at the end, exactly when it matches. The selection is never longer than the log |
| History.TimeModeIgnoresTargetCount | Flicks/src/main.cpp:588 | For a time-mode summary, the target count of the settings does not affect the match |
| Mouse.Find | Flicks/src/main.cpp:1092-1095 | A found value belongs to an entry with that key; a miss means no entry has the key |
| Mouse.Lerp | Flicks/src/main.cpp:1108-1114 | Interpolating between two entries gives a value between their two values |
| Mouse.Interpolate | Flicks/src/main.cpp:1105-1114 | Strictly inside the key range, the result is the linear interpolation `y0 + (x - x0) / (x1 - x0) * (y1 - y0)` between two neighbouring entries whose keys enclose the input |
| Mouse.TableAscending | Flicks/src/main.cpp:1077-1089 | The sensitivity table has strictly increasing keys and non-decreasing values |
| Mouse.Lookup | Flicks/src/main.cpp:1092-1114 | In an ascending table the lookup gives: the listed value for a listed key, and the first or last value outside the key range. Inside the range it gives a value between the neighbouring keys' values. The result is always within the table's value range |
| Mouse.GetMouseSpeedMultiplier | Flicks/src/main.cpp:1075-1115 | Gives the table value at the 11 listed speeds, 0.0625 at or below 1 and 3.5 at or above 20, a value between the neighbours' values otherwise, and always within `[0.0625, 3.5]` |
| Mouse.LookupInterpolates | Flicks/src/main.cpp:1092-1114 | For an unlisted key strictly inside an ascending table, the lookup is the linear interpolation between the two neighbouring entries that enclose it |
| Mouse.MultiplierInterpolates | Flicks/src/main.cpp:1075-1115 | At an odd speed from 3 to 19, none of which is listed, the multiplier is the linear interpolation between the table entries either side |
| Session.ResultOf | Flicks/src/main.cpp:1418-1424 | Defined as the result holding the captured settings, hits, attempts, `Accuracy`, the average reaction time, `Score`, the history and the reaction times |
| Session.Repeat | Flicks/src/main.cpp:1354-1356 | The backfill block has length `max(0, n)`, and every element is the hit count |
| Session.AppendSamples | Flicks/src/main.cpp:1353-1358 | The backfill loop appends exactly `elapsedSec - lastSampleSecond` copies of the current hits (none if not positive) |
| Session.Session.constructor | Flicks/src/main.cpp:313-331 | The session starts in the global initial state, not started, with the loaded history log, and satisfies the invariant |
| Session.Session.ResetGame | Flicks/src/main.cpp:457-477 | The new state is `Reset`: counters, target, latch, history and reaction times are cleared and the game is back to not started. The sample second, the captured settings, the last result and the log are kept |
| Session.Reset | Flicks/src/main.cpp:457-477 | A reset game is not started, with no hits, attempts, spawns, history, reaction times, target or latch. With the finish request also cleared it satisfies the session invariant, whatever the state before |
| Session.Session.StartGame | Flicks/src/main.cpp:479-501 | The new state is `Started`: the game runs from `now` with the live settings captured, the history is `[0]` at sample second 0, no target is active and the latch is clear. The first spawn is scheduled `randomInt(minDelay, maxDelay)` after the start, within that range. Hits and attempts are untouched |
| Session.Session.SpawnCircle | Flicks/src/main.cpp:503-544 | The whole new state is `Placed`. With a non-positive radius the target is the centre and only the spawn time changes besides. Otherwise the rejection loop drew 1 to 50 candidates (one for the first target), every earlier candidate was too close, and the target is the last candidate or the centre after 50 draws. It becomes the previous position and clears the first-target flag. The target lies within the spawn radius, and a non-first target is the centre or at least the gap from the previous one |
| Session.PlacedWithinAndApart | Flicks/src/main.cpp:503-544 | Any placement lies within the spawn radius of the centre, and a non-first one is the centre or at least the required gap from the previous target |
| Session.Session.SampleSeconds | Flicks/src/main.cpp:1353-1358 | Crossing into a later whole second appends one hit-count sample per crossed second and advances the sample second; otherwise nothing changes. The invariant, including one sample per elapsed second, is kept |
| Session.Session.UpdateLatch | Flicks/src/main.cpp:1360-1371 | The latch becomes `latch or forced or (count mode and spawnCount >= maxSpawnCount) or (time mode and elapsed >= gameTimeSec*1000)`. It is never cleared |
| Session.Session.ExpireTarget | Flicks/src/main.cpp:1373-1382 | An active target at least `circleLifetimeMs` old is removed. The next spawn is then scheduled a random delay from now unless the latch is set. Nothing else changes |
| Session.Session.MaybeSpawn | Flicks/src/main.cpp:1384-1388 | A target is spawned exactly when none is active, the latch is clear and the scheduled time is reached; otherwise nothing changes. A spawn activates the target, adds exactly one to the spawn count and leaves the rest of the state as `SpawnCircle` places it (`Placed`). The count-mode bound on the spawn count is kept |
| Session.Session.FinishGame | Flicks/src/main.cpp:1390-1447 | Runs once the latch is set and no target is active. The game becomes finished with its history backfilled. The result is built from the captured settings, counters, accuracy, average and score. Its summary is appended to the log exactly when the finish was not forced. The finish request is cleared |
| Session.Session.Advance | Flicks/src/main.cpp:1350-1382 | The whole state after the tick's first part: the history is backfilled with the hit count up to the elapsed second, the latch is set exactly when it was or an end condition holds, and an active target at least `circleLifetimeMs` old is removed. On removal the next spawn is scheduled a random delay from now and one delay is drawn, unless the latch is set. Nothing else changes |
| Session.Session.Tick | Flicks/src/main.cpp:1349-1448 | Over one tick of a running game: the history reaches the elapsed second, and the latch is set exactly when it was or an end condition holds. At most one target is spawned. Hits, attempts and reaction times are unchanged. The game finishes exactly when the latch is set with no target left. The log grows by the result's summary only on an unforced finish |
| Session.Session.ClickToStart | Flicks/src/main.cpp:1458-1468 | Before the start, a click within `R + Cr` of the field centre leaves the `Started` state with the live settings; any other click changes nothing |
| Session.Started | Flicks/src/main.cpp:479-501 | A started game runs from `now` with the live settings, history `[0]`, no target and the latch clear. Its first spawn is between the minimum and maximum delay after `now`, and one delay is drawn |
| Session.Session.JudgeClick | Flicks/src/main.cpp:1469-1498 | The click reports a hit exactly when `IsHit` holds, that is a target is active within `R + Cr` of the cursor. The new state is `Judged`: one more attempt, and on a hit one more hit, `now - spawnTime` logged as its reaction time, the target removed and the next spawn scheduled unless the latch is set |
| Session.Judged | Flicks/src/main.cpp:1469-1498 | A judged click adds exactly one attempt, one hit exactly on a hit, and appends the reaction time exactly on a hit. The target stays active exactly when it was and was missed. A miss, or a hit with the latch set, leaves the spawn schedule alone |
| Session.Session.HandleKeys | Flicks/src/main.cpp:1337-1347 | R leaves `Reset` with the finish request cleared. Otherwise E requests a finish only while a game runs, and nothing else changes |
| Session.Session.HandleClick | Flicks/src/main.cpp:1450-1499 | The new state by game state: before the start `Started` or unchanged as `ClickToStart` decides; during a game `Judged`, so one more attempt and at most one more hit, which removes the target and logs its reaction time; after the finish unchanged. The hit sound is played, as the next voice in the rotation, exactly on a hit that finds sound data and a voice in that slot; otherwise the audio is untouched. No click changes the latch, the finish request, the last result or the log |
| Session.Session.Frame | Flicks/src/main.cpp:1337-1499 | Over one frame the invariant holds. After R, or for a game not yet started, the new state is exact: the reset (or unchanged idle) state, started with the live settings when the click lies within `R + Cr` of the centre. The latch stays set unless R was pressed. The log grows by at most the just-finished game's summary, and not at all on a forced finish. Without R a finished game stays as it is. In a game running before and after the frame without R, a click adds exactly one attempt and none is added without one; hits grow by at most one, only on a click, and a hit removes the target and logs `now - spawnTime` as its reaction time. At most one hit sound plays, the next in the rotation, none without a click, and only on a hit |
| Renderer.UpdateFieldCache | Flicks/src/renderer.cpp:278-304 | A non-positive viewport only clears `valid`. Otherwise it builds a valid centred square field of side `min(W, H) * scale` with its corners, centre and radii fractions of half the side. The spawn radius is never negative and equals `max(0, half - R)` |
| Renderer.FieldInsideViewport | Flicks/src/renderer.cpp:287-290 | With a scale in (0, 1], the field is non-empty, no larger than the viewport's short side, and lies inside the viewport |
| Renderer.SpawnedTargetInsideField | Flicks/src/renderer.cpp:291-293 | With a radius fraction in [0, 1], any target placed within the spawn radius of the centre lies wholly inside the field |
| Renderer.Renderer.constructor | Flicks/src/renderer.cpp:5-16 | A new renderer has no device, no cached constants, a latency of 1 and no uploads |
| Renderer.Renderer.Initialize | Flicks/src/renderer.cpp:22-112 | The window size is recorded whatever happens. The renderer holds a device exactly when the device and swap chain were created. Initialisation succeeds exactly when they were created and `InitGraphics` then created every shader, layout and buffer |
| Renderer.Renderer.SetMaxFrameLatency | Flicks/src/renderer.cpp:115-117 | The stored latency is at least 1: a latency of 0 becomes 1 and any other is kept as given, with no upper clamp |
| Renderer.Renderer.Resize | Flicks/src/renderer.cpp:148-168 | Without a device nothing changes. Otherwise the size is recorded and the vertex-constant cache is invalidated |
| Renderer.Renderer.UploadVsIfChanged | Flicks/src/renderer.cpp:209-220 | The vertex constants are uploaded exactly when nothing is cached or the cached copy differs; afterwards the cache holds them |
| Renderer.Renderer.DrawField | Flicks/src/renderer.cpp:189-228 | Each of the vertex and field-colour buffers is uploaded exactly when its cache is empty or differs, and then caches the new value |
| Renderer.Renderer.DrawCircle | Flicks/src/renderer.cpp:241-269 | The same upload-if-changed rule for the circle's vertex and pixel constants |
| Renderer.Renderer.EndCircleRendering | Flicks/src/renderer.cpp:274-276 | The circle pixel-constant cache is invalidated |
| Renderer.RedrawFieldUploadsNothing | Flicks/src/renderer.cpp:209-228 | Drawing the same field twice uploads nothing the second time |
| Renderer.CircleAfterEndUploads | Flicks/src/renderer.cpp:265-276 | After `EndCircleRendering`, the next circle uploads its pixel constants even when they equal the last ones |
| Audio.NextChunkPos | Flicks/src/audio_xa.cpp:41-66 | The walk resumes right after the chunk's data bytes, with no pad byte, and always moves forward by at least the 8-byte header |
| Audio.HeadersStep | Flicks/src/audio_xa.cpp:39-66 | The headers visited from a chunk are that chunk and then those visited from the position after its data, all further on |
| Audio.WalkChunks | Flicks/src/audio_xa.cpp:39-67 | The chunk walk keeps its invariant: a kept format is PCM, and kept data is a slice of the file. A successful walk never loses a format or data chunk found earlier |
| Audio.BadChunkFails | Flicks/src/audio_xa.cpp:43-63 | When any chunk header the walk visits is a `fmt ` chunk smaller than 16 bytes, cut short or not PCM, or a `data` chunk running past the end, the walk fails |
| Audio.WalkKeepsLastData | Flicks/src/audio_xa.cpp:39-67 | A successful walk's data is its starting data when no `data` header is visited. Otherwise it is exactly the bytes of the last `data` chunk visited |
| Audio.WalkKeepsLastFormat | Flicks/src/audio_xa.cpp:39-67 | A successful walk's format is its starting format when no `fmt ` header is visited. Otherwise it is the fields read from the last `fmt ` chunk visited |
| Audio.LoadWav | Flicks/src/audio_xa.cpp:25-74 | Loading succeeds only with the "RIFF"/"WAVE" header, and then yields a PCM format and data that is a slice of the file and exactly `dataSize` bytes long |
| Audio.LoadWavRejectsBadChunk | Flicks/src/audio_xa.cpp:39-67 | Loading fails when any chunk header visited after the RIFF header is a refused `fmt ` or `data` chunk |
| Audio.LoadWavTakesLastChunks | Flicks/src/audio_xa.cpp:39-74 | A loaded sound holds the fields of the last `fmt ` chunk visited and exactly the bytes of the last `data` chunk visited |
| Audio.LoadEncodedWav | Flicks/src/audio_xa.cpp:25-74 | Loading a minimal WAV file written from a PCM format and samples gives back exactly that format and those samples |
| Audio.LoadWAVFromFile | Flicks/src/audio_xa.cpp:15-75 | The loader loop agrees with `LoadWav`. A file that did not open fails and leaves the output record as it was. Any later failure resets the record to empty. Success fills it with the parsed sound |
| Audio.ReadFormat | Flicks/src/audio_xa.cpp:46-56 | The sixteen `fmt ` bytes written from a format read back as that format |
| Audio.AudioEngine.constructor | Flicks/src/audio_xa.cpp:83-99 | The engine holds the loaded sound and the created voices, and the rotation starts at slot 0 |
| Audio.AudioEngine.PlayHitSound | Flicks/src/audio_xa.cpp:120-138 | With no sound data, or no voice in the current slot, nothing changes. Otherwise that slot plays and the index moves on by one modulo 4. The index stays in `[0, 4)` and the slots played follow the rotation |
| Audio.AudioEngine.CleanupXAudio2 | Flicks/src/audio_xa.cpp:101-118 | Every voice slot is emptied, the sound data released and the engine and mastering voice dropped |

## Left out

- The Win32 window, message pump, raw input, cursor clipping and warping are operating-system plumbing and are not modelled.
- The ImGui/ImPlot user interface is not modelled, apart from the summary filter.
- Configuration files and the summary CSV (`SaveGameSummaries`, `LoadGameSummaries`) are file I/O. The log is a sequence passed to the `Session` constructor and appended to in place of the save.
- Direct3D device, swap chain, shaders, buffer mapping and draw calls are foreign calls. An upload is a ghost counter.
- The frame-latency value passed to the swap chain is a foreign call; only the stored value is modelled.
- Colours, cursor style and frame-latency settings play no part in the session logic.
- XAudio2 engine and voice calls are foreign calls. `InitXAudio2` is reduced to `AudioEngine`'s constructor taking whether each object was created.
- Audio.AudioEngine.PlayHitSound: the outcome of `SubmitSourceBuffer` and `Start` is not modelled, since it does not affect the index.
- Floats are reals. Single-precision rounding, `cos`, `sin` and the square roots of placement are inside the injected unit-disc stream. The score's square root is the injected `root`.
- The clocks are inputs. Each steady-clock read within a frame, including those inside `SpawnCircle` and `StartGame`, is the frame's `nowMs`. The summary timestamp is an input.
- Integer widths are not modelled. `long long` times, `int` counters and `randomInt`'s range are unbounded integers; only the loader's 32-bit seek is modelled, under Findings.
- Audio.LoadWAVFromFile: the RIFF size field at bytes 4-7 is ignored, as in the source. A `malloc` failure is not modelled.
- Audio.LoadWAVFromFile: a `fmt ` chunk whose sixteen bytes run past the end of the file fails, where the source would read indeterminate values.
- Audio.LoadWAVFromFile: a chunk header cut short after its id fails for `fmt ` and `data` and ends the walk otherwise, where the source reads a stale size.
- Audio.LoadWav: a file shorter than the 12-byte RIFF header fails, where the source compares the ids against bytes its reads did not fill.
- Session.Session.HandleClick: the hit sound plays after the hit's state updates rather than between them; the two touch disjoint state.
- Session.Session.FinishGame: the finish's second backfill is modelled, but in a tick it never adds a sample, since the tick's own backfill already reached the elapsed second.
- Only one target can be active because `isCircleActive` is a single flag, so "at most one active target" holds by construction.
- Session.Session.Tick: only the facts a frame needs are stated: backfill, latch, spawn count, counters, finish and log. The exact field updates are stated by the step methods it calls.
- Session.Session.Frame: for a game running at the start of the frame, only the invariant, counters, latch, log and audio are stated, as for `Tick`; the exact new state is stated for a reset or not-started game.
- Session.Session.ResetGame: it keeps the finish request, so on its own it can leave a not-started state with a request pending. The R key clears the request straight after, and only then is the invariant restored.
- The loop's local `isLastCircle` and `forceFinish` are fields of the session state. `ResetGame` and `StartGame` clear the latch, which the source does through the local right after each call.

## Findings

| source | as written | input that shows it | evidently intended | confidence | as-written member | corrected member |
|---|---|---|---|---|---|---|
| Flicks/src/audio_xa.cpp:41-66 | The next chunk position `chunkDataPos + chunkSize` is computed in `uint32_t` and wraps | A 20-byte file "RIFF", 4 size bytes, "WAVE", then a "JUNK" chunk of size 0xFFFFFFF8: the seek goes back to the JUNK header, and the loop reads it forever | Resume after the chunk's data, past the end of the file here, so the walk ends | not executed | Audio.HangingFileSeeksBack | Audio.NextChunkPos |
