# Speed-gauge tapping game: verified model of the gameplay core

The game shows one target at a time. Every target carries a speed gauge. The
speed runs from 0 to 100 and decays by 50 units per second. Each tap on the
target adds 15, capped at 100. A "sweet spot" band, 25 units wide, sits at a
random place in the gauge. A tap whose boosted speed lands inside the band,
both ends included, is a hit. A hit counts a tap, raises the streak by one,
adds the base point times the streak tier's multiplier (1, 2, 4, 8 or 16) to
the score, and grows the target. A tap that misses the band resets the streak.
So does a frame in which decay carries the speed out of the band. Once a
target has collected its required number of hits (8 to 17, drawn at spawn), it
is removed and a fresh one is spawned. Pausing swallows taps and freezes
the gauge, but only until the first frame after a resume (see Findings).

The model has four modules:

- `Gauge` (`gauge.dfy`) holds the per-target rules as values. `Spawned`,
  `Clicked` and `Ticked` say how a spawn, a tap and a frame change a target's
  fields. `WellFormed` is the invariant every live target keeps.
- `Streak` (`streak.dfy`) holds the tier table and its first-match lookup
  `LevelFor`, the closed form `TierMultiplier`, and the rounding `Ceil` used by
  scoring.
- `Arcade` (`arcade.dfy`) holds the two stateful objects as classes: `Ball`
  and `Game`. `Ball.Spawn`, `Ball.Update`, `Ball.HandleClick` and
  `Ball.BoostAndJudge` are proved to change the ball's fields as `Spawned`,
  `Ticked` and `Clicked` say, and to keep the ball well formed.
  `Game.AddScore` and `Game.HandleFrequencyMiss` state their changes to the
  score and the streak directly. The `Game` methods that change the ball
  list, the flags or the loop's anchor (`StartGame`, `GameLoop`,
  `TogglePause`, `TogglePauseAnchored`, `TapOnBall`, `SpawnNewBall`,
  `RemoveBall`), and `Ball.HandleClick`, are proved to keep `Game.Valid`: at
  most one ball, present only once the game has started, well formed and
  short of its required taps.
- `PauseResume` (`pause_resume.dfy`) holds what a pause followed by a resume
  does to the next frame (see Findings).

Randomness and clocks are parameters. A `Gauge.Draw` carries the two
uniform rolls in [0, 1) that a spawn consumes and the spawn time. The frame
methods take the animation timestamp, and the resume takes the time of the
resume. Speeds, times and the growth scale are exact reals.

Time is allowed to run backwards. `Ball.update` has no upper clamp, so a
timestamp earlier than the ball's last frame would raise the speed.
`Gauge.TickSpec` therefore proves the bound `speed <= 100` for frames whose
timestamp is not earlier than the last one. It proves the bound `speed >= 0`
for every frame.

## Model

| member | source | states |
|---|---|---|
| Gauge.RequiredTapsFor | game.js:69 | the required count drawn from a roll in [0, 1) lies in [8, 17] |
| Gauge.RequiredTapsReachable | game.js:69 | every count from 8 to 17 is drawn by some roll |
| Gauge.BandStartFor | game.js:73-78 | the band start drawn from a roll lies in [0, 75), so the 25-wide band ends below 100 |
| Gauge.Spawned | game.js:66-88 | a spawned target has no taps, speed 0, scale 1, the flag down and its clock at the spawn time; its required count and band start are the drawn ones; it is well formed, with band width 25, start in [0, 75), required count in [8, 17], and no taps yet, short of that count |
| Gauge.InSweetSpot | game.js:230 | band membership holds only in a non-empty band, and both ends of the band belong to it (the same test is used at game.js:312) |
| Gauge.Boosted | game.js:306-308 | a boost never exceeds 100, adds exactly 15 when the cap does not bite, never lowers a speed in [0, 100], and keeps 100 at 100 |
| Gauge.Decayed | game.js:222-227 | decay leaves a zero speed alone, never takes a positive speed below 0, never raises it for dt >= 0, subtracts exactly 50·dt while the result is positive, and reaches 0 exactly when 50·dt covers the speed |
| Gauge.Clicked | game.js:306-338 | after a tap the speed is the boosted one; the flag is raised exactly when that speed is inside the band, both ends included; a hit adds one tap and one growth step, a miss neither; the band, the required count and the frame clock are unchanged |
| Gauge.ClickSpec | game.js:306-338 | a tap keeps the target well formed and its speed in [0, 100] |
| Gauge.CompletionIsExact | game.js:314-347 | from a count short of the required one, a tap reaches the required count exactly, never overshooting it, and only by a hit |
| Gauge.Ticked | game.js:219-234 | after a frame the speed is the old one decayed over the elapsed seconds, the flag equals band membership of that speed, and the clock is the frame's timestamp; taps, band, required count and scale are unchanged |
| Gauge.TickSpec | game.js:214-244 | a frame keeps the target well formed; for forward time it never raises the speed, so the speed stays in [0, 100] |
| Gauge.DecayedOut | game.js:233-240 | a frame in which the flag goes from raised to lowered, the only frames that reset the streak |
| Gauge.DecayExitsBelow | game.js:222-240 | a forward frame that carries the speed out of the band leaves it below the band's lower end |
| Gauge.DecayComposes | game.js:219-227 | two frames of d1 and d2 seconds decay the speed exactly as one frame of d1 + d2 seconds |
| Gauge.DrainsInTwoSeconds | game.js:44 | two seconds of decay empty any gauge in [0, 100] |
| Streak.LevelFor | game.js:710-717 | the lookup always returns a row of the table |
| Streak.LevelForIsHighestMatch | game.js:710-717 | on a table with strictly descending thresholds ending at 0, the first match has a threshold the streak reaches, and no reachable row has a higher threshold |
| Streak.MultiplierFor | game.js:724-725 | the multiplier used for scoring is the multiplier of some row of the table |
| Streak.TierMultiplier | game.js:381-387 | the closed form of the table's multipliers, always between 1 and 16 |
| Streak.MultiplierByStreak | game.js:381-387 | over the game's table, the multiplier is 1 for streak 0-1, 2 for 2-3, 4 for 4-7, 8 for 8-11 and 16 from 12 on, and the chosen tier's threshold is reached |
| Streak.MultiplierMonotone | game.js:381-387 | a longer streak never earns a smaller multiplier |
| Streak.Ceil | game.js:725 | the result is the least integer not below its argument |
| Streak.CeilOfInteger | game.js:725 | rounding up an integer gives that integer |
| Streak.OnePointHit | game.js:317-318 | a hit worth one base point scores exactly its tier's multiplier |
| Arcade.IndexOf | game.js:701 | the position of the first occurrence of the ball in the list, or -1 exactly when it is absent |
| Arcade.Ball.constructor | game.js:1-54 | a new ball belongs to its game, is well formed, and starts as a fresh spawn |
| Arcade.Ball.Spawn | game.js:56-89 | the ball's fields become `Spawned(draw)`: no taps, speed 0, scale 1, flag down, drawn count and band, and the clock at the spawn time |
| Arcade.Ball.Update | game.js:214-244 | paused: only the frame clock moves. Otherwise the fields become `Ticked`, and the streak is reset exactly when decay carried the speed out of the band |
| Arcade.Ball.HandleClick | game.js:299-348 | paused: nothing changes. Otherwise the fields become `Clicked`; a hit raises the streak by 1 and the score by the new streak's multiplier, and a miss resets the streak; the ball leaves the game once its taps reach the required count, and a fresh ball replaces it; flags and the loop anchor are unchanged |
| Arcade.Ball.BoostAndJudge | game.js:306-338 | the fields become `Clicked`; a hit adds one to the streak and `TierMultiplier(new streak)` to the score, and a miss sets the streak to 0 |
| Arcade.Game.constructor | game.js:352-419 | a new session has score 0, streak 0, no balls, is neither started nor paused, and uses the tier table |
| Arcade.Game.StartGame | game.js:608-632 | the session is started with score and streak 0 and the anchor at the start time; a first ball is spawned when there was none and the game is not paused |
| Arcade.Game.GameLoop | game.js:634-648 | before the start or while paused, only the loop's anchor moves. Otherwise the live ball (if any) runs one `Ticked` frame, the streak is reset exactly when decay carried it out of the band, and the score, flags and ball list are unchanged |
| Arcade.Game.TogglePause | game.js:657-690 | a started game flips its paused flag, and resuming sets the loop's anchor to the resume time; nothing else changes, and an unstarted game is left alone |
| Arcade.Game.TogglePauseAnchored | game.js:657-690 | as `TogglePause`, except that resuming also moves the live ball's frame clock to the resume time, leaving its other fields unchanged |
| Arcade.Game.TapOnBall | game.js:805-843 | a tap is ignored before the start, while paused or without a ball. Otherwise the current ball changes as `Clicked` says, with the same streak and score changes as `HandleClick`, and exactly one ball remains: the same ball, or a fresh spawn once the required count is reached; the flags and the loop's anchor are unchanged |
| Arcade.Game.SpawnNewBall | game.js:692-698 | a fresh spawned ball is added exactly when there is no ball and the game is started and not paused; otherwise the list is unchanged; at most one ball exists |
| Arcade.Game.RemoveBall | game.js:700-708 | the given ball is no longer in the game; a started, unpaused game then holds exactly one ball, a fresh spawn when the removed ball was the only one |
| Arcade.Game.GetCurrentStreakLevel | game.js:710-717 | the loop returns the first tier in table order whose threshold the streak reaches, else the last tier (`LevelFor`) |
| Arcade.Game.AddScore | game.js:719-736 | the streak rises by exactly 1; the points are the base times the new streak's multiplier, rounded up; a base of 1 earns exactly the multiplier; the score grows by the returned points |
| Arcade.Game.HandleFrequencyMiss | game.js:738-747 | the streak is 0 afterwards, and no other field is touched |
| PauseResume.ResumeThenFrame | game.js:657-690 | as written, the first frame after a resume decays the speed over the time since the ball's last frame before the pause |
| PauseResume.ResumeThenFrameAnchored | game.js:634-648 | with the anchored resume, the first frame decays the speed only over the time since the resume |
| PauseResume.PausedInBand | game.js:608-690 | a concrete session: band [15, 40], two hits, a frame at 250 ms and a pause at 300 ms leave speed 17.5 in the band with streak 2 |
| PauseResume.LongPauseAsWritten | game.js:657-690 | that session, resumed at 10 s and framed at 10.016 s, ends with speed 0 and streak 0 |
| PauseResume.LongPauseAnchored | game.js:634-648 | the same session with the anchored resume ends with speed 16.7 and streak 2 |

## Left out

- DOM construction, styling and class toggling are not modelled. This covers the progress bar, the band indicator, floating points, the pressed state and the confetti burst. They are display only.
- Audio, video, environment selection, the sound toggle, the visibility and focus handlers, and `isMuted`/`soundEnabled` are not modelled. They are browser calls that do not affect gameplay state.
- `requestAnimationFrame`, `cancelAnimationFrame` and `stopGameLoop` are not modelled, and neither is `gameLoopId`. Each frame is a call to `GameLoop` with an explicit timestamp.
- `Math.random` and `performance.now()` become the fields of `Draw` and the timestamp parameters.
- Target position and size (`generateRandomPosition`, `currentSize`) and the mobile/desktop size choice are not modelled. They depend on the window and container geometry.
- Hit-testing of taps against the target's bounding box is not modelled. `TapOnBall` is a tap that landed on the current ball, and the tap-end handler is not modelled.
- Floating-point rounding is not modelled; speeds, times and the scale are exact reals. `currentScale` is therefore exactly `1 + 0.03·taps`, and `floor(roll·10 + 8)` is exact.
- `Ball.remove` is reduced to its call of `Game.removeBall`; its confetti and element removal are display only.
- The `oldLevel` lookups in `addScore` and `handleFrequencyMiss` are not modelled. They feed only announcements that are commented out, so they change no state. `updateScore` only writes the score to the page.
- Resuming calls `this.resumeGame()` at game.js:688. No such method is defined in game.js, so in a browser the call would throw after the state has been updated. The model stops at the state changes and does not model the throw.
- `handleResize` and `console.log` are not modelled. The first does nothing; the second only writes to the console.

## Findings

| source | as written | input that shows it | evidently intended | confidence | as-written member | corrected member |
|---|---|---|---|---|---|---|
| game.js:657-690 | On resume, only `Game.lastTimestamp` is reset (line 686). No frame reads that field: `Ball.update` measures decay from the ball's own `lastUpdateTime` (lines 219-220), which was last moved by the frame before the pause. The first frame after a resume therefore decays the gauge over the whole pause. | Band [15, 40]. Two hits reach speed 30 and streak 2. A frame at 250 ms leaves 17.5. Pause at 300 ms, resume at 10 000 ms, frame at 10 016 ms. The frame decays over 9.766 s, so the speed drops to 0 and the streak to 0. | The first frame after a resume decays only over the time since the resume. The comment at line 636 aims to prevent a large delta after a pause. With the anchored resume, the same session ends at speed 16.7 in the band with streak 2. | medium; not executed | PauseResume.LongPauseAsWritten | Arcade.Game.TogglePauseAnchored |
