# Cosmic Dodger: a verified model of the simulation and game lifecycle

Cosmic Dodger is a browser arcade game. A ship at the bottom of the field moves left and
right, and asteroids fall from the top. Each asteroid that touches the ship costs one of
three lives, and the score grows with the time survived. The game gets harder as the
score rises: asteroids fall faster and appear more often.

This project models the game's simulation in Dafny and proves what its rules guarantee:

- the per-frame step `update(dt)`;
- the helpers it relies on (`clamp` and the circle/rectangle overlap test);
- the creation of asteroids and the drift of background stars;
- the lifecycle handlers that drive the `running`/`paused` flags, the frame clock and the
  best score.

The model has five modules:

- `Helpers`: `Math.max`, `Math.min` and `clamp`, over exact reals.
- `Entities`: the ship, asteroid and star records. Also creates them from the random draws
  and drifts a star by one frame.
- `Collision`: `circleRectCollide`, with its geometric meaning proved.
- `Rules`: one `update(dt)` as pure functions over a value snapshot (`World`), in the
  source's order:
  1. score;
  2. stars;
  3. ship movement;
  4. difficulty;
  5. spawning;
  6. falling;
  7. pruning;
  8. the collision pass.

  `Step` composes them, and lemmas state what one step guarantees. `Sane` is the
  invariant a step preserves.
- `Game`: the class `Game.Game` holds the module globals as fields. Its methods change
  them in place, as the source does, with loops over the star and asteroid sequences.
  Each method's ensures give its whole new state, through the matching function in
  `Rules` or `Entities` where there is one (`Game.Game.Update` ends in the state
  `Rules.Step` computes) and field by field for the lifecycle handlers.

Random draws, held keys and clock readings are parameters. A draw is a value in `[0, 1)`.
Field width and height are constants of a `Game` object; the model requires a field
wide enough for both the ship's band and the asteroid spawn band (`width >= 112`).

## Model

| member | source | states |
|---|---|---|
| Helpers.Max | game.js:38 | `Math.max`: the result is one of the arguments and no smaller than either |
| Helpers.Min | game.js:38 | `Math.min`: the result is one of the arguments and no larger than either |
| Helpers.Clamp | game.js:37-39 | never below `lo`; within `[lo, hi]` when `lo <= hi`; `v` itself when already in range; `lo` below the band and `hi` above it |
| Helpers.ClampIsNearest | game.js:287-288 | within a non-empty band, the clamped value is the point nearest to `v` (no point of the band has a smaller squared distance) |
| Collision.CircleRectCollide | game.js:282-293 | the closest-point test with a strict `<`: a circle of radius zero never hits, even with its centre inside the rectangle |
| Collision.TangentIsMiss | game.js:282-293 | a squared gap exactly equal to `r*r` (tangency) is not a hit, because the test is strict |
| Collision.HitHasWitness | game.js:282-293 | a hit means the rectangle's nearest point lies in the rectangle and is strictly within `r` of the centre |
| Collision.OverlapIsHit | game.js:282-293 | any point of the rectangle strictly within `r` of the centre makes the test hit: no overlap is missed |
| Collision.CentreInsideHits | game.js:282-293 | a circle with `r > 0` whose centre lies in the rectangle always hits |
| Entities.BandHi | game.js:247-248 | the band is non-empty whenever the field is at least the ship's width plus both margins |
| Entities.InBand | game.js:247-248 | on a non-empty band, a ship is inside its band exactly when the clamp of the movement step leaves its `x` unchanged |
| Entities.CreatePlayer | game.js:82-92 | the ship is 40 by 30, moves at 320, sits 60 above the bottom, and starts inside its band on a field at least 80 wide |
| Entities.SpawnColumnWithin | game.js:95-97 | on a field of width at least `2*32 + 2*24`, the drawn column keeps the whole asteroid within the 24 margins |
| Entities.CreateAsteroid | game.js:94-101 | radius in `[14, 32)`, `y = -radius - 10`, speed in `[90, 200)`, and `x` in `[24 + radius, width - 24 - radius]` on a field at least 112 wide |
| Entities.CreateStar | game.js:45-51 | a new star lies on the field, with radius in `[0.3, 1.8)`, opacity in `[0.4, 1)` and drift speed in `[10, 30)` |
| Entities.Starfield | game.js:42-53 | `createStars` yields one star per draw, all on the field |
| Entities.Drift | game.js:56-61 | a star that stays on the field moves straight down by `speed * dt * 0.3` and keeps its column; one that would pass the bottom edge is recycled to `y = -2` at the drawn column; either way it ends no lower than the bottom edge, and size, opacity and speed are unchanged |
| Entities.DriftStaysOnField | game.js:58-61 | a drifted star stays within the field's columns |
| Rules.Direction | game.js:245 | the direction is -1, 0 or +1; it is 0 exactly when both keys or neither are held, and +1 exactly when only right is held |
| Rules.Steer | game.js:245-248 | only the ship's `x` changes, and the ship ends inside `[w/2 + 20, width - w/2 - 20]` whenever that band is non-empty |
| Rules.SteerAtLeftWall | game.js:245-248 | a ship at the left end of its band with only left held stays where it is |
| Rules.SteerFollowsKeys | game.js:245-248 | for a ship inside its band: only right held never moves it left, only left held never moves it right, neither or both held leaves it in place, a move that stays in the band is exactly `dir * speed * dt`, and a move past either end of the band stops exactly at that end |
| Rules.Difficulty | game.js:251 | the difficulty factor is at least 1 for a non-negative score, and above 1 for a positive one |
| Rules.DifficultyGrows | game.js:251 | a higher score never gives a lower difficulty |
| Rules.ResetInterval | game.js:257 | the reset countdown is at least 0.14 s, and at most 0.45 s at difficulty 1 or more |
| Rules.ResetIntervalShrinks | game.js:257 | a higher difficulty never lengthens the spawn interval |
| Rules.SpawnIntervalShrinksWithScore | game.js:251-257 | a higher score never lengthens the interval the spawn countdown restarts from |
| Rules.Spawn | game.js:254-258 | at most one asteroid is appended, exactly when `spawnTimer - dt <= 0`; existing asteroids are kept as a prefix; the new asteroid is `createAsteroid`'s; on a spawn the countdown restarts at `max(0.45 / difficulty, 0.14)`, so at no less than 0.14, and otherwise it is `spawnTimer - dt` |
| Rules.Fall | game.js:262 | falling changes only an asteroid's `y` |
| Rules.FallIsDownward | game.js:262 | with non-negative speed, `dt` and difficulty, an asteroid never moves up, and with positive ones it moves strictly down |
| Rules.FallGrowsWithDifficulty | game.js:262 | at a higher difficulty the same asteroid falls at least as far in the same frame: asteroids fall faster as the game gets harder |
| Rules.Advance | game.js:261-263 | every asteroid falls by one frame and the order is kept |
| Rules.OnScreen | game.js:265 | the filter test `y - radius < height + 60`; an asteroid whose centre is still on the field always passes it |
| Rules.Prune | game.js:265 | the filter keeps no more asteroids than it had, and every survivor came from the input and passes `y - radius < height + 60` |
| Rules.PruneAppend | game.js:265 | filtering a concatenation filters each part and keeps the parts in order, so survivors keep their relative order |
| Rules.PruneCounts | game.js:265 | each asteroid that passes the test occurs in the result as often as in the input, and one that fails it does not occur at all: nothing passing is dropped |
| Rules.PruneKeepsVisible | game.js:265 | when every asteroid passes the test, the filter returns the list unchanged |
| Rules.Knock | game.js:271 | a hit changes only the asteroid's `y`; the knocked asteroid fails the pruning test exactly when its radius is at most 939 |
| Rules.KnockedIsDroppedNextFrame | game.js:261-271 | a knocked asteroid fails the pruning test after its next fall, so it is removed before it can be tested again |
| Rules.Pass | game.js:268-279 | the collision pass keeps the number of asteroids, and `lives` falls by exactly the number of hits |
| Rules.PassKnocksHits | game.js:268-272 | the hits are increasing indices of asteroids that overlap the ship; exactly those are moved to `height + 999` and every other asteroid is unchanged |
| Rules.PassMissesNothing | game.js:268-276 | every asteroid the pass reached that overlaps the ship is among the hits, and a game-ending pass has at least one hit |
| Rules.PassLives | game.js:272-276 | entering with at least one life, lives end at zero or more, and the pass ends the game exactly when they reach zero |
| Rules.PassLeavesVisibleOrKnocked | game.js:268-271 | a collision pass over asteroids that all pass the pruning test leaves each one passing it or moved to `height + 999` |
| Rules.PassStopsAtGameOver | game.js:272-276 | once the game ends, every asteroid after the last hit is left as it was; entering with at least one life, the game ends only after exactly as many hits as there were lives, so that last hit is the fatal one and no asteroid after it is examined |
| Rules.DriftAll | game.js:55-63 | every star drifts by one frame, in order, and the number of stars is kept |
| Rules.Step | game.js:236-280 | one `update(dt)`: the score grows by exactly `12 * dt`, so it never decreases for `dt >= 0`; the number of stars is kept; only the ship's `x` moves; lives never rise |
| Rules.StepKeepsShipInBand | game.js:245-248 | after a step the ship lies in its band and only its `x` has changed |
| Rules.StepSpawnsAtMostOne | game.js:254-258 | a step adds at most one asteroid, and none while the countdown has not run out; a spawn restarts the countdown at `max(0.45 / difficulty, 0.14)` for the step's new score, so at 0.14 s or more; the countdown is positive after every step |
| Rules.StepLeavesOnlyVisibleOrKnocked | game.js:265-271 | after a step, every asteroid passes the pruning test or sits at `height + 999`, where a hit puts it |
| Rules.StepLives | game.js:268-279 | entering with at least one life, lives never rise or go negative, and the step ends the game exactly when they reach zero |
| Rules.StepKeepsRocksShaped | game.js:94-101 | every asteroid keeps `createAsteroid`'s radius and speed ranges across a step |
| Rules.StepPreservesSane | game.js:236-280 | a step preserves the running-game invariant: ship shape, row and band, non-negative score, stars on the field, and asteroids well-formed and visible or knocked |
| Rules.BestAfter | game.js:132-138 | the best score becomes `max(best, score)`, and it changes exactly when `score > best` |
| Rules.FrameDelta | game.js:226-227 | the first frame after a reset (`lastTime == 0`) gets `dt = 0`; otherwise `dt` is the elapsed milliseconds over 1000, never negative on a monotonic clock |
| Game.Game.constructor | game.js:23-34 | start-up state: no asteroids, score 0, three lives, not running or paused, clock and countdown at 0, stored best score, and 80 new stars on the field |
| Game.Game.CreateStars | game.js:42-53 | replaces the stars with `Starfield` of the draws and changes nothing else |
| Game.Game.UpdateStars | game.js:55-63 | drifts each star in place; the new stars are `DriftAll` of the old ones and nothing else changes |
| Game.Game.MovePlayer | game.js:245-248 | the new ship is `Steer` of the old one and nothing else changes |
| Game.Game.SpawnAsteroids | game.js:254-258 | the new asteroid list and countdown are those of `Spawn` and nothing else changes |
| Game.Game.AdvanceAsteroids | game.js:261-263 | moves each asteroid in place; the new list is `Advance` of the old one and nothing else changes |
| Game.Game.DetectCollisions | game.js:268-279 | the asteroids and lives become those of `Pass`; when the pass ends the game, the game stops, the pause clears and the best score is saved; otherwise these are unchanged |
| Game.Game.Update | game.js:236-280 | the new state is exactly `Step` of the old one; a game-ending step stops the game and saves the best score; the running-game invariant is kept |
| Game.Game.SaveBestScore | game.js:132-138 | the best score becomes `BestAfter(best, score)` and nothing else changes |
| Game.Game.EndGame | game.js:295-298 | the game stops, the pause clears, and the best score is saved |
| Game.Game.ResetGame | game.js:141-150 | a new ship, no asteroids, score 0, three lives, countdown and clock at 0; the stars, best score and flags are kept; the result satisfies the running-game invariant |
| Game.Game.StartGame | game.js:152-159 | does nothing while running and not paused; otherwise resets the game and sets it running and unpaused |
| Game.Game.PauseGame | game.js:161-171 | does nothing unless running; otherwise toggles `paused`, and on resuming restarts the clock at the given time |
| Game.Game.Loop | game.js:223-234 | does nothing when not running or paused; otherwise sets the clock to the timestamp and runs `Step` with `FrameDelta` (zero on the first frame after a reset), stopping the game and saving the best score if the step ends it |

## Left out

- Drawing is not modelled: stars, background, ship, asteroids and `draw` are canvas calls with no state to describe.
- The overlay and the score and lives labels are not modelled: they are writes to the page and do not affect the game state.
- The keyboard and button listeners are not modelled. The held keys are inputs to a frame, and the Start, Pause and Restart buttons call `Game.Game.StartGame` and `Game.Game.PauseGame` directly.
- Theme handling and `localStorage` are not modelled. `loadBestScore`'s parsing is replaced by the parsed value, which is passed to the constructor; the `setItem` in `saveBestScore` is dropped.
- `requestAnimationFrame` scheduling is not modelled. Each `Game.Game.Loop` call is one frame, and no queue of pending callbacks exists. A pause and resume within one frame, which could leave two callbacks pending, is therefore not represented.
- `performance.now()` is the `now` parameter of `Game.Game.PauseGame`.
- Game.Game.Loop: requires the clock not to run backwards (`lastTime == 0` or `timestamp >= lastTime`). A frame timestamp earlier than the `performance.now()` reading taken on resume would give a negative `dt`, and that case is not covered.
- `Math.random()` draws are parameters in `[0, 1)`.
- Game.Game.UpdateStars: takes one column draw per star and uses it only when that star is recycled. The source draws only on recycling; the distribution of each new column is the same.
- JavaScript numbers are modelled as exact reals. Rounding, `NaN`, `Infinity` and the `Math.floor` of the score label are not modelled.
- Game.Game.constructor: the ship is set to `createPlayer()`'s value at start-up. In the source, `player` is undefined until the first `startGame`. No frame runs before that, so nothing reads it.
