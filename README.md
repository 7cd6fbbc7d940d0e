# Dino-style runner: simulation core

A model in Dafny of the simulation behind a single-screen "Chrome Dino" style
game (`game.js`). A player character stands on a ground line and jumps over
obstacles that spawn at the right edge of the canvas and scroll left; touching
an obstacle ends the run, and the primary action (space, arrow-up, click or
touch) restarts it. What is modelled is the state and the operations that change
it:

- `Geometry` (`geometry.dfy`): rectangles and the strict axis-aligned overlap
  test `collides`.
- `Obstacles` (`obstacles.dfy`): the obstacle that `spawnObstacle` creates, and
  `Advance`, the value-level meaning of the per-frame obstacle pass (scroll left,
  drop the ones whose right edge is left of x = -50, keep the order), with the
  lemmas that characterise it.
- `Game` (`game.dfy`): the `player` object as class `Player`, and the
  module-level variables of the `load` handler as class `GameState`, with
  `Reset` (`resetGame`), `Jump` (`jump`), `SpawnObstacle` (`spawnObstacle`) and
  `Tick`, the state-update half of `loop`. `Tick` runs the four phases of the
  frame in the source's order, each as its own method: `Player.Fall` (gravity and
  landing), `AdvanceSpawner`, `MoveObstacles` (the backwards loop with `splice`,
  on a `seq` field, proved equal to `Advance`) and `RampSpeed`, then adds the
  score.

`GameState.Valid()` is the invariant that the constructor establishes and that
`Reset`, `Jump` and `Tick` keep. `SpawnObstacle` and the four phase methods are
steps inside `Tick` (the source calls `spawnObstacle` from nowhere else), and the
invariant need not hold between them. It says: the player is never below the
ground, no expired obstacle is kept, `spawnTimer < spawnInterval`, the spawn
interval stays in [900, 2100), the speed-ramp timer stays at most 5000, speed is
at least 0.35 and score at least 0.

All quantities are `real`. The canvas width and the ground line are constructor
parameters. The three `Math.random()` draws a spawning frame makes (the next
spawn interval, then the obstacle's height, then its width) are parameters of
`Tick` in that order, each in [0, 1). The frame time `dt` is a parameter too.

Behaviour of the code that the model follows as written:

- `dt` is not clamped to be non-negative; `Tick` requires `dt >= 0` instead.
- A collision does not cut the frame short: the rest of the obstacles are still
  moved and tested, and the speed ramp and the score still advance in that frame.
- The collision test also runs on an obstacle that was just spliced out.
  `RemovedObstaclesNeverHit` shows that this cannot change the outcome for the
  player, whose left edge (x = 60) is right of the removal line.
- A restart does not reset the speed-ramp timer (`speedIncreaseTimer`).
- The primary action while the game is over restarts it (inside `jump`).

## Model

| member | source | states |
|---|---|---|
| Geometry.Collides | game.js:92-97 | Rectangles that only touch along an edge (right edge of one on the left edge of the other, or bottom on top, either way round) never collide. |
| Geometry.CollidesSymmetric | game.js:92-97 | The collision test does not depend on the order of its arguments. |
| Geometry.CollidesIffSharedPoint | game.js:92-97 | For rectangles of positive size the test holds exactly when the two rectangles share a point strictly inside both. |
| Obstacles.NewObstacle | game.js:64-74 | A spawned obstacle starts at x = canvas width + 20, its base on the ground line, height in [30, 70) and width in [20, 50). |
| Obstacles.AdvanceKeepsNoExpired | game.js:180-183 | After the obstacle pass no kept obstacle has its right edge left of x = -50. |
| Obstacles.AdvanceKeepsOrder | game.js:180-183 | The kept obstacles are a subsequence of the obstacles each moved left by exactly the shift: order is kept and nothing else changes about them. |
| Obstacles.AdvanceRemovesExpired | game.js:180-183 | The pass removes exactly as many obstacles as have expired after moving; with the two lemmas above this determines the result. |
| Obstacles.SpliceStep | game.js:180-183 | One step of the backwards in-place loop (move obstacle i where it stands, splice it out if expired) extends the processed suffix by one, so the loop computes the pass. |
| Obstacles.RemovedObstaclesNeverHit | game.js:183-187 | For a box whose left edge is not left of x = -50, some moved obstacle overlaps it exactly when some kept obstacle does; testing a spliced obstacle changes nothing. |
| Game.Player.constructor | game.js:14-25 | The player starts on the ground line (y = ground - height), at rest and grounded. |
| Game.Player.Fall | game.js:163-169 | Velocity takes gravity first, then position takes the new velocity; if the bottom edge reaches the ground the player is put on it with zero velocity and grounded, otherwise the integrated values stand and the grounded flag is unchanged; the player ends never below the ground. |
| Game.GameState.constructor | game.js:27-39 | A new game is running, with no obstacles, both timers at 0, spawn interval 1400, speed 0.35, score 0 and the player grounded; the invariant holds. |
| Game.GameState.Reset | game.js:77-86 | Restores the restart state (no obstacles, spawn timer 0, interval 1400, speed 0.35, score 0, running, player grounded at rest), keeps the speed-ramp timer, and is idempotent: resetting a just-reset game changes nothing. |
| Game.GameState.Jump | game.js:42-50 | Running and grounded: velocity becomes -0.6 and grounded is cleared, nothing else changes. Running and airborne: nothing changes. Game over: the state becomes the restart state, speed-ramp timer kept. |
| Game.GameState.SpawnObstacle | game.js:64-74 | Appends exactly the new obstacle to the end of the collection. |
| Game.GameState.AdvanceSpawner | game.js:172-177 | The spawn timer grows by dt; when it reaches the interval it becomes 0, the interval becomes 900 + 1200 r and one obstacle is appended; otherwise the interval and the obstacles are unchanged. |
| Game.GameState.MoveObstacles | game.js:180-188 | The backwards loop with splice leaves exactly the obstacle pass of the old collection, and the game keeps running exactly when it was running and no moved obstacle (removed ones included) overlaps the player. |
| Game.GameState.RampSpeed | game.js:191-195 | Only when the ramp timer plus dt exceeds 5000 does speed rise, by exactly 0.03, with the timer back to 0; otherwise speed is unchanged and the timer grows by dt. |
| Game.GameState.Tick | game.js:161-199 | An ended game is left entirely unchanged. A running frame: the player falls and lands as in Fall; at most one obstacle is added, only when the spawn timer reaches the interval; obstacles become the pass over old plus spawned ones, shifted by old speed times dt; the game keeps running exactly when no obstacle overlaps the moved player; the speed ramp is a staircase; score grows by exactly 0.02 dt and never decreases; the invariant is kept. |

## Left out

- Drawing: `drawPlayer`, `drawObstacle`, `drawGround`, `drawScore`, `drawGameOver` and the canvas clear/fill calls are rendering only.
- Input wiring: the `keydown`, `mousedown` and `touchstart` listeners only call `jump`; the `load` handler and `getElementById` are page setup.
- Frame timing: `requestAnimationFrame`, `performance.now()`, `lastTime` and the derivation of `dt` from timestamps belong to the host; `Tick` takes `dt`. Zero-length ticks are routine: `resetGame` registers the frame callback again (game.js:88) while the running callback keeps re-registering itself (game.js:213), so after k restarts k + 1 callbacks run per frame with the same timestamp and all but the first tick with `dt = 0`, which `Tick` admits. A negative `dt` can plausibly arise from the first frame after a restart, because `lastTime` is then taken from `performance.now()` (game.js:87) rather than from a frame timestamp. Negative `dt` is excluded by a precondition rather than modelled, since the source does not clamp it.
- Randomness: each `Math.random()` draw is a parameter in [0, 1).
- Floating-point rounding: all quantities are exact reals.
- `CANVAS_H`: only the ground line derived from it (`GROUND_Y`) is used, and it is a parameter.
- Display rounding of the score (`Math.floor`) and the colour fields of the player and the obstacles.
- Object identity of obstacles: they are values in a `seq`, so the in-place `obs.x -=` on an obstacle that is spliced out right after is not observable; nothing else holds a reference to an obstacle.
