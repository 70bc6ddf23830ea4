# Epidemic simulation particles, modelled in Dafny

This project models the two pieces of stateful logic in the covid-19 ball
simulation:

- **The ball entity** (`js/ball.js`, module `Balls` in `ball.dfy`). A ball has
  a position, a velocity, a safe distance, a size, and health fields:
  `infected`, `daysLeftInfected`, `willDie`, `deathDay`, `immune` and `dead`.
  Its methods move it, count down its infection, and make it infected,
  immune or dead. `shouldDie` compares the death day with the countdown.
  The object updates its own fields, so it is the class `Balls.Ball`.
  `Ball.State()` returns the value of all fields as a `Particle` datatype.
  Each method's contract says which `Particle` transition it applies.
  Lemmas about those transitions state how the methods compose.
- **The single bouncing ball** (`js/script.js`, module `SingleBall` in
  `script.dfy`). At start-up the ball is placed at the canvas centre with a
  random speed and direction on each axis. Each animation frame moves the
  ball by its velocity. Then four wall checks may negate a velocity
  component. The module-level variables of the script are the fields of
  the class `SingleBall.Simulation`. `Start` models `startSimulationLoop`
  and `UpdateCanvas` models the motion part of `updateCanvas`. Both are
  specified by pure functions (`SpeedDraw`, `NegateDraw`, `Bounce`, `Frame`),
  and lemmas prove what those functions guarantee over any number of frames.

JavaScript numbers for positions and velocities are exact `real`s. The
source only adds, compares and negates them. Day counts are `int`s. A
field that JavaScript may hold as `null` (`daysLeftInfected`, `deathDay`) is
an `Option<int>`. Arithmetic on `null` reads it as 0, as JavaScript does, and
`===` is equality of the two `Option` values. So `shouldDie` is also true
when both fields are `null`. `Math.random()` results are parameters in
`[0, 1)`, and `Math.floor` is Dafny's `.Floor`.

Proved beyond the single-call contracts:

- After `makeDead`, no number of moves changes the position.
- A one-day-at-a-time countdown from `k` first satisfies `shouldDie` after
  exactly `k - d` days, where `d` is the death day. A countdown that jumps
  over the death day never satisfies it.
- `makeInfected` keeps the health flags mutually exclusive exactly when the
  ball is neither immune nor dead. `makeImmune` keeps them exclusive exactly
  when the ball is not dead. `makeDead` always leaves only `dead` set.
- On a canvas at least `BALL_SIZE_PX` wide, at most one wall check per axis
  fires. A velocity is negated exactly when the ball is past a wall and
  moving toward it.
- A ball started at the centre keeps its speed on each axis forever.
  Its centre never leaves `[2.5 - |v|, extent - 2.5 + |v|]`, so its edge is
  never more than one frame's travel past a wall.

## Model

| member | source | states |
|---|---|---|
| `Balls.Ball.constructor` | js/ball.js:19-37 | every field equals its argument (`unsafeDistance` becomes `safeDistance`); `sizePx` is 6; `immune` and `dead` are false |
| `Balls.Ball.MoveByVelocity` | js/ball.js:39-42 | position gains the velocity; every other field, velocity included, is unchanged |
| `Balls.Ball.ReduceDaysInfected` | js/ball.js:44-46 | `daysLeftInfected` drops by exactly `byDays` (a `null` countdown counts as 0, so it becomes `-byDays`); nothing else changes |
| `Balls.Ball.MakeInfected` | js/ball.js:48-51 | sets `infected` and `daysLeftInfected := recoveryInDays`; immune, dead, willDie, deathDay, position and velocity are unchanged |
| `Balls.Ball.MakeImmune` | js/ball.js:53-59 | clears `infected` and `willDie`, sets `immune`, countdown 0, `deathDay` null; dead, position and velocity are unchanged |
| `Balls.Ball.MakeDead` | js/ball.js:61-68 | sets `dead`, clears `infected` and `immune`, countdown 0, both velocities 0; position, willDie and deathDay are unchanged |
| `Balls.Ball.ShouldDie` | js/ball.js:70-72 | true exactly when death day and countdown are the same number or both null (strict equality, not at-or-below) |
| `Balls.StationaryStaysPut` | js/ball.js:39-42 | a ball with zero velocity is unchanged by any number of moves |
| `Balls.DeadBallNeverMoves` | js/ball.js:39-68 | after `makeDead`, any number of `moveByVelocity` calls leave the position where it was |
| `Balls.KilledIsDeadOnly` | js/ball.js:61-68 | after `makeDead` exactly one health flag (dead) holds; position, willDie and deathDay are kept |
| `Balls.HealthExclusivePreserved` | js/ball.js:39-68 | moving, counting down and dying keep the health flags exclusive; infecting keeps them iff the ball is neither immune nor dead; immunising keeps them iff the ball is not dead |
| `Balls.ImmuneShouldNotDie` | js/ball.js:53-72 | right after `makeImmune`, `shouldDie` is false and `willDie` is false |
| `Balls.ReducedDailyCount` | js/ball.js:44-46 | `n` one-day reductions lower a numeric countdown by exactly `n` and change nothing else |
| `Balls.DailyCountdownHitsDeathDay` | js/ball.js:44-72 | counting down daily from `k` with death day `d`, `shouldDie` holds after `n` days iff `n == k - d` (so never when `d > k`) |
| `Balls.SkippedDeathDayNeverDies` | js/ball.js:44-72 | a reduction that jumps from above the death day to below it leaves `shouldDie` false |
| `SingleBall.SpeedDraw` | js/script.js:39-40 | the floored speed draw is a whole number from 25 to 99, the floor of `random * 75 + 25` |
| `SingleBall.SpeedDrawCoversRange` | js/script.js:39-40 | every whole number from 25 to 99 is the speed for some random value in `[0, 1)` |
| `SingleBall.NegateDraw` | js/script.js:43-46 | the direction draw negates exactly when the random value is below one half |
| `SingleBall.Simulation.Start` | js/script.js:35-48 | the ball starts at the canvas centre; each velocity is `k / FRAMES_PER_SECOND` for that axis's speed draw `k`, negated exactly when its direction draw is 0 |
| `SingleBall.Bounce` | js/script.js:58-63 | one axis's two wall checks only ever negate the velocity, and only when the ball is past a wall while moving toward it |
| `SingleBall.Simulation.UpdateCanvas` | js/script.js:53-69 | position gains the old velocity before any check; each velocity is then bounced on its own axis; canvas size is unchanged |
| `SingleBall.BounceExactly` | js/script.js:58-69 | on an axis at least `BALL_SIZE_PX` long, the two checks never both fire, and the velocity is negated iff the ball is past a wall moving toward it |
| `SingleBall.MovingAwayNotReflected` | js/script.js:58-69 | a ball moving away from a wall (or still) is not reflected by it, however far past it the ball is |
| `SingleBall.NarrowCanvasFlipsTwice` | js/script.js:58-63 | on an axis shorter than the ball, both checks can fire in one frame and cancel out |
| `SingleBall.FrameAxesIndependent` | js/script.js:53-69 | a frame moves by the pre-frame velocity; each axis's new velocity depends only on that axis; both speeds are kept |
| `SingleBall.CornerBouncesBothAxes` | js/script.js:58-69 | a ball heading into a corner is reflected on both axes in one frame |
| `SingleBall.AxisStaysInPlay` | js/script.js:53-69 | one frame keeps an axis "in play": at most one frame's travel past a wall, and then only while moving away |
| `SingleBall.FramesStayInPlay` | js/script.js:53-69 | over any number of frames an in-play ball stays in play and keeps its speed on each axis |
| `SingleBall.CentredBallStaysOnCanvas` | js/script.js:35-69 | a ball started at the centre stays within `[2.5 - abs(v), extent - 2.5 + abs(v)]` on each axis and keeps its starting speed on each axis, after any number of frames |

## Left out

- Canvas lookup and drawing (`getElementById`, `getContext`, `fillRect`, `arc`, `stroke`, js/script.js:28-29 and 71-82) are presentation I/O.
- The `setInterval` game loop (js/script.js:32) is scheduling. One frame is `UpdateCanvas`, and the lemmas iterate frames with `Frames`.
- `Math.random()` is not modelled. Its results are parameters, and the constructor requires each to lie in `[0, 1)`, which is what `Math.random` guarantees.
- IEEE double rounding is not modelled. Positions and velocities are exact reals, so `k / 30` and sums of such values are exact.
- Canvas sizes are naturals (the DOM's `canvas.width` and `canvas.height` are non-negative integers). The canvas-size properties require a canvas at least `BALL_SIZE_PX` (5) on the axis. `NarrowCanvasFlipsTwice` shows what happens otherwise.
- The model fixes the types of the ball fields: booleans for the flags, reals for position, velocity and safe distance, and whole numbers or `null` for day counts. JavaScript accepts any value there (`undefined`, a fractional day count, a string); those are not modelled.
- `Balls.Ball.ShouldDie`: the model covers number-or-null operands only. With `undefined` or a non-numeric value, `===` could behave differently.
- The pairwise infection scan, the day clock, the order of daily health transitions, the population factory and the controller are not in `js/ball.js` or `js/script.js`. They are not part of this model.

## Notes on the source

- `willDie` and `deathDay` can change after construction: `makeImmune` sets them to false and `null` (js/ball.js:56-58).
- No method enforces a single health state: `makeInfected` does not clear `immune` or `dead`, and `makeImmune` does not clear `dead` (js/ball.js:48-59). `HealthExclusivePreserved` states, in both directions, when exclusivity survives each method.
- The script draws the ball with radius `BALL_SIZE_PX` (js/script.js:77), but the wall checks use `BALL_SIZE_PX / 2` (js/script.js:58-69). A drawn ball can therefore overlap a wall before it bounces. The model follows the checks as written.
