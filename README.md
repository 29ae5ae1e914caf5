# Runner: recycling obstacle pool and linear tween

This project models the two parts of the Runner endless-runner game that carry logic, and proves properties about them.

- **The recycling pool of `Game`** (`game.dfy`, module `Runner`). Ten obstacles and ten bonuses are set up once. Their group scrolls towards the player at `speedZ = 15` units per second. Each frame, any child whose relative z (`position.z + offset`) has passed 0 is set up again, in place, 100 to 200 units ahead and within 30 units of the ship's x. Children are records held in a fixed `array<Entity>` owned by the `Game` class. `setupObstacle` and `setupBonus` are functions that return the child with only its scale and position replaced (and, for a bonus, its hue). `updateGrid` writes each child's array slot in place.
- **The `Lerp` tween** (`lerp.dfy`, module `Tween`). This is a class with `time`, `value` and the two callbacks. `update` interpolates with the progress `time / delay` taken before the call, then advances `time` by `timeDelta * (1 / delay)`. It notifies the update callback every time, and notifies the finish callback whenever `time >= delay`.

The model replaces outside inputs with parameters:

- **Random numbers:** each `Math.random()` value is an explicit draw `r` with `0 <= r < 1`. `ObstacleDraws` holds the draws `setupObstacle` uses and `BonusDraws` the ones `setupBonus` uses. `Draws` holds the draws a child would use if it is recycled this frame.
- **Clock:** `THREE.Clock.getDelta()` becomes the `delta` parameter of `Game.Update`. It is required to be non-negative, as a clock delta is.
- **Callbacks:** a registered callback is an identifier. Each call it would receive is appended to the ghost sequence `notifications`.

The `Game` invariant `Valid()` states the following:

- The pool has twenty children, obstacles first.
- The offset is `15 * time`.
- Every child has the shape its setup gives it. For an obstacle, each scale component is in [0.5, 2). For a bonus, the scale is uniform and in [0.125, 0.5), and the hue is `0.5 + size`, which puts it in [0.625, 1). Every child rests on the ground (`y == scale.y / 2`).
- Every child lies within 30 units of the ship's x.
- Every child's relative z lies in (-200, 0].

`Game.Update` keeps this invariant.

## Behaviour of the code worth knowing

- `randomInt` (game.js:261-265) rounds its bounds but not its result, so a bonus price is a real in [5, 20). `PriceNeedNotBeWhole` shows the draw 0.5 giving 12.5.
- A bonus's price is kept only through its size and hue; the child records nothing else about it.
- `checkCollision`, `updateInfo` and `gameOver` (game.js:50-54) are empty, so a frame changes only the time, the offset and the recycled children.
- Nothing in game.js moves the ship (the key handlers at game.js:23-25 are empty), so `shipX` is a constant 0.
- `Lerp` keeps `time` in units of `1 / delay` but compares it with `delay` (lerp.js:10, 19, 23). From a fresh tween with `delay > 0`, the last update of a run finishes exactly when the run's deltas sum to at least `delay * delay` (`FinishThreshold` for one delta, `RunFinishThreshold` for a run).
- The value reported on a call is computed from the progress before that call's advance (lerp.js:16-19), so the call that first reaches finish still reports the old progress.
- Nothing clamps the progress, so a later call extrapolates past `to` (`Interpolate`, `TiltOvershoots`).
- `delete this` (lerp.js:25) does not stop the tween. With `delay > 0`, every later call with a non-negative delta fires finish again (`RunFinishedFrom`, `RunFinishSticks`). With `delay < 0` a non-negative delta moves `time` down, so finish can stop firing.
- A negative delay is accepted, as in lerp.js.

## Model

| member | source | states |
|---|---|---|
| Runner.RandomFloat | game.js:257-259 | for a draw in [0, 1) the result lies in [min, max], and strictly below max when min < max; with inverted bounds it lies in (max, min] |
| Runner.RandomInt | game.js:261-265 | the result is not rounded; when ceil(min) <= floor(max) it lies in [ceil(min), floor(max)], strictly below floor(max) when ceil(min) < floor(max); when no integer lies in [min, max] it lies in (floor(max), ceil(min)] |
| Runner.Price | game.js:241 | a bonus price drawn with randomInt(5, 20) lies in [5, 20) |
| Runner.PriceNeedNotBeWhole | game.js:262-264 | the draw 0.5 gives the price 12.5, which is not a whole number |
| Runner.SetupObstacle | game.js:215-227 | keeps the tag and hue; each scale component lies in [0.5, 2); y is half the y scale; x lies in [refX - 30, refX + 30) and z in (refZ - 200, refZ - 100] |
| Runner.SetupBonus | game.js:240-255 | keeps the tag; the scale is uniform, equal to price / 40, and in [0.125, 0.5); hue = 0.5 + size, which lies in [0.625, 1); y is half the y scale; x and z are placed as for an obstacle |
| Runner.BonusHueIncreasesWithPrice | game.js:241-247 | one bonus's hue is below another's if and only if its price is below the other's |
| Runner.Recycle | game.js:31-47 | a child with relative z <= 0 is left unchanged; any other child gets a fresh shape for its tag, is placed within 30 of the ship's x with relative z in (-200, -100], and keeps its tag (an obstacle also keeps its hue); afterwards relative z is <= 0 |
| Runner.RecycleKeepsSettled | game.js:29-46 | if the offset does not decrease, a settled child (shaped, within 30 of the ship, relative z in (-200, 0]) is still settled after one recycling pass |
| Runner.Game.constructor | game.js:187-199 | ten obstacles and then ten bonuses, each set up around the origin; time and offset are 0; the pool invariant holds |
| Runner.Game.UpdateGrid | game.js:27-48 | the offset becomes speedZ * time; every child of the same fixed array is passed through Recycle in place; nothing else changes |
| Runner.Game.Update | game.js:15-21 | time grows by exactly the delta; the offset never decreases; children are recycled as by UpdateGrid; the pool invariant is kept |
| Tween.Interpolate | lerp.js:16-17 | equals from at t = 0 and to at t = 1; lies between from and to for t in [0, 1]; for t > 1 it lies beyond to |
| Tween.InterpolateMonotone | lerp.js:16-17 | the interpolation is non-decreasing in t when from <= to and non-increasing when from >= to |
| Tween.ProgressNonDecreasing | lerp.js:16-19 | with a non-negative delta, the progress time / delay does not decrease across an advance, for either sign of delay |
| Tween.FinishThreshold | lerp.js:19-23 | from time 0 with delay > 0, a single delta reaches finish if and only if it is at least delay * delay |
| Tween.RunLastFinished | lerp.js:19-23 | the last update of a run reports finish exactly when the starting time plus the summed deltas divided by delay reaches delay |
| Tween.RunFinishThreshold | lerp.js:10-23 | from a fresh tween with delay > 0, the last update of a run reports finish if and only if the deltas sum to at least delay * delay |
| Tween.AdvanceKeepsDirection | lerp.js:16-23 | with a non-negative delta, the next value does not move against the direction from `from` to `to`, and with delay > 0 time does not decrease |
| Tween.RunStartsAtFrom | lerp.js:7-17 | the first update of a fresh tween reports exactly from |
| Tween.RunMonotone | lerp.js:15-20 | over any run of updates with non-negative deltas, the reported values are non-decreasing when from <= to and non-increasing when from >= to |
| Tween.RunFinishedFrom | lerp.js:19-26 | once time has reached delay > 0, every later update with a non-negative delta reports finish |
| Tween.RunFinishSticks | lerp.js:23-26 | with delay > 0 and non-negative deltas, an update that reports finish is followed only by updates that report finish |
| Tween.TiltOvershoots | lerp.js:15-26 | for from 0, to 0.349 and delay 0.8, an update of 0.8 already reports finish but still reports 0; the next update reports 0.43625, past to |
| Tween.Lerp.constructor | lerp.js:2-13 | requires delay != 0; stores from, to and delay; time = 0, value = from, lerpSpeed = 1 / delay; no callbacks and no notifications |
| Tween.Lerp.Update | lerp.js:15-27 | value is the interpolation at the progress before the call (so from on the first call); time grows by exactly timeDelta / delay; the update callback is notified with the value on every call, and the finish callback exactly when time >= delay; with a non-negative delta the next value does not move against the direction from `from` to `to`, and with delay > 0 a reached finish stays reached |
| Tween.Lerp.OnUpdate | lerp.js:29-33 | stores the callback and returns the same object; no other field changes |
| Tween.Lerp.OnFinish | lerp.js:35-39 | stores the callback and returns the same object; no other field changes |

## Left out

- Rendering is not modelled: meshes, materials, geometry prefabs, the ship model (`createShip`), the grid and its shader (`createGrid`), the `time` uniform written by `updateGrid`, and the camera. They have no behaviour beyond drawing. A bonus's hue is a plain field, and the `setHSL` call is not modelled.
- The obstacles' shared material colour is rendering data and is not modelled. An obstacle's `hue` field keeps its spawn value of 0.
- The `instanceof THREE.Mesh` test in `updateGrid` is not modelled. `traverse` also visits the group itself, which is not a mesh and is skipped; the pool array holds only the twenty meshes.
- Keyboard wiring and the empty `_keydown`/`_keyup` handlers are not modelled: they are input plumbing with no logic.
- The empty `checkCollision`, `updateInfo` and `gameOver` stubs do nothing and are not modelled.
- `Math.random` and `THREE.Clock` are foreign calls. They become draw parameters in [0, 1) and a non-negative delta.
- The order in which `updateGrid` uses random draws across children is not modelled. Each child is given its own draws, which it uses only if it is recycled.
- Floating-point rounding is not modelled. All arithmetic is on exact reals.
- Callbacks are not modelled as closures. A callback is an identifier, and its calls are recorded in `notifications`.
- A callback value that JavaScript treats as false is modelled as `None`.
- Tween.Lerp.constructor: excludes delay = 0, which lerp.js does not check. There the code divides by zero, so time and value become infinite or NaN. Exact reals cannot express this.
