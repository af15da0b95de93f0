# Slime mold agents and food sources, modelled in Dafny

This project models the two classes that hold the decision logic of the
SlimeMoldEats p5.js sketch:

- `Food` (food.js): a square food source whose `size`, `active` and
  `beingEaten` fields change under `update`, `consume` and `respawn`. It
  also has the point-in-square test `contains`, the linear nutrition
  falloff `getNutritionAt` and the snapshot `getInfo`.
- `Mold` (mold.js): one agent's per-frame `update`. That frame runs the
  staggered density-check counter, the move with bounce-and-clamp at the
  canvas edges, and the sensor points clamped to a 1-pixel inset. It reads
  the pixels under the sensors, adds food nutrition and eats the food
  underfoot. It then sets the heading by a priority chain: edge avoidance
  first, then dispersal, then trail following. It also covers the two
  bounded wraparound neighbour scans `checkDispersalBehavior` and
  `applyDispersalForce`.

Files and modules:

- `common.dfy`, module `Common`: p5's `constrain`, `map`, `min` and `max`;
  an optional argument; a point; and `Reading`, a JavaScript number that
  may be NaN, with `+` and `>` as JavaScript evaluates them.
- `food.dfy`, module `FoodSource`: the value `FoodState` and the functions
  `Spawn`, `AfterUpdate`, `AfterConsume`, `AfterRespawn`, `Covers`,
  `NutritionAt` and `Info` that say what each operation does. Lemmas
  cover the nutrition falloff and runs of many calls. The class `Food`
  has methods proved to perform those functions on its fields.
- `dispersal.dfy`, module `Dispersal`: the wraparound scan order, the
  density check and the force scan. Each scan is a method over an array of
  mold positions, proved equal to a recursive function. Lemmas relate the
  capped density scan to an exact count over the whole population. The module
  also holds the `while`-loop normalisation of the heading difference.
- `mold_spec.dfy`, module `MoldStep`: one call of `update()` as the
  function `Step`, built from one function per phase, with lemmas about it.
- `mold.dfy`, module `MoldAgent`: the class `Mold` with the source's
  fields. Its `Update` changes them in place, phase by phase. Each phase
  method is proved to perform its `MoldStep` function, and `Update` is
  proved to perform `Step`. The sensor positions are separate `SensorPos`
  objects that `GetSensorPos` writes into.

What the environment supplies becomes an input:

- `cos`, `sin`, `atan2` and `sqrt` are the function fields of
  `MoldStep.Math`, in degrees as the sketch's `angleMode(DEGREES)` sets.
  `dist(a, b)` is `sqrt` of the squared distance. Wherever a division by
  the distance occurs, `sqrt` is required to be a square root.
- `random` draws are arguments. `Draws` holds the two scan start indices
  and the coin of the trail-following tie-break. The constructor takes the
  initial heading and the stagger draw.
- The `pixels` buffer is an array of channel values, `d` is the pixel
  density, and `w`, `h` are the canvas width and height.
- The global `molds` list is an array of positions, with the mold itself
  at index `self`. The global `foods` list is a sequence of distinct
  `Food` objects.
- Numbers are `real`, with no rounding. A NaN is modelled where the code
  can produce one: a food eaten down to size 0 is still active until its
  next `update`. A sensor exactly at its centre then gets
  `map(0, 0, 0, 1, 0.3)`, which divides 0 by 0. Such a NaN loses every
  comparison in the trail-following chain (`EatenFoodBlindsSensor`).

Some behaviours of the code are easy to misread; the model follows the code:

- The heading is never normalised into [0, 360). The constructor draws it
  in 0..360 (the comment at mold.js:11), but reflections, edge turns and
  dispersal produce any real number. The top/bottom edge rules compare
  that raw value with 180.
- The comment at food.js:36 says food regenerates "when not being eaten".
  But `update()` resets `beingEaten` at food.js:31, before that test, and
  `checkMoldInteraction` (food.js:49-52) is empty. So regeneration is never
  gated by consumption. `SingleEaterNeverDepletes` shows the consequence: a
  default-size food with one mold on it settles at 49 and never
  deactivates.
- There is no trail-field object. The trail is the rendered framebuffer.
  `loadPixels()` runs once per frame, before any mold updates
  (sketch.js:62-63). Each mold's `display()` (sketch.js:73, mold.js:184)
  draws onto the canvas, not into `pixels`. So every mold in a frame reads
  the same `pixels` snapshot, as the model's single `pixels` input does.
  What does depend on the order of the molds is the food state, since
  earlier molds' `consume(1)` (mold.js:111-112) changes what later molds
  read, and the positions in `molds` that the dispersal scans read.
- `respawn` and the constructor accept any position. Out-of-bounds spawns
  are not rejected.
- The collision test (mold.js:61, mold.js:70) treats `x <= 0` and
  `x >= w - 1` as crossings, and clamps a crossing into `[1, w - 2]`. So
  after a move the position is strictly inside `(0, w-1) × (0, h-1)`,
  never on the last row or column of the canvas.

## Model

| member | source | states |
|---|---|---|
| `FoodSource.Spawn` | food.js:3-24 | A new food is active and not being eaten. Its size is the given one, or 50 when absent. `originalSize` and `maxRegeneration` equal that size. |
| `FoodSource.AfterUpdate` | food.js:27-46 | Inactive food is unchanged. Active food has `beingEaten` reset. Below the cap it grows to `min(size + 1, maxRegeneration)`. The size never shrinks, never rises past the cap when it started at or below it, and is kept when above the cap. Afterwards `active` holds iff the food was active and `size > minSize`. Only size, active and beingEaten change. |
| `FoodSource.EffectiveAmount` | food.js:59 | JavaScript's logical or picks the rate: a missing or zero amount falls back to `consumptionRate`. Any other amount is used as given. |
| `FoodSource.AfterConsume` | food.js:55-64 | Inactive food: returns false and changes nothing. Active food: sets `beingEaten`, sets `size := max(0, size - a)` and changes nothing else. The size never goes negative and strictly drops for a positive `a` while positive. The result is true iff the new size is positive. |
| `FoodSource.Covers` | food.js:67-74 | A covered point implies an active food of non-negative size. The centre is covered iff the food is active and its size is non-negative. |
| `FoodSource.NutritionAt` | food.js:77-87 | The value is 0 off the square. It is NaN exactly on a covered square of size 0. On a square of positive size, within distance `size/2` of the centre, it lies between `0.3·255` and 255. |
| `FoodSource.NutritionCases` | food.js:77-87 | The value is 0 off the square. On a square of positive size it is `255·(1 - 0.7·dst/(size/2))`. It is NaN exactly on a covered square of size 0. |
| `FoodSource.NutritionPeakAtCentre` | food.js:78-86 | At the centre, at distance 0, active food of positive size gives 255. |
| `FoodSource.NutritionFloorAtHalfSide` | food.js:78-86 | At distance `size/2` from the centre the value is `0.3·255`. |
| `FoodSource.NutritionNonIncreasing` | food.js:78-86 | On a food of positive size the value never increases with distance. |
| `FoodSource.AfterRespawn` | food.js:117-123 | Respawn activates the food and clears `beingEaten`. It takes the new position, and the given size or else `originalSize`. `originalSize` and `maxRegeneration` are unchanged. |
| `FoodSource.Info` | food.js:126-134 | The snapshot reports the position, size, active flag and the nutrition value 255. |
| `FoodSource.InactiveIsAbsorbing` | food.js:27-64 | Once inactive, any sequence of updates and consumptions leaves every field as it is. Only `respawn` reactivates the food. |
| `FoodSource.RunKeepsBounds` | food.js:27-123 | If no call supplies a negative amount or a negative or oversized respawn size, `0 <= size <= maxRegeneration == originalSize` holds after any sequence of calls. |
| `FoodSource.SingleEaterNeverDepletes` | food.js:30-45 | A default-size food hit by one `consume(1)` per frame stays active at size 49, because regeneration is not gated. |
| `FoodSource.Food.constructor` | food.js:3-24 | The fields are those of `Spawn`. |
| `FoodSource.Food.Update` | food.js:27-46 | The fields change as `AfterUpdate` says. |
| `FoodSource.Food.CheckMoldInteraction` | food.js:49-52 | Changes nothing. |
| `FoodSource.Food.Consume` | food.js:55-64 | The fields and the result are those of `AfterConsume`. |
| `FoodSource.Food.Contains` | food.js:67-74 | False when inactive. Otherwise true exactly on the closed axis-aligned square of side `size` centred at `(x, y)`. |
| `FoodSource.Food.GetNutritionAt` | food.js:77-87 | The value is 0 off the food. On a food of positive size it is the linear falloff from 255 at the centre. |
| `FoodSource.Food.Respawn` | food.js:117-123 | The fields change as `AfterRespawn` says. |
| `FoodSource.Food.GetInfo` | food.js:126-134 | The result is `Info` of the fields. |
| `Dispersal.WrapIsMod` | mold.js:218 | The visited index `Wrap(n, start, t)` is `(start + t) % n`. |
| `Dispersal.ScanVisitsOnce` | mold.js:217-222 | A scan stops at the first offset where all `n` indices have been tried or `cap` molds checked. It checks at most `cap` molds and never visits an index twice. |
| `Dispersal.CheckedCount` | mold.js:217-222 | Every visited index except `self` is checked: `checked` equals the number of offsets, minus one once `self` has been passed. |
| `Dispersal.Dense` | mold.js:207-242 | A dense verdict needs a population of at least 8 molds. |
| `Dispersal.ForceScan` | mold.js:257-285 | The number of contributing molds is at most the number of checked molds. |
| `Dispersal.ScanDensity` | mold.js:207-242 | The loop with its early exit at the eighth near mold returns `Dense`. That is: at least 8 of the at most 50 checked molds are at squared distance `< 25²`. |
| `Dispersal.FullSweepCountsAll` | mold.js:217-238 | An uncapped sweep from any start counts every other near mold exactly once. |
| `Dispersal.DenseIsExactForSmallPopulations` | mold.js:207-242 | With at most 51 molds the check is exact: it reports dispersing iff at least 8 other molds are near. |
| `Dispersal.DenseImpliesCluster` | mold.js:224-236 | For any population, a dense verdict means at least 8 other molds really are near. |
| `Dispersal.FewMoldsNeverDense` | mold.js:207-242 | A population of at most 8 molds never disperses. |
| `Dispersal.Away` | mold.js:271-281 | For a square-root `sqrt` and a neighbour with `1 < distSq < 25²`, the push has length exactly `map(distance, 0, 25, 2, 0)`, which is non-zero and below 2. It lies along `p - other` (zero cross product) and points away from the neighbour (positive dot product). |
| `Dispersal.StrengthDecreasing` | mold.js:277-278 | Closer means stronger: the weight `map(distance, 0, 25, 2, 0)` never grows as the distance grows. |
| `Dispersal.DistanceInRange` | mold.js:270-278 | For such a neighbour the distance lies in `(1, 25)` and the mapped strength in `(0, 2)`. |
| `Dispersal.Push` | mold.js:270-283 | A neighbour with `1 < distSq < 25²` adds exactly the `Away` vector to the sums and increments `count`. Any other neighbour leaves the accumulators unchanged. |
| `Dispersal.ForceCountZero` | mold.js:257-285 | `count` stays 0 iff no checked neighbour has `1 < distSq < 25²`. |
| `Dispersal.Repulsion` | mold.js:251-285 | At most 20 molds contribute to the force. |
| `Dispersal.ScanForce` | mold.js:245-285 | The loop's `(dispersalX, dispersalY, count)` equals `Repulsion`, the accumulation over the molds the capped scan checks. |
| `Dispersal.NormalizeDiff` | mold.js:298-299 | The normalised difference lies in [-180, 180]. A value already there is kept. 180 is kept, and -180 is reached only from below. |
| `Dispersal.NormalizeDiffIsWholeTurns` | mold.js:298-299 | Normalising adds a whole number of turns of 360. |
| `Dispersal.NormalizeAngle` | mold.js:298-299 | The two `while` loops compute `NormalizeDiff`. |
| `Dispersal.ForceHeading` | mold.js:287-303 | With no contributing neighbour the heading is unchanged. Otherwise it changes by at most `0.2·180 = 36` degrees. |
| `Dispersal.NoRepellerKeepsHeading` | mold.js:286-303 | If no other mold has `1 < distSq < 25²`, the dispersal force keeps the heading. |
| `MoldStep.CounterStep` | mold.js:38-42 | From a counter in 0..9 the next counter is `(c + 1) % 10`, and the check runs iff `c` was 9. |
| `MoldStep.ChecksOverRun` | mold.js:38-42 | After `k` frames from a counter `c` in 0..9, the counter is `(c + k) % 10` and the check has run `(c + k) / 10` times. |
| `MoldStep.StaggeredCheck` | mold.js:36-42 | Only the counter and `isDispersing` change. From a counter of at least 9 the counter resets to 0 and `isDispersing` becomes `Dense` at the current position. Below 9 the counter increments and `isDispersing` is kept. The mold can become dispersing only in a population of at least 8. |
| `MoldStep.OneCheckPerPeriod` | mold.js:38-42 | Any 10 consecutive frames hold exactly one density check. |
| `MoldStep.Move` | mold.js:57-78 | For `w, h >= 3` the moved position is strictly inside `(0, w-1) × (0, h-1)`. Without a crossing the mold moves by its velocity and keeps its heading and velocity. |
| `MoldStep.BounceX` | mold.js:61-68 | The vertical coordinate is untouched. Without a side crossing nothing changes. A crossing reflects the heading to `180 - heading`, sets the velocity to that of the new heading and, for `w >= 3`, clamps into `[1, w-2]`. |
| `MoldStep.BounceY` | mold.js:70-75 | The horizontal coordinate is untouched. Without a top/bottom crossing nothing changes. A crossing negates the heading, sets the velocity to that of the new heading and, for `h >= 3`, clamps into `[1, h-2]`. |
| `MoldStep.MoveInside` | mold.js:57-78 | For `w, h >= 3` the moved position is strictly inside `(0, w-1) × (0, h-1)`. An axis without a crossing moves by the velocity. A crossing clamps to 1 or to `w-2` (respectively `h-2`). |
| `MoldStep.MoveReflects` | mold.js:61-74 | With no crossing, the heading and velocity are kept. A side crossing gives `180 - heading` and a top/bottom crossing gives `-heading`. A corner applies both in sequence, giving `heading - 180`. After any crossing the velocity is that of the new heading. |
| `MoldStep.ControlMovement` | mold.js:44-53 | Only the velocity changes: to 0 for a stopped mold, otherwise to `(cos, sin)` of the heading. |
| `MoldStep.Collide` | mold.js:55-78 | `stop`, `isDispersing` and the counter are kept. For `w, h >= 3` the position ends strictly inside the canvas. Without a crossing the mold just moves by its velocity. |
| `MoldStep.Advance` | mold.js:44-78 | `stop`, `isDispersing` and the counter are kept, and the position ends strictly inside the canvas. A stopped mold already inside stays put with its heading and zero velocity. |
| `MoldStep.SensorPoint` | mold.js:198-203 | The sensor point lies in `[1, w-2] × [1, h-2]`. It is the point `10` ahead along the angle whenever that point already lies there. |
| `MoldStep.SensorPoints` | mold.js:80-84 | The right, left and forward sensors, at `heading + 45`, `heading - 45` and `heading`, all lie in the 1-pixel inset. |
| `MoldStep.PixelIndex` | mold.js:91-99 | The index is a multiple of 4, the red channel of a pixel. |
| `MoldStep.PixelIndexInBounds` | mold.js:91-99 | For an integer density `d >= 1`, a point in the inset has a pixel index that is a non-negative multiple of 4 and below `4·(d·w)·(d·h)`. |
| `MoldStep.SignalsPerSensor` | mold.js:104-109 | The foods loop on three readings at once equals each sensor's own sum over the foods. |
| `MoldStep.Signal` | mold.js:104-109 | A NaN reading stays NaN whatever the foods add. |
| `MoldStep.SignalIgnoresUncovered` | mold.js:104-109 | Foods whose squares do not hold the sensor point leave the reading unchanged. |
| `MoldStep.EatenFoodBlindsSensor` | mold.js:104-109 | A covered food of size 0 makes the reading NaN. |
| `MoldStep.EatOne` | mold.js:110-113 | The food keeps its position and `active` flag, and its size never grows. Off the food nothing changes. On it, `beingEaten` is set and the size becomes `max(0, size - 1)`. |
| `MoldStep.Eaten` | mold.js:104-114 | The visit keeps the number of foods. What happens to each food is stated by `EatenPointwise`. |
| `MoldStep.EatenPointwise` | mold.js:110-113 | After the visit, food `k` is food `k` with one `consume(1)` if its square holds the mold, and unchanged otherwise. |
| `MoldStep.Sense` | mold.js:88-109 | When no food covers the sensor point, the reading is the red channel under it. When a covered food has size 0, the reading is NaN. |
| `MoldStep.SideTurn` | mold.js:122-130 | Within 20 of the left edge the heading turns by `+45`. Otherwise, within 20 of the right edge it turns by `-45`. Otherwise it is kept. |
| `MoldStep.AvoidEdges` | mold.js:119-148 | Fires iff the mold is within 20 of an edge, and otherwise keeps the heading. Near the top edge the heading becomes 315 or 45, 315 iff the side-adjusted heading is above 180. Near the bottom it becomes 135 or 225, 135 iff that heading is below 180. |
| `MoldStep.FollowTrail` | mold.js:157-174 | The heading changes by exactly one of `-45`, `0`, `+45`. It is kept when `f > l` and `f > r`. When `f` is below both, the coin picks the side. It is kept when `l == r` and `f` is not below both. Otherwise it turns left iff `l > r` and right iff `r > l`. NaN loses every comparison. |
| `MoldStep.Steer` | mold.js:150-175 | Near an edge the heading is the edge rule's and nothing else. Otherwise a dispersing mold turns by at most 36, and any other mold by exactly one of `-45`, `0`, `+45`. |
| `MoldStep.Step` | mold.js:35-178 | One `update()` keeps `stop` and the number of foods. Its properties are stated by the `Step*` lemmas. |
| `MoldStep.StepCounter` | mold.js:36-42 | The counter stays in 0..9 and becomes `(c + 1) % 10`. `isDispersing` is recomputed, at the pre-move position, exactly when the counter was 9. Otherwise it is kept. |
| `MoldStep.StepStaysInside` | mold.js:44-78 | After a frame the mold is strictly inside `(0, w-1) × (0, h-1)`. A stopped mold already inside stays put with zero velocity. |
| `MoldStep.StepSensorsInside` | mold.js:80-84 | After a frame all three sensor points lie in `[1, w-2] × [1, h-2]`. |
| `MoldStep.StepEatsUnderfoot` | mold.js:110-113 | Only foods whose square holds the moved mold are eaten, each by one `consume(1)`. |
| `MoldStep.EdgeAvoidanceWins` | mold.js:150-175 | When the moved mold is near an edge, the final heading depends neither on the pixels nor on the neighbours nor on the random draws. |
| `MoldAgent.SensorPos.constructor` | mold.js:26-28 | A sensor position starts at `(0, 0)`. |
| `MoldAgent.VisitFood` | mold.js:105-114 | One pass of the foods loop adds the food's nutrition at each sensor. It eats one unit iff the food holds the mold. |
| `MoldAgent.VisitFoods` | mold.js:104-115 | The loop's readings are `Signals` over all foods. Every food ends as `EatOne` of its state before. |
| `MoldAgent.Mold.constructor` | mold.js:3-32 | The position is the start point. The heading is the drawn one and the velocity is `(cos, sin)` of it. The mold is not stopped and not dispersing. The counter is `floor` of the stagger draw, in 0..9. There are three distinct sensors at `(0, 0)`. |
| `MoldAgent.Mold.GetSensorPos` | mold.js:198-203 | The sensor is moved to `SensorPoint` of the mold's position and the angle. |
| `MoldAgent.Mold.CheckDispersalBehavior` | mold.js:207-242 | Only `isDispersing` changes, to `Dense` at the mold's position. |
| `MoldAgent.Mold.ApplyDispersalForce` | mold.js:245-304 | Only the heading changes, to `ForceHeading` of the scan's `Repulsion`. |
| `MoldAgent.Mold.ReadPixel` | mold.js:90-100 | For a sensor in the inset the index lies inside the buffer, and the reading is the channel at `PixelIndex`. |
| `MoldAgent.Mold.AvoidEdge` | mold.js:119-148 | The heading and the `edgeAvoidance` flag are those of `AvoidEdges`. Nothing else changes. |
| `MoldAgent.Mold.FollowTrail` | mold.js:157-174 | Only the heading changes, as `MoldStep.FollowTrail` says. |
| `MoldAgent.Mold.Steer` | mold.js:150-175 | Only the heading changes, as `MoldStep.Steer` says. |
| `MoldAgent.Mold.TickCounter` | mold.js:36-42 | The counter and `isDispersing` change as `StaggeredCheck` says. |
| `MoldAgent.Mold.ControlMovement` | mold.js:44-53 | A stopped mold gets velocity 0. Any other gets `(cos, sin)` of its heading. |
| `MoldAgent.Mold.Collide` | mold.js:55-78 | The position, heading and velocity change as the move with bounces says. |
| `MoldAgent.Mold.PlaceSensors` | mold.js:80-84 | The three sensors move to `SensorPoints` of the new state. |
| `MoldAgent.Mold.ReadSensors` | mold.js:86-115 | Each reading is the pixel under the sensor plus every food's nutrition, taken before this mold eats. Every food holding the mold is eaten by one unit. |
| `MoldAgent.Mold.Move` | mold.js:36-84 | The first half of the frame: counter, movement, bounce and sensors. The class invariant is kept. |
| `MoldAgent.Mold.SenseAndSteer` | mold.js:86-175 | The second half of the frame: readings, eating and the heading by the priority chain. |
| `MoldAgent.Mold.Update` | mold.js:35-178 | One frame changes the mold, its sensors and the foods exactly as `Step` says, and keeps the class invariant (counter in 0..9). |

## Left out

- `display()` of both classes (mold.js:181-194, food.js:90-114) is rendering only. The colour, alpha and radius fields serve only that rendering.
- sketch.js (canvas setup, `draw`, mouse and key input, video recording, `getTimestamp`) is not part of this model. Its frame order (foods updated, then molds) is a loop over the two classes.
- The trail itself is not modelled. It is made by drawing the molds and fading the canvas with `background(0, 5)` before `loadPixels()`. The pixel buffer is an input array of channel values.
- `cos`, `sin`, `atan2` and `sqrt` are uninterpreted inputs. Apart from `sqrt` being required to be a square root for the whole frame (`Surroundings`), nothing about them is assumed.
- Every `random` draw is an argument: the initial heading and stagger, the scan start indices, the coin, the default food position when `x`/`y` are absent, and the default mold position `random(width)`/`random(height)` when `startX`/`startY` are absent (mold.js:6-7). The mold constructor always takes a start point, as sketch.js:52 always passes one.
- The live `molds` list is a snapshot array of positions that the caller supplies. Molds already moved earlier in the same frame appear wherever the caller places them. Object identity (`other === this`) is the index `self`.
- The `typeof molds/foods === 'undefined'` guards are not modelled. Both collections are always passed.
- Floating point is not modelled. Numbers are exact reals, with no rounding, overflow or infinities. NaN is modelled only where the code can produce it.
- The pixel density `d` is required to be an integer of at least 1. A fractional `pixelDensity()` is not modelled.
- The mold's `stop` flag is never set by the source. It is kept as a field with its effect on velocity.
- `Dispersal.ForceHeading`: it does not state that the turn goes towards `atan2` of the average push, because `atan2` is an uninterpreted input. It states only the unchanged case and the 36-degree bound.
- `MoldStep.Step`: its own contract states only that `stop` and the number of foods are kept. The frame's properties are in the `Step*` lemmas and in the contract of `MoldAgent.Mold.Update`.
