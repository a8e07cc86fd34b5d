# VaporRacer core, modelled in Dafny

VaporRacer is a three.js endless racer. The car switches between three
lanes and two heights, and obstacles scroll towards it. The game runs
through three levels in turn: an asteroid field, a solar system of planets
and a comet trail. A charge that fills up between levels unlocks a
300-frame hyperdrive sequence. A pause menu stops the level clock.

This project models the game's discrete control state and the arithmetic
that moves things. Meshes become records of real-valued positions and
rotations.

- `common.dfy`, module `Common`: `Option`, `Abs`, `Math.round` as `Round`, and draws in [0, 1) as `Unit`.
- `composer.dfy`, module `Effects`: the post-processing composer's list of passes.
- `car.dfy`, module `Vehicle`: the vehicle controller (`Solution/car.js`), as class `Car`.
  - Lane commands, including the double lane change.
  - Height commands.
  - The eased lane and height animations, with lemmas that they land on their targets.
  - The speed ramp, the crash and the wreck physics.
  - The collision decision.
- `obstacles.dfy`, module `ObstacleField`: the obstacle field director (`Solution/obstacles.js`), as class `Obstacles`.
  - The level state machine.
  - Per-level scrolling, comet trails, recycling and draining.
  - Repopulation and the rotation rule table.
- `hyperdrive.dfy`, module `HyperdriveSequencer`: the hyperdrive (`Solution/hyperdrive.js`), as class `Hyperdrive`.
  - Its charge counter.
  - Its start / iterate / end lifecycle.
  - The tunnel particles' depth, angle and visibility.
- `scenery.dfy`, module `Terrain`: the scenery helpers (`Solution/scenery.js`).
  - `rgbToHex` with its hex round trip, and `scale`.
  - Building recycling.
  - The two-panel floor cycle.
  - The flat centre of `generateHeight`.
  - The mutable part is class `Scenery`.
- `menu.dfy`, module `PauseMenu`: the pause menu (`Solution/menu.js`), as class `Menu`.
  - The pause toggle and its clock shift.
  - Button sliding.
  - Press dispatch over the names the raycaster hits.
  - Guide visibility. The menu's last button, the instructions panel, is the one `hideGuide` and `showGuide` act on; the model calls it the guide.

Inputs the game reads from outside are parameters of the model:

| Source | Modelled as |
|---|---|
| `Math.random()` | draws in [0, 1) supplied by the caller |
| `Math.sin` / `Math.cos` | function parameters `sine` and `cosine` |
| `new Date()` | an integer `now` |
| Perlin noise | a function parameter `noise` |
| the raycaster's per-corner results | a sequence of `Corner` values |
| the names of the meshes under the mouse | a sequence of strings |

Behaviours of the code that the model keeps as written:

- A lane change, even one doubled on the way, rolls the car through exactly one turn: the flip counter is capped at the lane-change length and the last weight is zero (`Solution/car.js:393-421`).
- `reset` leaves the double-shift flag `double` as it was (`Solution/car.js:128-167`).
- The drain loop of `move` uses `splice` inside a forward `for` loop (`Solution/obstacles.js:225-235`). It skips the obstacle that slides into the removed slot on that tick; `DrainSkipsNext` states this.
- The second branch of `moveFloors` rebuilds floor 1 behind floor 2, as written (`Solution/scenery.js:462-465`).

## Model

| member | source | states |
|---|---|---|
| Effects.Without | Solution/hyperdrive.js:189-190 | removing a pass that is absent changes nothing; removing one that is present shortens the list by one |
| Effects.WithoutRemovesOne | Solution/hyperdrive.js:189-190 | the removal takes out exactly one copy of the pass and keeps every other pass (multiset difference) |
| Effects.AddThenRemove | Solution/hyperdrive.js:169-170 | adding a pass the composer did not hold and removing it again gives back the original pass list in order |
| Effects.Composer.constructor | Solution/hyperdrive.js:169-170 | a composer starts with the passes it is given |
| Effects.Composer.AddPass | Solution/hyperdrive.js:169-170 | the pass is appended at the end |
| Effects.Composer.RemovePass | Solution/hyperdrive.js:189-190 | the first copy of the pass is removed |
| Vehicle.Weight | Solution/car.js:396-401 | every animation weight is non-negative, and the weight of the last step is zero |
| Vehicle.NumeratorsClosed | Solution/car.js:394-413 | the first k weight numerators add up to T(n) - T(n-k), with T the triangular number |
| Vehicle.ProgressScaled | Solution/car.js:394-413 | the weights of the first k steps add up to that closed form divided by T(n) |
| Vehicle.ProgressFull | Solution/car.js:394-413 | the n weights of an n-step animation sum to exactly 1 |
| Vehicle.EasedAdvance | Solution/car.js:394-399 | one animation step moves the position from the k-step eased point to the (k+1)-step eased point |
| Vehicle.EasedIsProgress | Solution/car.js:394-413 | after k steps the position is start + (target - start) times the summed weights |
| Vehicle.EasedLands | Solution/car.js:394-422 | after all n steps the eased position is exactly the target |
| Vehicle.PitchDriftClosed | Solution/car.js:441-448 | the pitch change after k steps of a height change is 0.0005 k (k - 28) |
| Vehicle.PitchReturnsLevel | Solution/car.js:441-461 | over a full 28-step height change the pitch increments sum to zero |
| Vehicle.SpeedRamp | Solution/car.js:362-370 | below the cap the speed rises strictly and stays below the cap; below 75 it rises strictly; at or above the cap it is unchanged |
| Vehicle.LaneChangeItersFor | Solution/car.js:372-373 | for speeds between 75 and the cap of 300, the lane-change length is between 15 and 37 steps |
| Vehicle.DebrisColour | Solution/car.js:224-234 | an explosion particle is one of four colours; black exactly when the draw is below 0.25; yellow exactly when it is at least 0.75 |
| Vehicle.DebrisStep | Solution/car.js:291-303 | a particle at height 50 or above lowers its elevation angle by 0.05 and keeps its heading; one below 50 stays where it is |
| Vehicle.EngineStep | Solution/car.js:319-345 | a resting engine stays at rest; above the floor, a falling engine drops by its fall speed and falls 1.5 faster; at the floor the speed is damped to at most 0.8 of itself and the heading redrawn within plus or minus pi/8; a rebound slower than 10 becomes rest |
| Vehicle.Spark | Solution/car.js:216-248 | a new particle sits at the car with the colour its draw picks, a heading in [0, 2 pi) and an elevation in [0, pi/2) |
| Vehicle.Launch | Solution/car.js:251-257 | engine i starts at the engine mesh with direction -pi/24 + i pi/36 and a fall speed in [25, 75) |
| Vehicle.Relocate | Solution/car.js:276-281 | a relocated engine moves to the given point and keeps its rotation, direction and fall speed |
| Vehicle.Settle | Solution/car.js:314-316 | a wreck above the floor sinks but stays above it; one at or below the floor stays put |
| Vehicle.CollisionDetection | Solution/car.js:646-694 | a hit is reported iff some corner qualifies; it is the first qualifying corner in index order; the struck obstacle is that corner's nearest one; the struck obstacle is hidden iff there is a hit and the level is not the comet trail |
| Vehicle.LaneAdvances | Solution/car.js:394-416 | one animated tick keeps the lane invariant: the car stays on the eased path from start to target |
| Vehicle.Car.constructor | Solution/car.js:8-58 | a new car is at rest in the middle lane on the ground row, with speed 1 and the default 45-step lane change, and satisfies the car invariant |
| Vehicle.Car.GetPosition | Solution/car.js:699-701 | the column is 0..2 and the row 0 or 1; column 0 / 2 exactly when the lane being driven to (or held) is the left / right one |
| Vehicle.Car.MoveRight | Solution/car.js:583-609 | accepted iff no lane change runs and the car is not in the right lane, and then a change one lane right starts; otherwise a rightward change under half-flip is extended one more lane (step counter reset, flip kept, still not accepted); otherwise nothing changes; the invariant is kept |
| Vehicle.Car.MoveLeft | Solution/car.js:614-641 | the mirror image of MoveRight |
| Vehicle.Car.MoveUp | Solution/car.js:535-546 | accepted iff no height change runs and y < 950, and then a climb of 1000 to row 1 starts; a rejected call changes nothing |
| Vehicle.Car.MoveTo | Solution/car.js:551-562 | accepted iff no height change runs, and then a change to the given height in row 0 starts; a rejected call changes nothing |
| Vehicle.Car.MoveDown | Solution/car.js:567-578 | accepted iff no height change runs and y > 550, and then a descent of 1000 to row 0 starts; a rejected call changes nothing |
| Vehicle.Car.HorizontalMovement | Solution/car.js:392-423 | while steps remain, the step counter grows by one and x moves by that step's weight of the displacement and the car rolls by 2π times the flip weight, its sign set by the direction of travel; after the last step the lane snaps to the target and the change, double flag and counters clear, with x exactly on the target; when idle nothing moves |
| Vehicle.Car.AdvanceLane | Solution/car.js:394-413 | one step: the counters advance (the flip counter capped), x advances by the step's stride, and the car rolls by 2 pi times the flip weight against the direction of travel |
| Vehicle.Car.FinishLane | Solution/car.js:414-422 | the lane takes the target as its offset, the change ends, and x sits on the target |
| Vehicle.Car.VerticalMovement | Solution/car.js:429-463 | while steps remain, the counter grows by one, the height offset by that step's stride, y follows the offset and the pitch moves by 0.001(i - 13.5) against the climb; after the last step y is on the target, the pitch is back where it started and the change clears; when idle nothing moves |
| Vehicle.Car.AdvanceHeight | Solution/car.js:431-454 | one step: y follows the eased offset and the pitch moves by 0.001 (i - 13.5), against the direction of the climb |
| Vehicle.Car.FinishHeight | Solution/car.js:455-461 | y takes the target, the change and its counters clear, and the pitch equals its value before the change |
| Vehicle.Car.Cruise | Solution/car.js:357-382 | the car glides towards z = -2500 without passing it; the speed ramps and the lane-change length is recomputed only when no change runs; the sway phases and sway angles move only when no lane change runs |
| Vehicle.Car.Glide | Solution/car.js:357-359 | z moves 5% of the way to -2500 and nothing else about the mesh changes |
| Vehicle.Car.Accelerate | Solution/car.js:362-373 | the speed takes one ramp step, and above 75 the lane-change length follows the speed |
| Vehicle.Car.Sway | Solution/car.js:377-382 | the sway phases grow by their draws and the roll and yaw are their sines over 10 and 25 |
| Vehicle.Car.Move | Solution/car.js:354-386 | one tick keeps the invariant and gives the car's whole new state: z closes 5% of its distance to -2500; when no change runs the speed ramps and, above 75, the lane-change length follows it; when no lane change runs the sway phases advance and the roll and yaw are their sines over 10 and 25, with the lane and x kept; a running lane change takes one step (x stride, roll by the flip weight) or lands on its target; a running height change takes one step (offset stride, y, pitch) or lands on its target level again; an idle height keeps y and pitch; starts and targets are kept |
| Vehicle.Car.Hit | Solution/car.js:195-258 | the prior speed is kept as smashed and game-over speed and the speed drops to 0; the explosion appears 250 ahead of the car at scale 1; 50 particles are sparked from the draws; 4 engines are launched |
| Vehicle.Car.AfterHitPhysics | Solution/car.js:265-347 | `explosion_complete` is set exactly once, the first tick the scale exceeds 5, and then the sphere hides, the car moves away, the wreck is put where the car was and at once slides half the smashed speed, settles and spins, and every engine is moved there and bounces; until then the sphere grows by 1.25; particles drift every tick; once complete, the smashed speed falls by a factor 1.02, the wreck slides half the smashed speed, settles and spins by a 1250th of it, and every engine bounces; a resting engine stays at rest |
| Vehicle.Car.Expand | Solution/car.js:285-289 | the explosion's scale grows by a factor 1.25 |
| Vehicle.Car.DriftParticles | Solution/car.js:291-303 | every explosion particle takes one drift step |
| Vehicle.Car.Detonate | Solution/car.js:267-284 | the completion flag is set, the sphere hidden, the wreck and engines placed where the car was, and the car mesh sent to z = 1000 |
| Vehicle.Car.WreckPhysics | Solution/car.js:307-346 | the smashed speed falls by a factor 1.02, the wreck slides back by half the old speed, settles and spins, and every engine bounces |
| Vehicle.Car.Reset | Solution/car.js:128-167 | the crash pieces are cleared, the car is back in the middle lane on the ground at rest and shown, the lane-change length is 45, and `double` is left as it was |
| Vehicle.Car.Recentre | Solution/car.js:139-165 | the lane and height states are back to the middle lane on the ground with no change running, and the mesh's x, y and rotation are reset |
| Vehicle.ScatterDebris | Solution/car.js:216-248 | the 50 explosion particles are sparked from their draws |
| Vehicle.LaunchEngines | Solution/car.js:251-257 | the 4 engines are launched from the engine mesh with their fall-speed draws |
| Vehicle.PlaceEngines | Solution/car.js:276-281 | every engine is moved to the wreck point |
| Vehicle.DriftDebris | Solution/car.js:292-303 | every particle takes one drift step |
| Vehicle.BounceEngines | Solution/car.js:319-345 | every engine takes one bounce step with its own draws |
| ObstacleField.LaneOf | Solution/obstacles.js:35 | a lane draw lands on x = -1000, 0 or 1000 |
| ObstacleField.RowOf | Solution/obstacles.js:36 | a row draw lands on y = 375 or 1500 |
| ObstacleField.PlanetLaneOf | Solution/obstacles.js:120 | a planet lane draw lands on x = -500 or 500 |
| ObstacleField.AxisOf | Solution/obstacles.js:49 | a rotation axis draw is 0..3 |
| ObstacleField.PickOf | Solution/obstacles.js:114-117 | a planet mesh pick is a valid index into the meshes |
| ObstacleField.Placed | Solution/obstacles.js:22-56 | a new asteroid or comet keeps the template's rotation, sits in a lane and a row, and starts at z at most -50000 |
| ObstacleField.SpinOf | Solution/obstacles.js:46-50 | a rotation rate is in [-0.5, 0.5) and its axis 0..3 |
| ObstacleField.PlanetPlaced | Solution/obstacles.js:109-150 | a planet keeps a centred mesh centred and otherwise takes x = -500 or 500; it sits at y = 1000, spaced 10000 apart from z = -50000, leaning by pi/5 one way or the other |
| ObstacleField.Rekindled | Solution/obstacles.js:93-97 | a trail particle is put behind its comet, between 500 and 8000 back, at the comet's x and y |
| ObstacleField.Scrolled | Solution/obstacles.js:159-198 | in the comet trail (or draining after it) an obstacle moves 2.5 times the speed, or 250 when stopped; otherwise it moves by the speed; only z changes |
| ObstacleField.Trailed | Solution/obstacles.js:170-193 | one followed trail particle lies in [comet z - 7500, comet z] with its scale in [0, 1]; one that would leave the window is pulled to the comet at full scale |
| ObstacleField.StepTrailBounds | Solution/obstacles.js:170-235 | per branch of one comet's step: a comet still in view keeps every trail particle within 7500 behind it with scale in [0, 1]; a recycled comet has every particle rekindled between 500 and 8000 behind it; a drained comet leaves with its trail |
| ObstacleField.Recycled | Solution/obstacles.js:202-206 | a recycled asteroid or comet takes a lane and a row and is sent back 50000 to 55000; nothing else changes |
| ObstacleField.Returned | Solution/obstacles.js:218-223 | a recycled planet keeps a centred mesh centred and otherwise takes x = -500 or 500; it is set to y = 1000 and sent back exactly 50000 |
| ObstacleField.Drop | Solution/obstacles.js:228-229 | `splice(i, 1)`: one shorter, the same before i, shifted down by one after |
| ObstacleField.Step | Solution/obstacles.js:157-238 | one iteration of the loop; the parallel lists stay in step; the list shrinks iff the level is draining and the scrolled obstacle is past z = 5000, and then obstacle and rotation are spliced out together; earlier entries are untouched |
| ObstacleField.SweepFrom | Solution/obstacles.js:157-238 | the loop keeps the lists parallel and never grows them; while a level runs it keeps their length |
| ObstacleField.SweepKeepsPrefix | Solution/obstacles.js:157-238 | the rest of the loop never touches the entries before the current index |
| ObstacleField.DrainSkipsNext | Solution/obstacles.js:225-235 | when obstacle i is drained, the obstacle that slides into slot i is not looked at on that tick |
| ObstacleField.Turned | Solution/obstacles.js:272-299 | a rotation turns one Euler axis by a tenth of the rate for axes 0..2, the leaned axis in the solar-system cases, and nothing for axis 3; the position never changes |
| ObstacleField.RotationTable | Solution/obstacles.js:276-297 | the per-axis rule applies in the asteroid and comet levels while they run and while the asteroid field drains out before a challenge level (mode 1 or 2, not begun); the leaned-axis rule applies in the solar system and while it drains out before the asteroid field (mode 0, not begun, last mode 1); a draining comet trail does not turn |
| ObstacleField.Status | Solution/obstacles.js:364-372 | a status line exists exactly for levels 0, 1 and 2 |
| ObstacleField.StatusIdentifiesLevel | Solution/obstacles.js:364-372 | different levels have different status lines |
| ObstacleField.Obstacles.constructor | Solution/obstacles.js:4-17 | the field starts empty in the running asteroid level, with 10 asteroids and 5 comets to place |
| ObstacleField.Obstacles.ModeChanges | Solution/obstacles.js:377-407 | after 40 s a challenge level (1 or 2) is picked, not yet begun, the clock restarts at `now`, and the charge rises by one unless already full; before that the clock is kept and, after 20 s, a running challenge level ends into the asteroid level; the charge never exceeds full |
| ObstacleField.Obstacles.Move | Solution/obstacles.js:155-251 | a running level keeps its obstacle count; a draining level only loses obstacles; unless the field is repopulated, the obstacles, spins and trails are those of the obstacle loop, each obstacle then turned by the level's rotation rule, and the level flag and counts are unchanged; once the field is empty before its level begins it holds exactly what that level's initialiser places |
| ObstacleField.Obstacles.Sweep | Solution/obstacles.js:157-238 | the loop of `move` leaves the field as the SweepFrom definition says |
| ObstacleField.Obstacles.RotateObjects | Solution/obstacles.js:272-299 | every obstacle is turned by its own rotation under the level's rule |
| ObstacleField.Obstacles.Repopulate | Solution/obstacles.js:244-250 | an empty field of a new level gets what its initialiser places and the level begins: in the asteroid field the current count of asteroids, each placed and spun from its seed, and the count rises by 2; in the solar system five planets picked from the meshes; in the comet level the current count of comets with full rekindled trails, and the count rises by 1 exactly when the extra-comet draw is below 0.5; the counts of the other levels and the trails outside the comet level are unchanged |
| ObstacleField.Obstacles.InitialiseAsteroids | Solution/obstacles.js:22-56 | the current asteroid count is placed, each with its rotation; the count for next time grows by 2; the level begins; the result is true |
| ObstacleField.Obstacles.InitialiseCometTrail | Solution/obstacles.js:61-104 | the current comet count is placed, each with its rotation and 10 trail particles behind it; the count grows by one when the extra draw is below 0.5; the level begins |
| ObstacleField.Obstacles.InitialisePlanetMode | Solution/obstacles.js:109-150 | 5 planets are placed from the picked meshes, each spinning about the leaned axis; the level begins |
| ObstacleField.Obstacles.MoveOutOfView | Solution/obstacles.js:256-267 | every obstacle and trail particle moves back 55000; nothing else changes |
| ObstacleField.Obstacles.Reset | Solution/obstacles.js:314-336 | the field is empty, in the running asteroid level, with counts 16 and 5 |
| ObstacleField.Obstacles.CurrentStatus | Solution/obstacles.js:364-372 | the status line of the current level, which always exists |
| ObstacleField.WithdrawTrail | Solution/obstacles.js:262-265 | every particle of a trail moves back 55000 |
| ObstacleField.LaunchComets | Solution/obstacles.js:64-101 | n comets are placed from their seeds, each with its rotation and a trail of 10 particles behind it |
| ObstacleField.Ignite | Solution/obstacles.js:86-99 | a comet's 10 trail particles are put behind it from their draws |
| ObstacleField.FollowComet | Solution/obstacles.js:170-193 | every trail particle takes one clamped step behind its comet |
| ObstacleField.RekindleTrail | Solution/obstacles.js:208-216 | every trail particle is put behind its recycled comet from its draw |
| ObstacleField.Advance | Solution/obstacles.js:157-238 | one loop iteration computes exactly one Step |
| HyperdriveSequencer.Scattered | Solution/hyperdrive.js:141-153 | a scattered particle lies between 10000 and 60000 in front of the car, at an angle in [0, 2 pi), with its visibility kept |
| HyperdriveSequencer.Streamed | Solution/hyperdrive.js:212-230 | a particle comes a third of the speed closer; past z = 1000 it is sent back 50000 to 55000; otherwise its angle turns by z / 100000 |
| HyperdriveSequencer.Hyperdrive.constructor | Solution/hyperdrive.js:5-17 | the sequencer starts inactive at frame 0 with no charge, no particles and post-processing off |
| HyperdriveSequencer.Hyperdrive.Initialise | Solution/hyperdrive.js:85-102 | slots 0 to 99 hold hidden particles and any later ones stay |
| HyperdriveSequencer.Hyperdrive.TogglePostprocessing | Solution/hyperdrive.js:31-33 | the flag is negated, so two toggles restore it |
| HyperdriveSequencer.Hyperdrive.SetActive | Solution/hyperdrive.js:47-49 | the active flag takes the given value |
| HyperdriveSequencer.Hyperdrive.ClearCharge | Solution/hyperdrive.js:70-72 | the charge is 0 |
| HyperdriveSequencer.Hyperdrive.IncrementCharge | Solution/hyperdrive.js:77-79 | the charge grows by exactly one, with no cap of its own |
| HyperdriveSequencer.Hyperdrive.Start | Solution/hyperdrive.js:158-173 | the sequence is active from frame 0 and remembers the speed; every particle is shown and scattered in front of the car; the colour pass is added only when post-processing is on |
| HyperdriveSequencer.Hyperdrive.End | Solution/hyperdrive.js:180-193 | the sequence is inactive, the charge is spent and every particle hidden; the colour pass is removed only when post-processing is on; the remembered speed is returned |
| HyperdriveSequencer.Hyperdrive.Iterate | Solution/hyperdrive.js:199-234 | each frame counts; frame 300 ends the sequence and returns the remembered speed; earlier frames return 2500, roll the car by 4 pi / 300 and stream every particle |
| HyperdriveSequencer.Reveal | Solution/hyperdrive.js:164-166 | every particle's visibility is set and nothing else changes |
| HyperdriveSequencer.Scatter | Solution/hyperdrive.js:141-153 | every particle is scattered from its own draws |
| HyperdriveSequencer.Stream | Solution/hyperdrive.js:211-230 | every particle takes one stream step |
| Terrain.Digit | Solution/scenery.js:207-209 | a digit value is written as a lower-case hex digit |
| Terrain.DigitValue | Solution/scenery.js:207-209 | a hex digit reads back as a value in 0..15 |
| Terrain.DigitRoundTrip | Solution/scenery.js:207-209 | reading a written digit gives the digit back |
| Terrain.Hex | Solution/scenery.js:207-209 | `toString(16)` writes at least one digit, all of them lower-case hex |
| Terrain.Fixed | Solution/scenery.js:207-209 | a fixed-width rendering has exactly the width asked for, all hex digits |
| Terrain.FixedParses | Solution/scenery.js:207-209 | a number below 16^w, written in w digits, reads back as itself |
| Terrain.HexOfLeadingOne | Solution/scenery.js:207-209 | the base-16 text of 16^w + m is "1" followed by m in w digits, so slicing off the first character leaves m in w digits |
| Terrain.FixedSplit | Solution/scenery.js:207-209 | writing a * 16^j + c (with c < 16^j) in k + j digits is writing a in k digits, then c in j digits |
| Terrain.PackedDigits | Solution/scenery.js:207-209 | the six digits of the packed colour are r, g and b, two digits each |
| Terrain.RgbToHex | Solution/scenery.js:207-209 | for channels in 0..255 the result is "0x" followed by r, g and b as two lower-case hex digits each |
| Terrain.RgbToHexParses | Solution/scenery.js:59 | parsing the result as hex gives r * 65536 + g * 256 + b |
| Terrain.ChannelsParse | Solution/scenery.js:207-209 | each two-digit slice of the result reads back as its channel |
| Terrain.Scale | Solution/scenery.js:475-477 | the input range's lower end maps to the output range's lower end and the upper end to the upper end |
| Terrain.ScaleAffine | Solution/scenery.js:475-477 | the map is affine: differences of outputs are differences of inputs times (outMax - outMin) / (inMax - inMin) |
| Terrain.ScaleInverse | Solution/scenery.js:475-477 | mapping back with the ranges swapped gives the input back |
| Terrain.ScaleWithin | Solution/scenery.js:475-477 | an input within the input range maps within the output range, whichever way round it runs |
| Terrain.Carried | Solution/scenery.js:189-197 | a building and its top move together and keep their distance; one past z = -250 goes back 50000; a building in view stays in view for speeds up to 50000 |
| Terrain.Regenerated | Solution/scenery.js:456-468 | at most one panel is rebuilt, and none exactly when no guard of the cycle fires |
| Terrain.Cycled | Solution/scenery.js:452-469 | the reset flag only goes from true to false; with no rebuild both panels advance; a rebuilt panel sits exactly 75000 behind the other |
| Terrain.PanelsStayAdjacent | Solution/scenery.js:452-469 | panels 75000 apart stay 75000 apart, and any rebuild puts them 75000 apart |
| Terrain.FlagLoweredOnce | Solution/scenery.js:461-465 | the reset flag is lowered exactly when floor 1 is in place, floor 2 has passed one panel length and the flag was up |
| Terrain.ToUint8 | Solution/scenery.js:336-344 | a value stored into a byte array is in 0..255, and a value already in [0, 256) is truncated |
| Terrain.HeightAt | Solution/scenery.js:327-350 | every height is a byte; it is 0 within 25 of the panel's centre line and in the first column |
| Terrain.Scenery.constructor | Solution/scenery.js:5-13 | no buildings, both panels at 0, the reset flag up, and no noise iterations |
| Terrain.Scenery.GenerateHeight | Solution/scenery.js:322-354 | width * height bytes, each the height of its index, and the iteration counter grows by exactly one |
| Terrain.Scenery.UpdateFloor | Solution/scenery.js:279-317 | floor 1 is placed 75000 behind floor 2, or floor 2 behind floor 1; the other panel stays; one height map is generated |
| Terrain.Scenery.MoveFloors | Solution/scenery.js:452-469 | the panels follow the floor cycle, and noise runs once exactly when a panel is rebuilt |
| Terrain.Scenery.Move | Solution/scenery.js:188-202 | every defined building and its top are carried, undefined slots are skipped, and the floors cycle |
| PauseMenu.SlidIn | Solution/menu.js:170-174 | a button steps back unless it is already at -2500 or beyond |
| PauseMenu.SlidOut | Solution/menu.js:179-185 | a button steps forward unless it is already at 1000 or beyond |
| PauseMenu.SlideStaysOnTrack | Solution/menu.js:170-185 | a button on the 50-step track between -2500 and 1000 stays on it, within those bounds |
| PauseMenu.SlideRoundTrip | Solution/menu.js:170-185 | a step in then out, or out then in, away from the end stops, gives the position back |
| PauseMenu.Slide | Solution/menu.js:170-185 | every button but the last takes one step; the last is unchanged |
| PauseMenu.Press | Solution/menu.js:191-213 | an answer is only Start or Postprocessing, and Start hides the guide |
| PauseMenu.FirstStop | Solution/menu.js:197-212 | the index of the first hit that ends the scan, or the end |
| PauseMenu.PressAnswersFirstStop | Solution/menu.js:191-213 | the answer is the first Start or Postprocessing hit, or none; the guide is hidden by Start and otherwise toggled once per Guide hit before the stop |
| PauseMenu.Paused | Solution/menu.js:38-52 | pausing brings the guide 500 forward and 400 up over the car, and shows it unless in hyperdrive with the guide hidden |
| PauseMenu.Resumed | Solution/menu.js:22-31 | resuming moves the guide back 500 and down 400 to x = 0 and hides it |
| PauseMenu.PauseThenResume | Solution/menu.js:19-55 | a pause followed by a resume puts the guide back where it was, at x = 0 and hidden |
| PauseMenu.ResumedTime | Solution/menu.js:33-36 | the returned clock is behind `now` by as much as the old clock was behind the pause, so the paused time does not count |
| PauseMenu.Menu.constructor | Solution/menu.js:5-14 | an active, unpaused menu with no buttons, no pause recorded and post-processing off |
| PauseMenu.Menu.Initialise | Solution/menu.js:77-90 | the five buttons Start, Title, Guide, Postprocessing and Instructions are added at their places, at z = -2500 and shown |
| PauseMenu.Menu.TogglePostprocessing | Solution/menu.js:60-62 | the flag is negated |
| PauseMenu.Menu.SetActive | Solution/menu.js:163-165 | the active flag takes the given value |
| PauseMenu.Menu.TogglePauseMenu | Solution/menu.js:19-55 | paused: unpause, return the clock shifted by the paused time, move the guide back and remove the greyscale pass if enabled; unpaused and inactive: pause, record now and the clock, bring the guide over the car and add the pass if enabled, returning the clock; unpaused and active: nothing changes |
| PauseMenu.Menu.Resume | Solution/menu.js:22-37 | unpaused, the shifted clock is returned, only the guide moves back, and the greyscale pass is removed if enabled |
| PauseMenu.Menu.Pause | Solution/menu.js:38-52 | paused with now and the clock recorded, only the guide moves over the car, and the greyscale pass is added if enabled |
| PauseMenu.Menu.MoveIn | Solution/menu.js:170-174 | every button but the last steps back; the last is unchanged |
| PauseMenu.Menu.MoveOut | Solution/menu.js:179-185 | every button but the last steps forward, and the guide is hidden |
| PauseMenu.Menu.CheckForPress | Solution/menu.js:191-213 | the answer and the guide's visibility are what Press says for the hits; only the guide changes |
| PauseMenu.Menu.SetButtonsX | Solution/menu.js:226-232 | buttons 0..4 take x, x, x + 1250, x - 1250 and x; every other button is unchanged |
| PauseMenu.Menu.HideGuide | Solution/menu.js:237-239 | only the guide changes, and it is hidden |
| PauseMenu.Menu.ShowGuide | Solution/menu.js:244-246 | only the guide changes, and it is shown |

## Left out

- `Solution/dash.js` is not part of this model: it lays out DOM text, a shader material and a trigonometric dial.
- Meshes, scenes, materials, shaders, textures and lighting are not modelled. This covers `initialise`, `initialiseMeshes`, `initialiseBuildings`, `initialiseFloors`, `initialiseSun`, `initialiseLighting`, `generateTexture`, `addButton`'s texture loading, `clearListFromScene`, `updateHitBox`, and `scene.add`/`scene.remove`.
- The composer is reduced to its list of passes; the shader passes themselves are not modelled.
- Mesh clone scales drawn at random, and the sizes of explosion particles, are not modelled.
- `rearParticles` and `initialiseRearParticles` are left out: they place the exhaust particles by sine and cosine of the car's roll.
- The hyperdrive particles' x and y (cosines and sines of their angles, `Solution/hyperdrive.js:141-153` and `212-230`) are left out; their depth, angle and visibility are modelled.
- The explosion particles' x, y and z updates are computed with the `sine` and `cosine` parameters; the contracts state only their angles and their height guard.
- `setSpeed` is left out, because nothing in the core calls it. The car invariant `0 <= speed < 300` relies on this.
- The getters `getHeightSep`, `isChangingLane`, `isChangingHeight`, `getSpeed`, `getEndSpeed`, `getMode`, `getLastMode`, `getModeBegan`, `getFullCharge`, `getCurrentCharge`, `isPaused` and `menu.isActive` are not modelled; each only returns a field.
- The `random()` helpers of every object are left out: they use `Math.sin` and a seed that is never set.
- `updateMouse` is not modelled: the hit names it leads to are the input of `CheckForPress`.
- The raycasting in `collisionDetection` (box vertices, `matrixWorld`, `intersectObjects`) is left out. Each corner's nearest hit and length are inputs.
- Vehicle.CollisionDetection: does not model the `undefined` result when the hitbox is not loaded yet.
- Perlin noise is a function parameter of `generateHeight`. Its third coordinate (the noise iteration count) is folded into the parameter's arguments.
- Terrain.Scenery.UpdateFloor: models only where the rebuilt panel is placed. The vertex heights written into the new geometry are not modelled, because they only feed the mesh.
- Obstacles' planet lean is reduced to a lean angle and an accumulated turn. The rotation matrix that `setFromRotationMatrix` and `rotateOnAxis` build is not modelled.
- Numbers are reals. IEEE-754 rounding, `NaN` and `Infinity` are not modelled. For example, Terrain.Scale requires `inMax != inMin` where JavaScript would return `NaN` or `Infinity`.
- Terrain.ParseInt: reads only "0x" followed by hex digits; the rest of JavaScript's `parseInt` grammar is not modelled.
- Terrain.RgbToHex: requires channels in 0..255; out-of-range channels, where the shifts overlap, are not modelled.
- ObstacleField.Obstacles.ModeChanges: reads the clock once, as `now`. The source reads it up to three times, and the readings could straddle a second boundary.
- ObstacleField.Obstacles.InitialiseAsteroids, InitialiseCometTrail and InitialisePlanetMode: require an empty obstacle list, the only way `move` calls them.
- HyperdriveSequencer.Hyperdrive.Start: requires exactly 100 particles, which `initialise` provides.
- HyperdriveSequencer.Hyperdrive.IsActive: only returns the flag, so it carries no contract.
