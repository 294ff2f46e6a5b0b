# Solar-system simulation state, modelled in Dafny

The program draws an animated solar system with OpenGL/GLUT: a Sun and nine
bodies that orbit it and spin, a starfield, and an overlay. Everything it
computes, apart from drawing, lives in a few globals and one vector of
bodies. Its callbacks change that state in place:

- the timer tick (`update`) advances each body's orbit and rotation angles
  unless the simulation is paused;
- the keyboard handler (`keyboard`) toggles the pause, moves the camera,
  zooms and changes the time speed, then clamps distance and time speed;
- the special-key handler (`specialKeys`) scales the "house sensitivity";
- the mouse handler (`mouse`) hit-tests the pause button and the body list;
- `initStars` fills a starfield of 1000 points from `rand()`.

The model keeps that shape. `Simulation.SolarSystem` is a class whose
fields are the globals. The body registry is an `array<Planet>`. Its methods
are the callbacks and change the fields in place. Each method is proved
against a pure function in one of four modules:

- `Bodies`: the body table, one tick of the kinematics, and any number of ticks.
- `Keyboard`: the keyboard-controlled settings as one value, the clamp, each
  key's effect, and the special keys.
- `HitTest`: C++ truncating division, the list-row arithmetic, and the toggles.
- `Starfield`: stars built from `rand()` draws.

The lemmas beside those functions carry the properties: angles stay in
[0, 360] over any number of ticks, the clamp bounds and its idempotence,
toggles that undo themselves, disjoint click targets, and the exact pixel
bands of each list row.

Floating-point values are modelled as `real`. `rand()` is an oracle: a
sequence of non-negative integers that `InitStars` takes as a parameter.
Escape's `exit(0)` is a `terminated` flag. The program exits before the
clamp runs, so that key leaves the settings alone.

Two behaviours of the code are worth knowing, and the model keeps both as
written:

- Angles are kept in [0, 360], not [0, 360): the code subtracts 360 only
  when an angle is strictly greater than 360, so 360 itself is kept. The
  model proves the inclusive range.
- The click regions do not line up with what the overlay draws. The pause
  label is drawn at y = 340, but clicks toggle it for y in [380, 400]. The
  list rows are drawn at y = 50 + 20i, but clicks select rows from y = 651
  down. The row index is `(y - 670) / 20`, truncated toward zero, so row 0
  takes y from 651 to 689, twice the height of the other rows. The model
  keeps the hit-testing exactly as written and states these bands as lemmas.

## Model

| member | source | states |
|---|---|---|
| `Bodies.Table` | main.cpp:52-63 | ten bodies, Sun first and Pluto last, all visible, both current angles 0, speeds in [0, 5] |
| `Bodies.OrbitIncrement` | main.cpp:270 | with an orbit speed in [0, 5] and a time speed in [0, 10], one tick's orbit step is in [0, 0.8] degrees |
| `Bodies.RotationIncrement` | main.cpp:271 | with a rotation speed in [0, 5] and a time speed in [0, 10], one tick's rotation step is in [0, 24] degrees |
| `Bodies.Wrap` | main.cpp:273-274 | the wrapped angle is the sum or the sum less 360; a sum in [0, 720] lands in [0, 360], and the result is at most 360 exactly when the sum is at most 720 |
| `Bodies.Advance` | main.cpp:270-274 | a body's step changes only its two current angles, never its name, parameters or visibility, and keeps angles in [0, 360] when the increments are in [0, 360] |
| `Bodies.TickAt` | main.cpp:269-275 | a tick keeps the number and order of bodies and advances body i on its own |
| `Bodies.Tick` | main.cpp:269-275 | the loop over the registry never adds or removes bodies |
| `Bodies.TickChangesOnlyAngles` | main.cpp:269-275 | after a tick every body equals its old self except for the two current angles |
| `Bodies.TickStepsEachAngle` | main.cpp:270-274 | each angle moves by exactly its increment, with 360 taken off only when the sum exceeds 360 |
| `Bodies.SpeedsGiveBoundedStep` | main.cpp:270-271 | with table speeds and a time speed in [0, 10], both increments lie in [0, 360] |
| `Bodies.TickPreservesWellFormed` | main.cpp:267-276 | a tick keeps every angle in [0, 360], every speed in [0, 5], and each body's two speeds equal to their old values |
| `Bodies.Ticks` | main.cpp:267-279 | any number of ticks keeps the size of the registry |
| `Bodies.TicksPreserveWellFormed` | main.cpp:267-279 | over any number of ticks the angles stay in [0, 360] and the registry keeps its size |
| `Bodies.EarthOrbitStep` | main.cpp:270 | Earth at time speed 1 moves 0.04768 degrees in one tick |
| `Keyboard.Clamp` | main.cpp:349-352 | the clamped value is within [lo, hi], equals the input when already in range, and is the violated bound otherwise |
| `Keyboard.ClampIdempotent` | main.cpp:349-352 | clamping twice is clamping once |
| `Keyboard.ClampControls` | main.cpp:349-352 | after the clamp, distance is in [10, 50] and time speed in [0.1, 10]; settings already in bounds are unchanged; no other setting changes |
| `Keyboard.ApplyKey` | main.cpp:335-346 | a key without a case, and Escape, change nothing; no case touches camera speed or sensitivity; only Space flips the pause; Space and the four angle keys leave distance and time speed alone |
| `Keyboard.KeyEffect` | main.cpp:334-353 | after every key but Escape, recognised or not, distance and time speed are in bounds; Escape changes nothing; camera speed and sensitivity never change; only Space flips the pause flag |
| `Keyboard.UnrecognisedKeyOnlyClamps` | main.cpp:335-352 | an unrecognised key only clamps, so it changes nothing on settings in bounds or after any other key |
| `Keyboard.SpaceTogglesPause` | main.cpp:336 | Space flips only the pause flag, and two presses restore the settings |
| `Keyboard.AngleKeysMoveOneAngle` | main.cpp:337-340 | 'w'/'s' change only the pitch angle and 'a'/'d' only the yaw angle, by plus or minus 0.05 times the camera speed, unbounded |
| `Keyboard.SpeedAndZoomKeys` | main.cpp:341-344 | '1'/'2' set the time speed to the clamped 0.9 or 1.1 multiple; '+'/'-' set the distance to the clamped value less or plus half the camera speed; nothing else changes |
| `Keyboard.PressN` | main.cpp:334-353 | after one or more presses of a key other than Escape the settings are in bounds; presses of Escape change nothing; camera speed and sensitivity never change |
| `Keyboard.SpeedUpsSaturate` | main.cpp:344 | n presses of '2' multiply the time speed by 1.1 n times, capped at 10, and change nothing else |
| `Keyboard.GrownIsGeometric` | main.cpp:344 | n multiplications by 1.1 scale the time speed by 1.1 to the n |
| `Keyboard.ZoomInsSaturate` | main.cpp:341 | n presses of '+' move the distance in by n half-camera-speed steps, stopping at 10, and change nothing else |
| `Keyboard.WalkedIsProduct` | main.cpp:341 | n zoom steps of a given size cover n times that size |
| `Keyboard.TimeSpeedScenario` | main.cpp:343-344 | from time speed 1.6, '1' gives 1.44, and thirty presses of '2' after it reach exactly 10 |
| `Keyboard.ZoomScenario` | main.cpp:341 | from distance 40 at camera speed 1.5, ten presses of '+' give 32.5 |
| `Keyboard.SpecialKeyEffect` | main.cpp:355-360 | up multiplies the sensitivity by 1.1 and down by 0.9; other keys leave it alone; a positive sensitivity stays positive, grows exactly on up and shrinks exactly on down |
| `Keyboard.UpThenDown` | main.cpp:357-358 | up then down leaves 0.99 of the sensitivity, not all of it |
| `Keyboard.UpPressesScale` | main.cpp:357 | n up presses multiply the sensitivity by 1.1 to the n |
| `Keyboard.SensitivityUnbounded` | main.cpp:357 | n up presses raise a positive sensitivity by at least n tenths of itself, so no bound holds |
| `HitTest.TruncDiv` | main.cpp:369 | C++ integer division: the quotient times the divisor lies within one divisor of the dividend, on the dividend's side of zero |
| `HitTest.TruncDivByRow` | main.cpp:369 | the quotient by 20 is k >= 1 exactly for dividends in [20k, 20k+19], and is 0 exactly for dividends in [-19, 19] |
| `HitTest.RowIndex` | main.cpp:369 | the row index is non-negative exactly when y is at least 651 |
| `HitTest.RowZeroBand` | main.cpp:369 | row 0 is selected exactly for y in [651, 689] |
| `HitTest.RowBand` | main.cpp:369 | row k >= 1 is selected exactly for y in [670+20k, 689+20k] |
| `HitTest.RowInRange` | main.cpp:369-370 | the row index selects one of n bodies exactly when y is in [651, 669+20n], in both directions |
| `HitTest.LeftPress` | main.cpp:363 | a mouse event acts only when it is a press of the left button |
| `HitTest.InPauseButton` | main.cpp:364 | the pause button is x in [20, 100] and y in [380, 400] |
| `HitTest.InListColumn` | main.cpp:368 | the body-list column is x in [1130, 1260] |
| `HitTest.TargetsDisjoint` | main.cpp:364-368 | no point lies both on the pause button and in the list column |
| `HitTest.ToggleVisibility` | main.cpp:371 | toggling flips body i's visibility, leaves the rest of body i and every other body unchanged, and keeps the length |
| `HitTest.ToggleTwice` | main.cpp:371 | toggling the same row twice restores the registry |
| `HitTest.ClickBodies` | main.cpp:368-373 | a mouse event that is not a left press in the list column on an in-range row leaves every body unchanged; one that is flips that body's visibility, keeps its other fields, and no other body changes |
| `HitTest.ClickPause` | main.cpp:363-366 | the pause flag flips exactly on a left press on the pause button |
| `HitTest.ClickDoesAtMostOne` | main.cpp:363-374 | one click never both flips the pause and changes a body |
| `Starfield.Coordinate` | main.cpp:68-70 | a coordinate is a multiple of 0.01 in [-10, 9.99] |
| `Starfield.CoordinateOnto` | main.cpp:68 | every multiple of 0.01 in [-10, 9.99] is the coordinate of some draw |
| `Starfield.Size` | main.cpp:71 | a star's size is 1, 2 or 3 |
| `Starfield.StarAt` | main.cpp:67-72 | the star built from four draws lies in the cube with a size of 1, 2 or 3 |
| `Starfield.Field` | main.cpp:65-73 | the field has 1000 stars, all in the cube |
| `Simulation.SolarSystem.constructor` | main.cpp:14-63 | the starting state: running, time speed 1.6, camera speed 1.5, sensitivity 1, distance 40, angles 0, the body table, no stars, and the state invariant |
| `Simulation.SolarSystem.Update` | main.cpp:267-276 | paused, the registry is unchanged; otherwise it is one tick of the old registry at the current time speed; the state invariant is kept |
| `Simulation.SolarSystem.HandleKey` | main.cpp:334-353 | the settings become the key's effect on the old settings; Escape sets the terminated flag; bodies and stars are untouched; the state invariant is kept |
| `Simulation.SolarSystem.ClampSettings` | main.cpp:349-352 | the settings become their clamp |
| `Simulation.SolarSystem.HandleSpecialKey` | main.cpp:355-360 | only the sensitivity changes, to the special key's effect; the state invariant is kept |
| `Simulation.SolarSystem.HandleMouse` | main.cpp:362-375 | only the pause flag and the bodies can change, as the click functions say; the state invariant is kept |
| `Simulation.SolarSystem.InitStars` | main.cpp:65-73 | the starfield becomes a fresh array of the 1000 stars built from the draws in order; the state invariant is kept |

## Left out

- Rendering (`drawOrbitRing`, `drawStars`, `drawString`, `drawPlanetName`, `drawUI`, `drawPlanet`, `display`, `reshape`, `init`, `main`): these only make OpenGL/GLUT calls and have no state to model. This includes the camera eye position that `display` derives with `sin`/`cos`.
- Frame time and FPS: they come from GLUT's clock, and `1 / frameTime` is floating-point display code. They are not modelled.
- `glutPostRedisplay` and `glutTimerFunc` rescheduling: `Update` is one tick. `Bodies.Ticks` stands for a run of many ticks.
- `exit(0)` on Escape is the `terminated` flag. The process end itself is not modelled.
- IEEE-754 single-precision rounding: all values are reals. Scenarios such as 1.6 × 0.9 = 1.44 hold exactly only over the reals.
- The quality and range of `rand()`: each draw is an arbitrary non-negative integer.
- `InitStars` allocates a fresh array of 1000 stars. This stands for `stars.resize(1000)` on the vector, which is empty at the only call.
- The unused callback arguments (`value` of `update`, and the mouse position passed to `keyboard` and `specialKeys`) are not modelled.
- The keyboard handler takes an `unsigned char`. The model takes any `char`, and codes above 255 behave like any other unrecognised key.
