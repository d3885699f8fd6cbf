# Apple catcher: the simulation core in Dafny

This project models the simulation core of a browser arcade game. A basket at the
bottom of the screen catches falling items: apples score a point, bombs cost a
life. The basket is steered by device tilt, touch drag or (in principle) arrow
keys. Everything lives in one script, `main.js`, around one global state object.

The model covers the state-changing part of that script:
- the per-frame collision and cleanup pass (`updateApples`);
- the difficulty ramp;
- item spawning;
- basket motion and clamping (`updateBasket`, `clamp`);
- tilt smoothing and calibration;
- the pointer and key handlers;
- round start, reset and end;
- the frame-time clamp of the animation loop.

Modules:
- `Wrappers` holds `Option`, used for the script's nullable fields and non-numeric sensor samples.
- `Input` holds the pure input arithmetic: `Clamp`, the tilt cap, exponential smoothing (alpha 0.12), and the per-frame basket displacement for each input mode.
- `Spawner` holds the difficulty formulas (target spawn interval, 2% lag towards it, base fall speed) and the item a spawn creates from five random draws.
- `Collision` holds the items and the basket as values, and the hit test (reference point: centre-x and bottom-y against the basket extended 6 px down). It states the whole collision pass as functions over the item list: `Survivors`, `Tally`, `ScoreGain`, `LivesLost`, `EndsGame`. Its lemmas prove that every item meets exactly one outcome, that the kept list is an order-preserving selection, and that the pass distributes over concatenation.
- `Session` holds the class `Game`: the global state object and the input variables beside it, with one method per operation. `ResolveCollisions` is the filter loop, and its loop invariants tie the running score, lives, flash and `playing` to the `Collision` functions over the prefix already seen. `Valid()` is the object invariant every operation keeps: score non-negative, lives at most 3, lives positive while playing, smoothed tilt in [-30, 30], spawn interval in [420, 1200], base speed in [160, 520], and a drag in progress has a last pointer x.

Positions, speeds and times are `real`. The viewport size (`width`, `height`), the clock (`ts`, `now`), the sensor sample (`gamma`), the permission outcome (`granted`) and the random draws (`Draws`) are parameters.

In the source no code path ever sets the input mode to `'keys'`: the start button chooses tilt or touch, and the touch button chooses touch. The key handlers set their flags, but `updateBasket` only reads them in keys mode. The model keeps that branch (see `BasketShift`) and records the fact in `Valid()` as `inputMode != Keys`.

Lives may go below zero inside a pass when several penalties land in one frame. Only the displayed value is floored at zero (`DisplayedLives`). After the lives run out, the rest of the pass is still resolved, so the score can still rise in that frame.

## Model

| member | source | states |
|---|---|---|
| `Input.Clamp` | main.js:53 | When lo <= hi the result lies in [lo, hi]. A value already in range is returned unchanged. The result is always one of v, lo, hi. |
| `Input.ClampMonotone` | main.js:53 | Clamping preserves order. |
| `Input.CapTilt` | main.js:97-99 | The calibrated sample minus the offset, capped to [-30, 30]. It is unchanged when already within range. |
| `Input.Smooth` | main.js:101 | The smoothed tilt lies between the previous value and the capped sample, so it never overshoots. |
| `Input.SmoothStaysInRange` | main.js:97-101 | A smoothed tilt in [-30, 30] stays in [-30, 30] after any sample. |
| `Input.SmoothContracts` | main.js:101 | Each sample shrinks the gap to it by the factor 0.88. |
| `Input.SteadySamplesConverge` | main.js:97-101 | Under a sample held steady, after n samples the gap between the smoothed tilt and the capped sample is exactly 0.88^n times the starting gap: it shrinks at every sample and never changes sign. |
| `Input.BasketShift` | main.js:157-170 | Touch mode, and tilt mode before tilt is known to work, give no displacement. In keys mode, both keys held (or neither) cancel exactly; the right key alone moves the basket by +420 x dt and the left key alone by -420 x dt. In tilt mode with tilt working and dt > 0, the basket moves right exactly when the tilt is positive and left exactly when it is negative, and full tilt (30 degrees) moves it at the top speed of 520 x dt. |
| `Input.TiltShiftBounded` | main.js:159-163 | With tilt in [-30, 30] the basket moves at most 520 px/s times dt either way. |
| `Spawner.TargetInterval` | main.js:176 | The target is at least 420 and at least 1200 - 6 x score, and equals one of them: it is their maximum. It is at most 1200 for a non-negative score. |
| `Spawner.TargetIntervalNonIncreasing` | main.js:176 | A higher score never gives a longer target interval. |
| `Spawner.NextInterval` | main.js:177 | The new interval lies between the old one and the target: no overshoot. |
| `Spawner.NextIntervalContracts` | main.js:177 | The gap to the target shrinks by exactly 2% each frame. |
| `Spawner.NextIntervalInRange` | main.js:176-177 | An interval in [420, 1200] stays there for any non-negative score. |
| `Spawner.BaseSpeed` | main.js:178 | The base speed is at most 520 and, for a non-negative score, at least 160. It equals 160 + 3 x score up to score 120, and 520 from score 120 on. |
| `Spawner.NewItem` | main.js:78-84 | The spawned item has y = -size - 10 and rot = 0, and is a bomb exactly when the kind draw is below 0.3. With draws in [0, 1): size in [26, 36), speed in [base, base + 80), spin in [-0.05, 0.05), and x inside the viewport when the item fits. |
| `Collision.Survivors` | main.js:190-220 | The kept list is never longer than the input. |
| `Collision.SurvivorsInOrder` | main.js:190-220 | The kept list is an order-preserving subsequence of the input. |
| `Collision.SurvivorsExactlyKept` | main.js:191-218 | An item is kept if and only if it is in the input, misses the basket and has not passed height + 60. |
| `Collision.OneOutcomePerItem` | main.js:191-218 | Every item has exactly one of caught, fell off or kept. The six (kind, outcome) counts add up to the input length, and the kept list has exactly the kept count. |
| `Collision.PassDistributes` | main.js:191-219 | Items are resolved independently: the pass over s + t is the pass over s followed by the pass over t, both for the kept list and for every count. |
| `Collision.FallenBombIsInert` | main.js:209-216 | A bomb that misses the basket and falls past height + 60 changes neither the score nor the lives, and is removed. |
| `Collision.CentredAppleIsCaught` | main.js:192-199 | An apple centred over the basket with its bottom at the lowest reachable line scores 1, costs no life and is removed. |
| `Collision.BombOnLastLifeEndsGame` | main.js:200-205 | A caught bomb costs exactly one life and no points, and with one life left it ends the round. |
| `Session.FrameDelta` | main.js:316 | The frame time is never zero and never above 0.05 s. It is 0.016 s when no time has passed, the real elapsed time up to 50 ms, exactly 0.05 s after a longer stall, and the (negative) elapsed time when timestamps run backwards. |
| `Session.DisplayedLives` | main.js:203 | The shown lives are never negative, and equal the lives whenever those are non-negative. |
| `Session.Game.constructor` | main.js:22-42 | The initial state object: not playing, score 0, 3 lives, no items, interval 1200, speed 160, tilt mode, no flash. The basket row is placed by the first resize. |
| `Session.Game.Resize` | main.js:50 | The basket row sits 64 px above the bottom of the viewport. |
| `Session.Game.ResetGame` | main.js:55-63 | Afterwards: playing, score 0, 3 lives, no items, interval 1200, speed 160, spawn clock at now, basket centred, hence inside [0, width - 110] when it fits. Valid() is kept. |
| `Session.Game.EndGame` | main.js:70-71 | Only `playing` changes, and it becomes false. |
| `Session.Game.StartWithTilt` | main.js:329-342 | Tilt mode when permission is granted (and tilt is then marked as working), touch mode otherwise, then a fresh round. |
| `Session.Game.StartWithTouch` | main.js:344-348 | Touch mode, then a fresh round. |
| `Session.Game.SpawnDrop` | main.js:77-85 | Exactly one item, the one the draws describe, is appended to the list. |
| `Session.Game.HandleOrientation` | main.js:92-102 | A non-numeric sample changes nothing. A numeric one marks tilt as working and sets the smoothed tilt to Smooth(old tilt, CapTilt(sample, offset)). The tilt stays in [-30, 30]. |
| `Session.Game.Calibrate` | main.js:122-126 | Offset + smoothed tilt is unchanged, and the smoothed tilt becomes 0. |
| `Session.Game.PointerDown` | main.js:132-134 | A drag starts at the pointer's x. |
| `Session.Game.PointerMove` | main.js:135-140 | Outside a drag nothing changes. During a drag the basket moves by exactly the pointer's x delta, unclamped and in any input mode. |
| `Session.Game.PointerRelease` | main.js:141-142 | The drag ends and the last x is cleared. |
| `Session.Game.KeyDown` | main.js:147-150 | ArrowLeft or a sets the left flag. ArrowRight or d sets the right flag. Other keys change nothing. |
| `Session.Game.KeyUp` | main.js:151-154 | The same keys clear their flags. |
| `Session.Game.UpdateBasket` | main.js:157-172 | The basket moves by the mode's displacement and is then clamped. For every input mode it ends in [0, width - 110] when the basket fits. |
| `Session.Game.FlashBasket` | main.js:298-301 | The flash colour is set, and the flash lasts until now + duration. |
| `Session.Game.UpdateApples` | main.js:174-221 | The interval moves 2% towards the score's target and the base speed follows the score. One item is spawned when more than the new interval has passed. Then every item is moved and resolved: the list becomes the survivors; score rises by the apples caught; lives fall by the bombs caught plus the apples fallen off; the round ends exactly when a life was lost and lives reached 0 or below; the basket flashes when a bomb was caught. Valid() is kept. |
| `Session.Game.MoveItems` | main.js:184-187 | The in-place loop leaves the list equal to AdvanceAll of the old list. Every item, in order, falls by (speed + 10) x dt and turns by its spin. Its kind, size, speed and spin are kept. |
| `Session.Game.ResolveCollisions` | main.js:189-220 | The list, score, lives, `playing` and flash after the filter loop equal the `Collision` functions over the whole input list, against the basket as it stands. Lives positive while playing is kept. |
| `Session.Game.ResolveItem` | main.js:191-218 | The item stays exactly when its outcome is kept. A caught apple adds 1 to the score. A caught bomb, or an apple past height + 60, costs exactly one life, and `playing` turns false exactly when that leaves lives at 0 or below. Only a caught bomb flashes the basket. A bomb past the bottom changes nothing. |
| `Session.Game.Frame` | main.js:315-326 | `lastTs` becomes ts. A stopped round changes nothing else. A running round clamps the moved basket, then does the item update with the frame time FrameDelta(ts, lastTs) against the moved basket. |
| `Session.CalibrateThenHoldPose` | main.js:92-126 | Calibrating moves offset + smoothed tilt into the offset. The next sample taken in the same pose then reads as level and leaves the smoothed tilt at exactly 0. Valid() is kept. |

## Left out

- DOM and HUD writes are not modelled: score and lives text, the final-score text, overlay and touch-guide visibility. No data flows back from them. Only the floored lives value is modelled, as `DisplayedLives`.
- Canvas rendering is not modelled: `draw`, `drawApple`, `drawBomb`, `roundRect`, and the canvas sizing in `resize`. Only `resize`'s placement of the basket row is kept, as `Resize`.
- The sensor permission promise and listener registration are not modelled: `requestSensorPermissionIfNeeded`, `setupTilt`, `setupTouch`, `setupKeys`, and the wiring of the buttons and touchmove. The permission outcome is the parameter `granted`. The restart and calibrate buttons call `ResetGame` and `Calibrate` directly.
- `requestAnimationFrame` scheduling is not modelled: `Frame` is one iteration of `loop`.
- `performance.now()` is the parameter `now`. The two reads in `updateApples` and the read in `flashBasket` are taken as the same instant.
- `Math.random` is replaced by the parameter `Draws`. `Draws.InUnit` states the [0, 1) range the platform promises.
- The canvas size (`clientWidth`, `clientHeight`) is the parameters `width` and `height`, read afresh by each operation.
- IEEE-754 behaviour (rounding, NaN, infinities) is not modelled: all quantities are exact reals. In `FrameDelta`, the `|| 0.016` fallback is modelled only for a zero delta, not for NaN.
- Items are values in a sequence rather than shared objects. The source moves them in place, but nothing else refers to them, so no aliasing is lost.
- The `typeof gamma !== 'number'` test is modelled as `gamma` being `None`.
