# CyberHookClone frame logic, in Dafny

CyberHookClone is a first-person "speed runner" built from Unity scripts.
Almost all of it drives the engine: input, physics, camera rig, audio,
scenes. Three scripts also hold a small amount of logic that does not
depend on the engine. This project models that logic and proves what it
promises:

- **PlayerMover** (`Movement`, `player_mover.dfy`), one frame at a time:
  - the speed budget, which rises with move input or in the air, falls
    otherwise, and is clamped to `[minSpeed, maxSpeed]`;
  - the jump / double-jump budget and the vertical velocity;
  - `currentSpeedPercentage`, the fraction of the speed range the speed has reached;
  - the camera's dutch tilt (a toggle driven by a timer) and its noise
    gain.
- **SceneReloader** (`Reloading`, `scene_reloader.dfy`): from a closed
  window, a press of R, any number of frames without a press and a second
  press reload the scene exactly when the first press and the frames after
  it took less than `pressAgainTimerDuration` seconds; and every reload has
  such an earlier press.
- **UITimer** (`Clock`, `ui_timer.dfy`): a run clock that stops while the
  game is paused. It is shown as `mm:ss:cc` through `(int)` casts and the
  `00` number format.

Each component is a `class` whose fields the `Update` method rewrites in the
source's order. Each `Update` is proved equal to a pure step function over a
state value (`Movement.Step`, `Reloading.Step`, `Clock.Advance`/`Clock.Render`).
The properties are proved as lemmas about those functions and about runs,
that is, sequences of frames.

The engine's per-frame inputs become parameters of each frame:
- `Time.deltaTime` / `Time.unscaledDeltaTime`;
- `CharacterController.isGrounded`;
- the squared length of the move input;
- whether the space or R key went down this frame;
- `Time.timeScale`.

`Mathf.Lerp`, `Mathf.InverseLerp`, `Mathf.Clamp01` and `Mathf.Max` are
modelled in `mathf.dfy` in their documented clamped forms. The `00` number
format and decimal digits are in `decimal.dfy`.

Reals stand in for single-precision floats throughout. Every arithmetic
step is therefore exact. Results that floats only approximate hold exactly
here, for example `Lerp(min, max, InverseLerp(min, max, v)) == v`.

## Model

| member | source | states |
|---|---|---|
| Mathf.Clamp01 | Assets/Scripts/PlayerMover.cs:94 | the result lies in [0, 1], equals its argument inside that range and the nearer end outside it |
| Mathf.Max | Assets/Scripts/SceneReloader.cs:21 | the result is one of the two arguments and at least both |
| Mathf.Lerp | Assets/Scripts/PlayerMover.cs:171 | the interpolated value lies on the segment between the two ends and equals an end when the parameter is clamped to 0 or 1 |
| Mathf.InverseLerp | Assets/Scripts/PlayerMover.cs:94 | the fraction lies in [0, 1], is 0 on a degenerate segment and at the start, 1 at the end |
| Mathf.InverseLerpOfLerp | Assets/Scripts/PlayerMover.cs:94 | InverseLerp recovers the clamped parameter of a Lerp on a proper segment |
| Mathf.LerpOfInverseLerp | Assets/Scripts/PlayerMover.cs:94 | Lerp of the InverseLerp of any point of the segment gives back that point |
| Movement.IncrementedSpeed | Assets/Scripts/PlayerMover.cs:125-130 | after acceleration the speed is at most maxSpeed, and it is the unclamped sum whenever that sum does not exceed maxSpeed |
| Movement.DecrementedSpeed | Assets/Scripts/PlayerMover.cs:132-137 | after deceleration the speed is at least minSpeed, and it is the unclamped difference whenever that is not below minSpeed |
| Movement.SpeedAfter | Assets/Scripts/PlayerMover.cs:117-123 | with move input above 0.1 or in the air the new speed is the incremented speed, capped by maxSpeed; otherwise it is the decremented speed, floored by minSpeed |
| Movement.SpeedStaysInRange | Assets/Scripts/PlayerMover.cs:117-137 | with minSpeed <= maxSpeed, non-negative rates and frame time, a speed in range stays in range, never falls on accelerating frames and never rises on the others |
| Movement.PercentageRecoversSpeed | Assets/Scripts/PlayerMover.cs:94 | the speed fraction of an in-range speed maps back to that speed |
| Movement.DoubleJumpAfter | Assets/Scripts/PlayerMover.cs:151-161 | grounded frames leave the double jump available, an airborne press spends it, an airborne frame without a press keeps it |
| Movement.VelocityYAfter | Assets/Scripts/PlayerMover.cs:154-157 | a jump that takes effect sets vertical velocity to jumpHeight before gravity * deltaTime is added; otherwise only gravity * deltaTime is added |
| Movement.DutchDuration | Assets/Scripts/PlayerMover.cs:171 | the tilt period lies between initialDutchDuration and finalDutchDuration |
| Movement.DutchAngle | Assets/Scripts/PlayerMover.cs:178-180 | for a non-negative maxDutch, the tilt magnitude is at most maxDutch, and the tilt is non-positive when the toggle is set and non-negative otherwise |
| Movement.NoiseGain | Assets/Scripts/PlayerMover.cs:191-197 | the noise gain is 0 without move input above 0.1 and otherwise lies between 0 and maxCameraNoise |
| Movement.Step | Assets/Scripts/PlayerMover.cs:83-98 | after a frame the percentage is InverseLerp of the new speed and in [0, 1]; a grounded frame refills the double jump; the toggle flips only on a grounded moving frame and then restarts the timer, otherwise the timer grows by the frame time; off a grounded moving frame the tilt is cleared; without move input the noise is silent, and it never leaves [0, maxCameraNoise] for a non-negative maxCameraNoise |
| Movement.Initial | Assets/Scripts/PlayerMover.cs:68-76 | Awake's state has the initial speed, the double jump available, the timer at 0 and the toggle clear, and it satisfies the invariant for a sane configuration and a lens tilt that is not positive |
| Movement.DutchCases | Assets/Scripts/PlayerMover.cs:169-189 | a firing frame sets the tilt with the toggle's sign, flips the toggle and zeroes the timer; a grounded moving frame that does not fire keeps tilt and toggle; any other frame clears the tilt |
| Movement.DefaultConfigIsSane | Assets/Scripts/PlayerMover.cs:15-45 | the shipped tunables satisfy the assumptions of the invariant |
| Movement.StepPreservesInvariant | Assets/Scripts/PlayerMover.cs:83-98 | a frame keeps the speed in range, the dutch timer non-negative and the tilt's sign in agreement with the toggle |
| Movement.RunPreservesInvariant | Assets/Scripts/PlayerMover.cs:83-98 | every run of frames with non-negative frame times keeps that invariant |
| Movement.AtMostOneAirJump | Assets/Scripts/PlayerMover.cs:151-161 | a run of airborne frames contains at most one jump, and none once the double jump is spent |
| Movement.AirJumpsWithDoubleJump | Assets/Scripts/PlayerMover.cs:151-161 | with the double jump available, an airborne run holds exactly one jump if the jump key goes down on any of its frames, and none otherwise |
| Movement.OneAirJumpBetweenGroundings | Assets/Scripts/PlayerMover.cs:149-162 | after a grounded frame, the airborne frames up to the next grounding hold at most one jump, and exactly one when the jump key goes down on any of them |
| Movement.PlayerMover.constructor | Assets/Scripts/PlayerMover.cs:68-76 | Awake's state: initial speed, double jump available, timers and toggle cleared |
| Movement.PlayerMover.Update | Assets/Scripts/PlayerMover.cs:83-98 | the field updates in source order equal Step, and they preserve the invariant |
| Movement.PlayerMover.SetCanDoubleJump | Assets/Scripts/PlayerMover.cs:100-103 | the double-jump flag takes the given value |
| Movement.PlayerMover.UpdatePlayerSpeed | Assets/Scripts/PlayerMover.cs:117-123 | the speed branch matches SpeedAfter |
| Movement.PlayerMover.IncrementSpeed | Assets/Scripts/PlayerMover.cs:125-130 | the add-then-clamp code computes IncrementedSpeed |
| Movement.PlayerMover.DecrementSpeed | Assets/Scripts/PlayerMover.cs:132-137 | the subtract-then-clamp code computes DecrementedSpeed |
| Movement.PlayerMover.DoJumpLogic | Assets/Scripts/PlayerMover.cs:149-162 | refill, jump, gravity and spend, done in sequence, give VelocityYAfter and DoubleJumpAfter |
| Movement.PlayerMover.ApplyGravity | Assets/Scripts/PlayerMover.cs:164-167 | vertical velocity grows by gravityValue * deltaTime |
| Movement.PlayerMover.ApplyDutchToCamera | Assets/Scripts/PlayerMover.cs:169-189 | period, timer, toggle and lens tilt after the frame, case by case |
| Movement.PlayerMover.ApplyNoiseToCamera | Assets/Scripts/PlayerMover.cs:191-197 | the lens noise gain becomes NoiseGain |
| Reloading.Step | Assets/Scripts/SceneReloader.cs:12-21 | the timer is never negative afterwards, and a reload is requested exactly when R is pressed while the window is open |
| Reloading.PressArmsWindow | Assets/Scripts/SceneReloader.cs:18-21 | a press on a closed window arms it to the duration (less the frame time, floored at 0) and does not reload |
| Reloading.IdleFrameDecays | Assets/Scripts/SceneReloader.cs:21 | without a press the timer becomes max(0, timer - deltaTime), never more than before |
| Reloading.StepStaysInWindow | Assets/Scripts/SceneReloader.cs:10-21 | a timer within [0, duration] stays within it |
| Reloading.DoublePressReloads | Assets/Scripts/SceneReloader.cs:14-19 | from a closed window, a press followed by a press reloads when the first frame was shorter than the window |
| Reloading.ShippedWindowReloadsOnDoublePress | Assets/Scripts/SceneReloader.cs:8-21 | with the shipped 0.3 s window, a press followed by a press reloads whenever the first frame is shorter than 0.3 s |
| Reloading.IdleFramesDecay | Assets/Scripts/SceneReloader.cs:21 | over frames without a press the timer becomes max(0, timer - the time those frames take) |
| Reloading.PressIdlePress | Assets/Scripts/SceneReloader.cs:14-21 | from a closed window, a press, frames without a press and a second press reload exactly when the first press and the frames after it took less than the duration |
| Reloading.TimerAfter | Assets/Scripts/SceneReloader.cs:10-21 | the timer after a run from 0 is never negative, and a press on a closed window arms it to the duration less the frame time, floored at 0 |
| Reloading.OpenWindowHasRecentPress | Assets/Scripts/SceneReloader.cs:10-21 | from the initial 0 the timer stays within [0, duration], and an open window has a press of R no more than duration ago, the timer bounded by the duration less the time since |
| Reloading.ReloadNeedsTwoPressesInWindow | Assets/Scripts/SceneReloader.cs:14-21 | a reload happens only on a frame with R pressed and an earlier press less than the duration back |
| Reloading.SceneReloader.constructor | Assets/Scripts/SceneReloader.cs:8-10 | the window starts closed |
| Reloading.SceneReloader.Update | Assets/Scripts/SceneReloader.cs:12-22 | the field update and the reload flag equal Step; the timer stays non-negative and within the duration |
| Clock.Trunc | Assets/Scripts/UITimer.cs:21 | the (int) cast truncates toward zero: for non-negative input it is the floor |
| Clock.FractionalPart | Assets/Scripts/UITimer.cs:31 | x % 1 of a non-negative x is its distance above its floor, in [0, 1) |
| Clock.Minutes | Assets/Scripts/UITimer.cs:19-22 | for a non-negative timer the minutes are the whole number of 60-second spans elapsed |
| Clock.Seconds | Assets/Scripts/UITimer.cs:24-27 | for a non-negative timer the seconds lie in [0, 59] |
| Clock.Cents | Assets/Scripts/UITimer.cs:29-32 | for a non-negative timer the hundredths lie in [0, 99] |
| Clock.ReadingApproximatesTimer | Assets/Scripts/UITimer.cs:19-32 | 60 * minutes + seconds + cents / 100 is at most the timer and less than a hundredth below it |
| Decimal.PadTwo | Assets/Scripts/UITimer.cs:16 | the 00 format gives at least two digits denoting the number, exactly two below 100, no leading zero from 10 on, and a minus sign before negatives, three characters in all from -99 to -1 |
| Decimal.DecimalRoundTrip | Assets/Scripts/UITimer.cs:16 | reading the decimal writing of a number gives the number back |
| Clock.Render | Assets/Scripts/UITimer.cs:16 | the label of a non-negative timer has at least eight characters and a ':'; below 100 minutes it is two digits, ':', two digits, ':', two digits |
| Clock.RenderReadsBack | Assets/Scripts/UITimer.cs:16 | the label text is three ':'-separated fields of at least two digits that read back as minutes, seconds and hundredths |
| Clock.Advance | Assets/Scripts/UITimer.cs:13-15 | with time scale 0 the timer is unchanged, otherwise it grows by exactly the unscaled frame time |
| Clock.TimerCountsUnpausedTime | Assets/Scripts/UITimer.cs:11-15 | over a run the timer gains exactly the frame time of the unpaused frames |
| Clock.TimerNeverDecreases | Assets/Scripts/UITimer.cs:11-15 | with non-negative frame times the timer never goes back |
| Clock.UITimer.constructor | Assets/Scripts/UITimer.cs:9 | the timer starts at 0 and the label keeps its text |
| Clock.UITimer.Update | Assets/Scripts/UITimer.cs:11-17 | while paused neither timer nor label change; otherwise the timer advances and the label shows its rendering; it never goes back |

## Left out

- Reals replace IEEE single-precision floats, so rounding is not modelled. In particular `timer += Time.unscaledDeltaTime` (UITimer.cs:15) loses precision as the timer grows; Clock.TimerCountsUnpausedTime's exact sum holds for reals only.
- The move-input threshold `0.1f` is the real 0.1, not the nearest float.
- The `int` arithmetic of the source can overflow; the model uses unbounded integers. The `int` product `60 * GetMinutes()` (UITimer.cs:26) overflows once the timer passes 2^31 seconds, about 68 years of play. The `(int)(timer / 60)` cast (UITimer.cs:21) overflows only after about 4083 years.
- `ReadInput` and `SmoothMoveInput`: the keyboard and the move action are read by the engine. Each frame carries their results. The smoothed input feeds only horizontal motion.
- `MovePlayerXZ` and the `CharacterController.Move` calls: horizontal motion, position and collision resolution belong to the engine. Only the vertical velocity is modelled, not the position it moves the player to.
- `Start` and `Awake`'s lookups of the camera, controller and noise component are engine wiring. The camera's lens dutch and noise gain are modelled as two fields of `PlayerMover`.
- `SceneManager.LoadScene` is the flag returned by `Reloading.SceneReloader.Update`. The reload itself, which destroys the component, is not modelled.
- `TextMeshProUGUI`: the label is a `string` field whose initial text is a constructor parameter.
- Movement.AtMostOneAirJump: a run holds engine frames only. A `SetCanDoubleJump(true)` from another component between frames restores the double jump, so the bound holds only for runs without such a call.
- Frame times are non-negative in the engine. The lemmas that need this assume it, and the `Update` methods do not require it.
- The other scripts are not modelled: bullets, bullet time, shooting, menus, sound, game manager, HUD speed widget, kill plane and portal. They are engine callbacks, coroutines and wrappers, and they call `PlayerMover` members (`SetBulletTime`, `GetCurrentSpeed`, `GetCurrentSpeedPercentage`) that the component does not have.
