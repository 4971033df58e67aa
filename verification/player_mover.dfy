/** The per-frame state of the first-person player controller: the speed
    budget, the jump / double-jump budget, the vertical velocity and the
    camera's dutch tilt and noise gain. Horizontal motion, collision and the
    camera rig itself belong to the engine and are not modelled; what the
    engine reports each frame arrives as a Frame. */
module Movement {
  import opened Mathf

  /** The component's serialized tunables, fixed before play starts. */
  datatype Config = Config(
    playerInitialSpeed: real,
    speedAcceleration: real,
    speedDeceleration: real,
    maxSpeed: real,
    minSpeed: real,
    jumpHeight: real,
    gravityValue: real,
    maxDutch: real,
    initialDutchDuration: real,
    finalDutchDuration: real,
    maxCameraNoise: real)

  /** The values the component ships with. */
  const DefaultConfig := Config(5.0, 1.0, 3.0, 28.0, 5.0, 1.0, -9.81, 1.0, 0.5, 0.25, 1.5)

  /** A configuration under which the speed budget is meaningful: a non-empty
      speed range and rates that do not run backwards. */
  predicate SaneSpeeds(c: Config)
  {
    c.minSpeed <= c.maxSpeed && c.speedAcceleration >= 0.0 && c.speedDeceleration >= 0.0
  }

  /** What the engine reports for one frame: the frame time, whether the
      character controller touches the ground, the squared length of the raw
      move input and whether the jump key went down this frame. */
  datatype Frame = Frame(deltaTime: real, isGrounded: bool, moveSqrMagnitude: real, jumpPressed: bool)

  /** The move input counts as present above this squared length. */
  const MoveThreshold: real := 0.1

  predicate Moving(f: Frame)
  {
    f.moveSqrMagnitude > MoveThreshold
  }

  /** Speed rises on frames with move input or in the air, and falls otherwise. */
  predicate Accelerates(f: Frame)
  {
    Moving(f) || !f.isGrounded
  }

  /** The fields the component rewrites every frame, plus the camera's lens
      dutch angle and noise amplitude gain that it drives. */
  datatype MoverState = MoverState(
    currentSpeed: real,
    velocityY: real,
    canDoubleJump: bool,
    currentSpeedPercentage: real,
    currentDutchDuration: real,
    dutchChangeTimer: real,
    invertDutch: bool,
    dutch: real,
    noiseGain: real)

  // ---------------------------------------------------------------------------
  // Speed budget

  /** The speed after one accelerating frame: never above maxSpeed, and
      exactly speed + acceleration * deltaTime whenever that is not above it. */
  function IncrementedSpeed(c: Config, speed: real, dt: real): (r: real)
    ensures r <= c.maxSpeed
    ensures speed + c.speedAcceleration * dt <= c.maxSpeed ==> r == speed + c.speedAcceleration * dt
    ensures speed + c.speedAcceleration * dt > c.maxSpeed ==> r == c.maxSpeed
  {
    var s := speed + c.speedAcceleration * dt;
    if s > c.maxSpeed then c.maxSpeed else s
  }

  /** The speed after one decelerating frame: never below minSpeed, and
      exactly speed - deceleration * deltaTime whenever that is not below it. */
  function DecrementedSpeed(c: Config, speed: real, dt: real): (r: real)
    ensures r >= c.minSpeed
    ensures speed - c.speedDeceleration * dt >= c.minSpeed ==> r == speed - c.speedDeceleration * dt
    ensures speed - c.speedDeceleration * dt < c.minSpeed ==> r == c.minSpeed
  {
    var s := speed - c.speedDeceleration * dt;
    if s < c.minSpeed then c.minSpeed else s
  }

  /** The speed after one frame. */
  function SpeedAfter(c: Config, speed: real, f: Frame): (r: real)
    ensures Accelerates(f) ==> r == IncrementedSpeed(c, speed, f.deltaTime) && r <= c.maxSpeed
    ensures !Accelerates(f) ==> r == DecrementedSpeed(c, speed, f.deltaTime) && r >= c.minSpeed
  {
    if Accelerates(f) then IncrementedSpeed(c, speed, f.deltaTime)
    else DecrementedSpeed(c, speed, f.deltaTime)
  }

  predicate SpeedInRange(c: Config, speed: real)
  {
    c.minSpeed <= speed <= c.maxSpeed
  }

  /** A speed inside the range stays inside it; it never falls on
      accelerating frames and never rises on the others. */
  lemma SpeedStaysInRange(c: Config, speed: real, f: Frame)
    requires SaneSpeeds(c) && f.deltaTime >= 0.0 && SpeedInRange(c, speed)
    ensures SpeedInRange(c, SpeedAfter(c, speed, f))
    ensures Accelerates(f) ==> SpeedAfter(c, speed, f) >= speed
    ensures !Accelerates(f) ==> SpeedAfter(c, speed, f) <= speed
  {
    ProductNonNegative(c.speedAcceleration, f.deltaTime);
    ProductNonNegative(c.speedDeceleration, f.deltaTime);
  }

  /** currentSpeedPercentage recovers the speed: Lerp over the speed range
      of the percentage gives back the speed itself. */
  lemma PercentageRecoversSpeed(c: Config, speed: real)
    requires SpeedInRange(c, speed)
    ensures Lerp(c.minSpeed, c.maxSpeed, InverseLerp(c.minSpeed, c.maxSpeed, speed)) == speed
  {
    LerpOfInverseLerp(c.minSpeed, c.maxSpeed, speed);
  }

  // ---------------------------------------------------------------------------
  // Jump and double jump

  /** A jump takes effect when the key is pressed while grounded or while the
      double jump is still available. */
  predicate TakesJump(canDoubleJump: bool, f: Frame)
  {
    f.jumpPressed && (f.isGrounded || canDoubleJump)
  }

  /** The double-jump budget after one frame: refilled on the ground, spent by
      an airborne jump, otherwise kept. */
  function DoubleJumpAfter(canDoubleJump: bool, f: Frame): (r: bool)
    ensures f.isGrounded ==> r
    ensures !f.isGrounded && f.jumpPressed ==> !r
    ensures !f.isGrounded && !f.jumpPressed ==> r == canDoubleJump
  {
    f.isGrounded || (canDoubleJump && !f.jumpPressed)
  }

  /** The vertical velocity after one frame: a jump first resets it to
      jumpHeight, then gravity * deltaTime is added either way. */
  function VelocityYAfter(c: Config, velocityY: real, canDoubleJump: bool, f: Frame): (r: real)
    ensures TakesJump(canDoubleJump, f) ==> r == c.jumpHeight + c.gravityValue * f.deltaTime
    ensures !TakesJump(canDoubleJump, f) ==> r - velocityY == c.gravityValue * f.deltaTime
  {
    (if TakesJump(canDoubleJump, f) then c.jumpHeight else velocityY) + c.gravityValue * f.deltaTime
  }

  // ---------------------------------------------------------------------------
  // Camera effects

  /** The tilt period shrinks from initialDutchDuration to finalDutchDuration as
      the speed fraction goes from 0 to 1. */
  function DutchDuration(c: Config, percentage: real): (r: real)
    ensures Between(c.initialDutchDuration, c.finalDutchDuration, r)
  {
    Lerp(c.initialDutchDuration, c.finalDutchDuration, percentage)
  }

  /** The tilt applied when the timer expires: a fraction of maxDutch, negated
      when the toggle is set. */
  function DutchAngle(c: Config, percentage: real, invert: bool): (r: real)
    ensures c.maxDutch >= 0.0 ==> (if invert then -c.maxDutch <= r <= 0.0 else 0.0 <= r <= c.maxDutch)
  {
    var a := Lerp(0.0, c.maxDutch, percentage);
    if invert then -a else a
  }

  /** The tilt fires on a grounded, moving frame whose timer has reached the period. */
  predicate DutchFires(timer: real, duration: real, f: Frame)
  {
    f.isGrounded && Moving(f) && timer >= duration
  }

  /** The camera noise gain: proportional to the speed fraction while moving,
      silent otherwise. */
  function NoiseGain(c: Config, percentage: real, f: Frame): (r: real)
    ensures !Moving(f) ==> r == 0.0
    ensures Moving(f) ==> Between(0.0, c.maxCameraNoise, r)
  {
    if Moving(f) then Lerp(0.0, c.maxCameraNoise, percentage) else 0.0
  }

  // ---------------------------------------------------------------------------
  // One frame

  /** The whole per-frame update, in the order the component runs it: speed,
      jump and gravity, speed fraction, dutch tilt, noise. */
  function Step(c: Config, s: MoverState, f: Frame): (r: MoverState)
    ensures 0.0 <= r.currentSpeedPercentage <= 1.0
    ensures r.currentSpeedPercentage == InverseLerp(c.minSpeed, c.maxSpeed, r.currentSpeed)
    ensures f.isGrounded ==> r.canDoubleJump
    ensures r.invertDutch != s.invertDutch ==> f.isGrounded && Moving(f) && r.dutchChangeTimer == 0.0
    ensures r.invertDutch == s.invertDutch ==> r.dutchChangeTimer == s.dutchChangeTimer + f.deltaTime
    ensures !(f.isGrounded && Moving(f)) ==> r.dutch == 0.0
    ensures !Moving(f) ==> r.noiseGain == 0.0
    ensures c.maxCameraNoise >= 0.0 ==> 0.0 <= r.noiseGain <= c.maxCameraNoise
  {
    var speed := SpeedAfter(c, s.currentSpeed, f);
    var percentage := InverseLerp(c.minSpeed, c.maxSpeed, speed);
    var duration := DutchDuration(c, percentage);
    var timer := s.dutchChangeTimer + f.deltaTime;
    var fires := DutchFires(timer, duration, f);
    MoverState(
      currentSpeed := speed,
      velocityY := VelocityYAfter(c, s.velocityY, s.canDoubleJump, f),
      canDoubleJump := DoubleJumpAfter(s.canDoubleJump, f),
      currentSpeedPercentage := percentage,
      currentDutchDuration := duration,
      dutchChangeTimer := if fires then 0.0 else timer,
      invertDutch := if fires then !s.invertDutch else s.invertDutch,
      dutch := if fires then DutchAngle(c, percentage, s.invertDutch)
               else if f.isGrounded && Moving(f) then s.dutch
               else 0.0,
      noiseGain := NoiseGain(c, percentage, f))
  }

  /** The state after a sequence of frames. */
  function Run(c: Config, s: MoverState, frames: seq<Frame>): MoverState
    decreases |frames|
  {
    if frames == [] then s else Run(c, Step(c, s, frames[0]), frames[1..])
  }

  /** The state right after Awake: speed at playerInitialSpeed, double jump
      available, everything else at its default; the lens dutch and noise gain
      keep whatever the camera was set up with. */
  function Initial(c: Config, lensDutch: real, lensNoiseGain: real): (r: MoverState)
    ensures r.currentSpeed == c.playerInitialSpeed && r.canDoubleJump
    ensures r.dutchChangeTimer == 0.0 && !r.invertDutch
    ensures SaneConfig(c) && lensDutch <= 0.0 ==> Invariant(c, r)
  {
    MoverState(c.playerInitialSpeed, 0.0, true, 0.0, 0.0, 0.0, false, lensDutch, lensNoiseGain)
  }

  /** The dutch tilt, case by case: when it fires, the sign comes from the
      toggle, the toggle flips and the timer restarts; on a grounded, moving
      frame that does not fire nothing changes but the timer; on any other
      frame the tilt is cleared. */
  lemma DutchCases(c: Config, s: MoverState, f: Frame)
    ensures var t := Step(c, s, f);
      var timer := s.dutchChangeTimer + f.deltaTime;
      var magnitude := Lerp(0.0, c.maxDutch, t.currentSpeedPercentage);
      && t.currentDutchDuration == Lerp(c.initialDutchDuration, c.finalDutchDuration, t.currentSpeedPercentage)
      && (DutchFires(timer, t.currentDutchDuration, f) ==>
            t.dutch == (if s.invertDutch then -magnitude else magnitude)
            && t.invertDutch == !s.invertDutch && t.dutchChangeTimer == 0.0)
      && (f.isGrounded && Moving(f) && timer < t.currentDutchDuration ==>
            t.dutch == s.dutch && t.invertDutch == s.invertDutch && t.dutchChangeTimer == timer)
      && (!(f.isGrounded && Moving(f)) ==>
            t.dutch == 0.0 && t.invertDutch == s.invertDutch && t.dutchChangeTimer == timer)
  {
  }

  // ---------------------------------------------------------------------------
  // Invariants over runs

  /** The sign of the lens tilt agrees with the toggle: after a tilt to the
      right the next one goes left, and a cleared tilt agrees with both. */
  predicate DutchAgrees(s: MoverState)
  {
    (s.invertDutch ==> s.dutch >= 0.0) && (!s.invertDutch ==> s.dutch <= 0.0)
  }

  /** What every reachable state satisfies. */
  predicate Invariant(c: Config, s: MoverState)
  {
    SpeedInRange(c, s.currentSpeed) && s.dutchChangeTimer >= 0.0 && DutchAgrees(s)
  }

  /** A well-tuned component: sane speeds, an initial speed inside the range,
      and a non-negative dutch amplitude. */
  predicate SaneConfig(c: Config)
  {
    SaneSpeeds(c) && SpeedInRange(c, c.playerInitialSpeed) && c.maxDutch >= 0.0
  }

  lemma DefaultConfigIsSane()
    ensures SaneConfig(DefaultConfig)
  {
  }

  /** One frame with a non-negative frame time preserves the invariant. */
  lemma StepPreservesInvariant(c: Config, s: MoverState, f: Frame)
    requires SaneSpeeds(c) && c.maxDutch >= 0.0 && f.deltaTime >= 0.0 && Invariant(c, s)
    ensures Invariant(c, Step(c, s, f))
  {
    SpeedStaysInRange(c, s.currentSpeed, f);
  }

  predicate NonNegativeTimes(frames: seq<Frame>)
  {
    forall i :: 0 <= i < |frames| ==> frames[i].deltaTime >= 0.0
  }

  /** Any number of frames with non-negative frame times preserve the
      invariant; in particular the speed never leaves [minSpeed, maxSpeed]. */
  lemma {:induction false} RunPreservesInvariant(c: Config, s: MoverState, frames: seq<Frame>)
    requires SaneSpeeds(c) && c.maxDutch >= 0.0 && NonNegativeTimes(frames) && Invariant(c, s)
    ensures Invariant(c, Run(c, s, frames))
    decreases |frames|
  {
    if frames != [] {
      StepPreservesInvariant(c, s, frames[0]);
      RunPreservesInvariant(c, Step(c, s, frames[0]), frames[1..]);
    }
  }

  /** The number of frames of a run on which a jump takes effect without the
      ground underneath. */
  function AirJumps(c: Config, s: MoverState, frames: seq<Frame>): nat
    decreases |frames|
  {
    if frames == [] then 0
    else
      (if TakesJump(s.canDoubleJump, frames[0]) && !frames[0].isGrounded then 1 else 0)
      + AirJumps(c, Step(c, s, frames[0]), frames[1..])
  }

  predicate Airborne(frames: seq<Frame>)
  {
    forall i :: 0 <= i < |frames| ==> !frames[i].isGrounded
  }

  /** While airborne, at most one jump happens, and none once the double jump
      is spent. */
  lemma {:induction false} AtMostOneAirJump(c: Config, s: MoverState, frames: seq<Frame>)
    requires Airborne(frames)
    ensures AirJumps(c, s, frames) <= (if s.canDoubleJump then 1 else 0)
    decreases |frames|
  {
    if frames != [] {
      var f := frames[0];
      var t := Step(c, s, f);
      assert Airborne(frames[1..]);
      AtMostOneAirJump(c, t, frames[1..]);
      if TakesJump(s.canDoubleJump, f) {
        assert !t.canDoubleJump;
      }
    }
  }

  /** Whether the jump key goes down on some frame of a run. */
  predicate JumpPressedIn(frames: seq<Frame>)
  {
    exists i :: 0 <= i < |frames| && frames[i].jumpPressed
  }

  /** With the double jump available, an airborne run holds exactly one jump
      if the key goes down on any of its frames, and none otherwise. */
  lemma {:induction false} AirJumpsWithDoubleJump(c: Config, s: MoverState, frames: seq<Frame>)
    requires Airborne(frames) && s.canDoubleJump
    ensures AirJumps(c, s, frames) == (if JumpPressedIn(frames) then 1 else 0)
    decreases |frames|
  {
    if frames != [] {
      var f := frames[0];
      var t := Step(c, s, f);
      assert Airborne(frames[1..]);
      if f.jumpPressed {
        AtMostOneAirJump(c, t, frames[1..]);
      } else {
        AirJumpsWithDoubleJump(c, t, frames[1..]);
        assert JumpPressedIn(frames) ==> JumpPressedIn(frames[1..]) by {
          if JumpPressedIn(frames) {
            var i :| 0 <= i < |frames| && frames[i].jumpPressed;
            assert frames[1..][i - 1] == frames[i];
          }
        }
        assert JumpPressedIn(frames[1..]) ==> JumpPressedIn(frames) by {
          if JumpPressedIn(frames[1..]) {
            var i :| 0 <= i < |frames[1..]| && frames[1..][i].jumpPressed;
            assert frames[i + 1] == frames[1..][i];
          }
        }
      }
    }
  }

  /** Between two grounded frames exactly one airborne jump happens if the key
      goes down at all: after a grounded frame g, a stretch of airborne frames
      holds one jump when some frame presses the key, and none otherwise. */
  lemma OneAirJumpBetweenGroundings(c: Config, s: MoverState, g: Frame, frames: seq<Frame>)
    requires g.isGrounded && Airborne(frames)
    ensures AirJumps(c, s, [g] + frames) <= 1
    ensures AirJumps(c, s, [g] + frames) == 1 <==> JumpPressedIn(frames)
  {
    assert ([g] + frames)[1..] == frames;
    AirJumpsWithDoubleJump(c, Step(c, s, g), frames);
  }

  // ---------------------------------------------------------------------------
  // The component

  class PlayerMover {
    const config: Config

    var currentSpeed: real
    var velocityY: real
    var canDoubleJump: bool
    var currentSpeedPercentage: real
    var currentDutchDuration: real
    var dutchChangeTimer: real
    var invertDutch: bool
    /** The virtual camera's lens dutch angle. */
    var dutch: real
    /** The virtual camera's noise amplitude gain. */
    var noiseGain: real

    function State(): MoverState
      reads this
    {
      MoverState(currentSpeed, velocityY, canDoubleJump, currentSpeedPercentage,
                 currentDutchDuration, dutchChangeTimer, invertDutch, dutch, noiseGain)
    }

    /** Awake: the lens starts with the camera's own dutch and noise gain. */
    constructor (config: Config, lensDutch: real, lensNoiseGain: real)
      ensures this.config == config
      ensures State() == Initial(config, lensDutch, lensNoiseGain)
    {
      this.config := config;
      currentSpeed := config.playerInitialSpeed;
      velocityY := 0.0;
      canDoubleJump := true;
      currentSpeedPercentage := 0.0;
      currentDutchDuration := 0.0;
      dutchChangeTimer := 0.0;
      invertDutch := false;
      dutch := lensDutch;
      noiseGain := lensNoiseGain;
    }

    /** Update: one frame of the engine loop. */
    method Update(f: Frame)
      modifies this
      ensures State() == Step(config, old(State()), f)
      ensures SaneSpeeds(config) && config.maxDutch >= 0.0 && f.deltaTime >= 0.0 && Invariant(config, old(State())) ==>
        Invariant(config, State())
    {
      ghost var before := State();
      UpdatePlayerSpeed(f);
      DoJumpLogic(f);
      currentSpeedPercentage := InverseLerp(config.minSpeed, config.maxSpeed, currentSpeed);
      ApplyDutchToCamera(f);
      ApplyNoiseToCamera(f);
      assert State() == Step(config, before, f);
      if SaneSpeeds(config) && config.maxDutch >= 0.0 && f.deltaTime >= 0.0 && Invariant(config, before) {
        StepPreservesInvariant(config, before, f);
      }
    }

    method SetCanDoubleJump(canDoubleJump: bool)
      modifies this`canDoubleJump
      ensures this.canDoubleJump == canDoubleJump
    {
      this.canDoubleJump := canDoubleJump;
    }

    method UpdatePlayerSpeed(f: Frame)
      modifies this`currentSpeed
      ensures currentSpeed == SpeedAfter(config, old(currentSpeed), f)
    {
      if f.moveSqrMagnitude > MoveThreshold || !f.isGrounded {
        IncrementSpeed(f.deltaTime);
      } else {
        DecrementSpeed(f.deltaTime);
      }
    }

    method IncrementSpeed(deltaTime: real)
      modifies this`currentSpeed
      ensures currentSpeed == IncrementedSpeed(config, old(currentSpeed), deltaTime)
    {
      ghost var increment := config.speedAcceleration * deltaTime;
      currentSpeed := currentSpeed + config.speedAcceleration * deltaTime;
      assert currentSpeed == old(currentSpeed) + increment;
      if currentSpeed > config.maxSpeed {
        currentSpeed := config.maxSpeed;
      }
    }

    method DecrementSpeed(deltaTime: real)
      modifies this`currentSpeed
      ensures currentSpeed == DecrementedSpeed(config, old(currentSpeed), deltaTime)
    {
      ghost var decrement := config.speedDeceleration * deltaTime;
      currentSpeed := currentSpeed - config.speedDeceleration * deltaTime;
      assert currentSpeed == old(currentSpeed) - decrement;
      if currentSpeed < config.minSpeed {
        currentSpeed := config.minSpeed;
      }
    }

    method DoJumpLogic(f: Frame)
      modifies this`canDoubleJump, this`velocityY
      ensures velocityY == VelocityYAfter(config, old(velocityY), old(canDoubleJump), f)
      ensures canDoubleJump == DoubleJumpAfter(old(canDoubleJump), f)
    {
      if f.isGrounded {
        canDoubleJump := true;
      }
      if f.jumpPressed && (f.isGrounded || canDoubleJump) {
        velocityY := config.jumpHeight;
      }
      ApplyGravity(f.deltaTime);
      if f.jumpPressed && !f.isGrounded && canDoubleJump {
        canDoubleJump := false;
      }
    }

    method ApplyGravity(deltaTime: real)
      modifies this`velocityY
      ensures velocityY == old(velocityY) + config.gravityValue * deltaTime
    {
      velocityY := velocityY + config.gravityValue * deltaTime;
    }

    method ApplyDutchToCamera(f: Frame)
      modifies this`currentDutchDuration, this`dutchChangeTimer, this`invertDutch, this`dutch
      ensures currentDutchDuration == DutchDuration(config, currentSpeedPercentage)
      ensures var timer := old(dutchChangeTimer) + f.deltaTime;
        var fires := DutchFires(timer, currentDutchDuration, f);
        && dutchChangeTimer == (if fires then 0.0 else timer)
        && invertDutch == (if fires then !old(invertDutch) else old(invertDutch))
        && dutch == (if fires then DutchAngle(config, currentSpeedPercentage, old(invertDutch))
                     else if f.isGrounded && Moving(f) then old(dutch)
                     else 0.0)
    {
      currentDutchDuration := Lerp(config.initialDutchDuration, config.finalDutchDuration, currentSpeedPercentage);
      dutchChangeTimer := dutchChangeTimer + f.deltaTime;
      if f.isGrounded && f.moveSqrMagnitude > MoveThreshold {
        if dutchChangeTimer >= currentDutchDuration {
          var dutchAngle := Lerp(0.0, config.maxDutch, currentSpeedPercentage);
          if invertDutch {
            dutchAngle := -dutchAngle;
          }
          dutch := dutchAngle;
          invertDutch := !invertDutch;
          dutchChangeTimer := 0.0;
        }
      } else {
        dutch := 0.0;
      }
    }

    method ApplyNoiseToCamera(f: Frame)
      modifies this`noiseGain
      ensures noiseGain == NoiseGain(config, currentSpeedPercentage, f)
    {
      if f.moveSqrMagnitude > MoveThreshold {
        noiseGain := Lerp(0.0, config.maxCameraNoise, currentSpeedPercentage);
      } else {
        noiseGain := 0.0;
      }
    }
  }
}
