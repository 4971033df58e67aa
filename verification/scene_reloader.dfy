/** The restart key: pressing R twice within a short window reloads the
    current scene. The scene load itself belongs to the engine; the model
    reports it as a flag. */
module Reloading {
  import opened Mathf

  /** One frame as the component sees it: the frame time and whether R went
      down this frame. */
  datatype KeyFrame = KeyFrame(deltaTime: real, rPressed: bool)

  /** The window the component ships with, in seconds. */
  const DefaultPressAgainTimerDuration: real := 0.3

  /** The timer after a frame and whether the frame asked for a reload. */
  datatype Outcome = Outcome(timer: real, reload: bool)

  /** One frame: a press inside the open window reloads, a press outside it
      opens the window; either way the window then decays by the frame time,
      floored at 0. */
  function Step(duration: real, timer: real, f: KeyFrame): (r: Outcome)
    ensures r.timer >= 0.0
    ensures r.reload <==> f.rPressed && timer > 0.0
  {
    if f.rPressed && timer > 0.0 then Outcome(Max(0.0, timer - f.deltaTime), true)
    else
      var armed := if f.rPressed then duration else timer;
      Outcome(Max(0.0, armed - f.deltaTime), false)
  }

  /** A press on a closed window opens it for the full duration, less the
      frame time, and does not reload. */
  lemma PressArmsWindow(duration: real, timer: real, f: KeyFrame)
    requires f.rPressed && timer <= 0.0
    ensures Step(duration, timer, f) == Outcome(Max(0.0, duration - f.deltaTime), false)
  {
  }

  /** Without a press the window only decays, towards 0 and never below it. */
  lemma IdleFrameDecays(duration: real, timer: real, f: KeyFrame)
    requires !f.rPressed && timer >= 0.0 && f.deltaTime >= 0.0
    ensures var r := Step(duration, timer, f);
      !r.reload && r.timer == Max(0.0, timer - f.deltaTime) && r.timer <= timer
  {
  }

  /** The window never exceeds its duration. */
  lemma StepStaysInWindow(duration: real, timer: real, f: KeyFrame)
    requires duration >= 0.0 && 0.0 <= timer <= duration && f.deltaTime >= 0.0
    ensures Step(duration, timer, f).timer <= duration
  {
  }

  /** Two presses in a row reload when the first frame was shorter than the window. */
  lemma DoublePressReloads(duration: real, f1: KeyFrame, f2: KeyFrame)
    requires f1.rPressed && f2.rPressed && f1.deltaTime < duration
    ensures !Step(duration, 0.0, f1).reload
    ensures Step(duration, Step(duration, 0.0, f1).timer, f2).reload
  {
  }

  /** With the shipped 0.3 s window, two presses of R on consecutive frames
      reload whenever the first frame is shorter than 0.3 s, that is, at any
      frame rate above about 3.3 frames per second. */
  lemma ShippedWindowReloadsOnDoublePress(f1: KeyFrame, f2: KeyFrame)
    requires f1.rPressed && f2.rPressed && f1.deltaTime < 0.3
    ensures !Step(DefaultPressAgainTimerDuration, 0.0, f1).reload
    ensures Step(DefaultPressAgainTimerDuration, Step(DefaultPressAgainTimerDuration, 0.0, f1).timer, f2).reload
  {
    DoublePressReloads(DefaultPressAgainTimerDuration, f1, f2);
  }

  /** The timer after a run of frames from the initial 0, folding from the end
      so that a run extends by one frame at a time. */
  function TimerAfter(duration: real, frames: seq<KeyFrame>): (r: real)
    ensures r >= 0.0
    ensures frames != [] && frames[|frames| - 1].rPressed && TimerAfter(duration, frames[..|frames| - 1]) <= 0.0
      ==> r == Max(0.0, duration - frames[|frames| - 1].deltaTime)
    decreases |frames|
  {
    if frames == [] then 0.0
    else Step(duration, TimerAfter(duration, frames[..|frames| - 1]), frames[|frames| - 1]).timer
  }

  /** The time the frames of a run take together. */
  function Elapsed(frames: seq<KeyFrame>): real
    decreases |frames|
  {
    if frames == [] then 0.0 else Elapsed(frames[..|frames| - 1]) + frames[|frames| - 1].deltaTime
  }

  predicate NonNegativeTimes(frames: seq<KeyFrame>)
  {
    forall i :: 0 <= i < |frames| ==> frames[i].deltaTime >= 0.0
  }

  /** What the window means: an open window was opened by a press no longer
      ago than the duration, and its remaining time is at most the duration
      less the time since that press. */
  lemma {:induction false} OpenWindowHasRecentPress(duration: real, frames: seq<KeyFrame>)
    requires duration >= 0.0 && NonNegativeTimes(frames)
    ensures 0.0 <= TimerAfter(duration, frames) <= duration
    ensures TimerAfter(duration, frames) > 0.0 ==>
      exists j :: 0 <= j < |frames| && frames[j].rPressed
        && TimerAfter(duration, frames) <= duration - Elapsed(frames[j..])
    decreases |frames|
  {
    if frames != [] {
      var n := |frames| - 1;
      var prefix := frames[..n];
      var f := frames[n];
      var t := TimerAfter(duration, prefix);
      assert NonNegativeTimes(prefix);
      OpenWindowHasRecentPress(duration, prefix);
      var t' := TimerAfter(duration, frames);
      assert t' == Step(duration, t, f).timer;
      if t' > 0.0 {
        if f.rPressed {
          assert frames[n..] == [f];
          assert Elapsed(frames[n..]) == f.deltaTime by {
            assert frames[n..][..0] == [];
          }
        } else {
          var j :| 0 <= j < n && prefix[j].rPressed && t <= duration - Elapsed(prefix[j..]);
          assert frames[j..][..|frames[j..]| - 1] == prefix[j..];
          assert Elapsed(frames[j..]) == Elapsed(prefix[j..]) + f.deltaTime;
          assert frames[j].rPressed;
        }
      }
    }
  }

  /** Frames on which R does not go down. */
  predicate NoPress(frames: seq<KeyFrame>)
  {
    forall i :: 0 <= i < |frames| ==> !frames[i].rPressed
  }

  lemma {:induction false} ElapsedNonNegative(frames: seq<KeyFrame>)
    requires NonNegativeTimes(frames)
    ensures Elapsed(frames) >= 0.0
    decreases |frames|
  {
    if frames != [] {
      assert NonNegativeTimes(frames[..|frames| - 1]);
      ElapsedNonNegative(frames[..|frames| - 1]);
    }
  }

  /** The time of two runs played one after the other is the sum of their times. */
  lemma {:induction false} ElapsedAppend(a: seq<KeyFrame>, b: seq<KeyFrame>)
    ensures Elapsed(a + b) == Elapsed(a) + Elapsed(b)
    decreases |b|
  {
    if b == [] {
      assert a + b == a;
    } else {
      var n := |b| - 1;
      assert (a + b)[..|a + b| - 1] == a + b[..n];
      ElapsedAppend(a, b[..n]);
    }
  }

  /** Without presses the window decays by the time the frames take, floored at 0. */
  lemma {:induction false} IdleFramesDecay(duration: real, pre: seq<KeyFrame>, idle: seq<KeyFrame>)
    requires NoPress(idle) && NonNegativeTimes(idle)
    ensures TimerAfter(duration, pre + idle) == Max(0.0, TimerAfter(duration, pre) - Elapsed(idle))
    decreases |idle|
  {
    if idle == [] {
      assert pre + idle == pre;
    } else {
      var n := |idle| - 1;
      var rest := idle[..n];
      assert (pre + idle)[..|pre + idle| - 1] == pre + rest;
      assert (pre + idle)[|pre + idle| - 1] == idle[n];
      assert NoPress(rest) && NonNegativeTimes(rest);
      IdleFramesDecay(duration, pre, rest);
      ElapsedNonNegative(rest);
    }
  }

  /** A double tap, in general: from a closed window, a press, any number of
      frames without a press and a second press reload exactly when the first
      press and the frames after it took less than the window's duration. */
  lemma PressIdlePress(duration: real, pre: seq<KeyFrame>, p: KeyFrame, idle: seq<KeyFrame>, q: KeyFrame)
    requires TimerAfter(duration, pre) == 0.0 && p.rPressed && q.rPressed
    requires NoPress(idle) && NonNegativeTimes(idle)
    ensures Step(duration, TimerAfter(duration, pre + [p] + idle), q).reload <==> Elapsed([p] + idle) < duration
  {
    var armed := pre + [p];
    assert armed[..|armed| - 1] == pre;
    assert TimerAfter(duration, armed) == Max(0.0, duration - p.deltaTime);
    IdleFramesDecay(duration, armed, idle);
    ElapsedNonNegative(idle);
    ElapsedAppend([p], idle);
    assert Elapsed([p]) == p.deltaTime by {
      assert [p][..0] == [];
    }
  }

  /** A reload is requested only on a frame where R is pressed, and only when
      an earlier press of R lies less than the window's duration back. */
  lemma ReloadNeedsTwoPressesInWindow(duration: real, frames: seq<KeyFrame>, f: KeyFrame)
    requires duration >= 0.0 && NonNegativeTimes(frames)
    requires Step(duration, TimerAfter(duration, frames), f).reload
    ensures f.rPressed
    ensures exists j :: 0 <= j < |frames| && frames[j].rPressed && Elapsed(frames[j..]) < duration
  {
    OpenWindowHasRecentPress(duration, frames);
  }

  class SceneReloader {
    const pressAgainTimerDuration: real
    var pressAgainTimer: real

    constructor (pressAgainTimerDuration: real)
      ensures this.pressAgainTimerDuration == pressAgainTimerDuration
      ensures pressAgainTimer == 0.0
    {
      this.pressAgainTimerDuration := pressAgainTimerDuration;
      pressAgainTimer := 0.0;
    }

    /** Update: one frame; `reload` stands for the call that reloads the active scene. */
    method Update(f: KeyFrame) returns (reload: bool)
      modifies this
      ensures Outcome(pressAgainTimer, reload) == Step(pressAgainTimerDuration, old(pressAgainTimer), f)
      ensures pressAgainTimer >= 0.0
      ensures (pressAgainTimerDuration >= 0.0 && 0.0 <= old(pressAgainTimer) <= pressAgainTimerDuration
               && f.deltaTime >= 0.0) ==> pressAgainTimer <= pressAgainTimerDuration
    {
      reload := false;
      if f.rPressed {
        if pressAgainTimer > 0.0 {
          reload := true;
        } else {
          pressAgainTimer := pressAgainTimerDuration;
        }
      }
      pressAgainTimer := Max(0.0, pressAgainTimer - f.deltaTime);
    }
  }
}
