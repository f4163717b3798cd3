/**
 * The mode / speed / colour controller and one pass of the main loop, as
 * functions over the device state.  Mode 0 changes colours by itself (and the
 * change button steps the speed); mode 1 shows one colour (and the change
 * button steps the colour).
 */
module Controller {
  import opened Bytes
  import Pwm
  import opened Buttons
  import opened Colors

  /** The three main-loop delays of changing-colour mode: fast, medium, slow. */
  predicate IsSpeed(speed: bv8)
  {
    speed == 0x00 || speed == 0x40 || speed == 0x80
  }

  /** The ordinal of a speed, 0 for the fastest. */
  function Level(speed: bv8): nat
    requires IsSpeed(speed)
  {
    if speed == 0x00 then 0 else if speed == 0x40 then 1 else 2
  }

  /** The speed after one press of the change button in changing-colour mode:
      add 0x40 and fall back to 0 past 0x80. */
  function NextSpeed(speed: bv8): (r: bv8)
    ensures r <= 0x80
    ensures IsSpeed(speed) ==> IsSpeed(r) && Level(r) == (Level(speed) + 1) % 3
  {
    var s := speed + 0x40;
    if s > 0x80 then 0x00 else s
  }

  /** How many times the LED blinks to show the speed `speed`. */
  function BlinkCount(speed: bv8): (n: nat)
    ensures 1 <= n <= 4
    ensures IsSpeed(speed) ==> n == Level(speed) + 1
  {
    (speed >> 6) as int + 1
  }

  /** The speed after `n` presses of the change button. */
  function NextSpeedN(speed: bv8, n: nat): bv8
  {
    if n == 0 then speed else NextSpeed(NextSpeedN(speed, n - 1))
  }

  /** The speed walks fast, medium, slow, fast, .. with period 3. */
  lemma {:induction false} SpeedOrbit(speed: bv8, n: nat)
    requires IsSpeed(speed)
    ensures IsSpeed(NextSpeedN(speed, n))
    ensures Level(NextSpeedN(speed, n)) == (Level(speed) + n) % 3
  {
    if n > 0 {
      SpeedOrbit(speed, n - 1);
    }
  }

  /** Flipping between changing-colour mode (0) and single-colour mode (1). */
  function Toggle(mode: bv8): (r: bv8)
    ensures r ^ 0x01 == mode
    ensures mode <= 1 ==> r <= 1 && r != mode
  {
    mode ^ 0x01
  }

  /** Everything the program keeps between main-loop passes and interrupts. */
  datatype State = State(
    pwms: seq<bv8>,        // PWM levels the interrupt reads
    newpwms: seq<bv8>,     // targets of the fade
    mode: bv8,             // 0 changing colours, 1 single colour
    color: bv8,            // colour code of single-colour mode
    speed: bv8,            // main-loop delay of changing-colour mode
    pollState: bv8,        // last button sample
    pressed: bv8,          // buttons that went from 0 to 1 at the last poll
    released: bv8,         // buttons that went from 1 to 0 at the last poll
    pollStatePrev: bv8,    // sample the next poll compares against
    count: bv8)            // the interrupt's PWM counter

  /** What every reachable state satisfies. */
  predicate Inv(s: State)
  {
    && |s.pwms| == Pwm.NumberOfPwms && |s.newpwms| == Pwm.NumberOfPwms
    && s.mode <= 1
    && 1 <= s.color <= 7
    && IsSpeed(s.speed)
    && s.pollStatePrev & !ButtonMask == 0
    && forall i :: 0 <= i < Pwm.NumberOfPwms ==> s.newpwms[i] == 0x00 || s.newpwms[i] == 0xFF
  }

  /** The state at power-on, with the buttons reading `pind`. */
  function Reset(pind: bv8): (s: State)
    ensures Inv(s)
    ensures s.pwms == s.newpwms == [0xFF, 0xFF, 0xFF]
    ensures s.mode == 0x00 && s.color == 0x01 && s.speed == 0x00 && s.count == 0
    ensures s.pollStatePrev == Sample(pind)
  {
    State([0xFF, 0xFF, 0xFF], [0xFF, 0xFF, 0xFF], 0x00, 0x01, 0x00, 0, 0, 0, Sample(pind), 0)
  }

  /** One timer interrupt: only the counter changes. */
  function Tick(s: State): State
  {
    s.(count := s.count + 1)
  }

  /** The changing-colour step: fade every channel, and when all of them
      already stood at their targets draw a new target. */
  function ColorStep(s: State, rnd: nat): State
    requires |s.pwms| == Pwm.NumberOfPwms && |s.newpwms| == Pwm.NumberOfPwms
  {
    s.(pwms := FadeAll(s.pwms, s.newpwms),
       newpwms := if s.pwms == s.newpwms then TargetFromCode(RandomCode(rnd)) else s.newpwms)
  }

  /** One poll of the buttons, reading `pind`. */
  function Poll(s: State, pind: bv8): State
  {
    var cur := Sample(pind);
    var e := Detect(s.pollStatePrev, cur);
    s.(pollState := cur, pressed := e.pressed, released := e.released, pollStatePrev := cur)
  }

  /** A poll reports each button at most once, as pressed only if it is down
      in the new sample and as released only if it was down in the previous
      one, reports nothing when the sample did not change, and keeps the
      sample for the next poll. */
  lemma PollReportsEdges(s: State, pind: bv8)
    ensures Poll(s, pind).pressed & Poll(s, pind).released == 0
    ensures Poll(s, pind).pressed & !Sample(pind) == 0
    ensures Poll(s, pind).released & !s.pollStatePrev == 0
    ensures Sample(pind) == s.pollStatePrev ==> Poll(s, pind).pressed == 0 && Poll(s, pind).released == 0
    ensures Poll(s, pind).pollStatePrev == Sample(pind) == Poll(s, pind).pollState
    ensures Poll(s, pind).(pollState := s.pollState, pressed := s.pressed, released := s.released,
                           pollStatePrev := s.pollStatePrev) == s
  {
    var e := Detect(s.pollStatePrev, Sample(pind));
    assert e.pressed & !Sample(pind) == 0 by {
      AndNotSelf(!s.pollStatePrev, Sample(pind));
    }
    assert e.released & !s.pollStatePrev == 0 by {
      AndNotSelf(!Sample(pind), s.pollStatePrev);
    }
  }

  lemma AndNotSelf(a: bv8, b: bv8)
    ensures (a & b) & !b == 0
  {
  }

  /** The mode button: toggle the mode, and show the colour on entering mode 1. */
  function OnModeRelease(s: State): State
  {
    if s.released & ButtonMode != 0 then
      var m := Toggle(s.mode);
      s.(mode := m, pwms := if m != 0 then ColorPwms(s.color) else s.pwms)
    else s
  }

  /** The change button: next speed in mode 0, next colour (shown at once) otherwise. */
  function OnChangeRelease(s: State): State
  {
    if s.released & ButtonChange != 0 then
      if s.mode == 0 then s.(speed := NextSpeed(s.speed))
      else
        var c := NextColor(s.color);
        s.(color := c, pwms := ColorPwms(c))
    else s
  }

  /** Blinks shown by the change button, 0 when there are none. */
  function ChangeBlinks(s: State): nat
  {
    if s.released & ButtonChange != 0 && s.mode == 0 then BlinkCount(NextSpeed(s.speed)) else 0
  }

  /** A main-loop pass up to and including the mode button. */
  function AfterModeButton(s: State, pind: bv8, rnd: nat): State
    requires |s.pwms| == Pwm.NumberOfPwms && |s.newpwms| == Pwm.NumberOfPwms
  {
    OnModeRelease(Poll(if s.mode == 0 then ColorStep(s, rnd) else s, pind))
  }

  /** One pass of the main loop, with the buttons reading `pind` and `rand()`
      returning `rnd`. */
  function Iterate(s: State, pind: bv8, rnd: nat): State
    requires |s.pwms| == Pwm.NumberOfPwms && |s.newpwms| == Pwm.NumberOfPwms
  {
    OnChangeRelease(AfterModeButton(s, pind, rnd))
  }

  /** Blinks shown during one pass of the main loop. */
  function IterationBlinks(s: State, pind: bv8, rnd: nat): nat
    requires |s.pwms| == Pwm.NumberOfPwms && |s.newpwms| == Pwm.NumberOfPwms
  {
    ChangeBlinks(AfterModeButton(s, pind, rnd))
  }

  /** The colour step moves every channel that is off its target by exactly
      one unit toward it, never wrapping around, and leaves the others alone. */
  lemma ColorStepFades(s: State, rnd: nat)
    requires |s.pwms| == Pwm.NumberOfPwms && |s.newpwms| == Pwm.NumberOfPwms
    ensures forall i :: 0 <= i < Pwm.NumberOfPwms && s.pwms[i] == s.newpwms[i] ==> ColorStep(s, rnd).pwms[i] == s.pwms[i]
    ensures forall i :: 0 <= i < Pwm.NumberOfPwms && s.pwms[i] != s.newpwms[i] ==>
              Dist(s.pwms[i], ColorStep(s, rnd).pwms[i]) == 1 &&
              Dist(ColorStep(s, rnd).pwms[i], s.newpwms[i]) == Dist(s.pwms[i], s.newpwms[i]) - 1
  {
    var p := ColorStep(s, rnd).pwms;
    forall i | 0 <= i < Pwm.NumberOfPwms
      ensures s.pwms[i] == s.newpwms[i] ==> p[i] == s.pwms[i]
      ensures s.pwms[i] != s.newpwms[i] ==>
                Dist(s.pwms[i], p[i]) == 1 && Dist(p[i], s.newpwms[i]) == Dist(s.pwms[i], s.newpwms[i]) - 1
    {
      ApproachMovesOneUnit(s.pwms[i], s.newpwms[i]);
    }
  }

  /** The colour step draws a new target only when all three channels already
      stood at their targets, and then leaves the channels where they are;
      a drawn target is neither white nor dark. */
  lemma ColorStepRetargets(s: State, rnd: nat)
    requires |s.pwms| == Pwm.NumberOfPwms && |s.newpwms| == Pwm.NumberOfPwms
    ensures ColorStep(s, rnd).newpwms != s.newpwms ==> s.pwms == s.newpwms
    ensures s.pwms == s.newpwms ==> ColorStep(s, rnd).pwms == s.pwms
    ensures s.pwms == s.newpwms ==> ColorStep(s, rnd).newpwms == TargetFromCode(RandomCode(rnd))
    ensures s.pwms == s.newpwms ==>
              ColorStep(s, rnd).newpwms != [0x00, 0x00, 0x00] && ColorStep(s, rnd).newpwms != [0xFF, 0xFF, 0xFF]
  {
    if s.pwms == s.newpwms {
      var p := ColorStep(s, rnd).pwms;
      forall i | 0 <= i < Pwm.NumberOfPwms
        ensures p[i] == s.pwms[i]
      {
        ApproachMovesOneUnit(s.pwms[i], s.newpwms[i]);
      }
    }
  }

  /** Every main-loop pass keeps the invariant; a pass blinks at most three
      times, and when it blinks it shows the new speed's ordinal. */
  lemma IterateKeepsInv(s: State, pind: bv8, rnd: nat)
    requires Inv(s)
    ensures Inv(Iterate(s, pind, rnd))
    ensures IterationBlinks(s, pind, rnd) <= 3
    ensures IterationBlinks(s, pind, rnd) != 0 ==>
              IterationBlinks(s, pind, rnd) == Level(Iterate(s, pind, rnd).speed) + 1
  {
    var s1 := if s.mode == 0 then ColorStep(s, rnd) else s;
    assert Inv(s1);
    var s2 := Poll(s1, pind);
    assert Inv(s2);
    var s3 := OnModeRelease(s2);
    assert Inv(s3);
  }

  /** A timer interrupt changes nothing but the counter, which wraps at 256. */
  lemma TickKeepsInv(s: State)
    requires Inv(s)
    ensures Inv(Tick(s))
    ensures Tick(s).count as int == (s.count as int + 1) % 256
  {
    IncWraps(s.count);
  }

  /** The first pass after power-on finds every channel at its target and
      draws a new target, which is neither white nor the current dark. */
  lemma FirstIterationPicksTarget(pind: bv8, rnd: nat)
    ensures Iterate(Reset(pind), pind, rnd).pwms == [0xFF, 0xFF, 0xFF]
    ensures Iterate(Reset(pind), pind, rnd).newpwms == TargetFromCode(RandomCode(rnd))
    ensures Iterate(Reset(pind), pind, rnd).newpwms != [0x00, 0x00, 0x00]
    ensures Iterate(Reset(pind), pind, rnd).newpwms != [0xFF, 0xFF, 0xFF]
    ensures Iterate(Reset(pind), pind, rnd).mode == 0
    ensures Iterate(Reset(pind), pind, rnd).pressed == 0 && Iterate(Reset(pind), pind, rnd).released == 0
  {
    var s := Reset(pind);
    assert FadeAll(s.pwms, s.newpwms) == s.pwms;
  }

  /** Edge triggering: while the buttons keep their level nothing but the
      colour step happens, however long a button is held. */
  lemma HeldButtonsIgnored(s: State, pind: bv8, rnd: nat)
    requires Inv(s) && Sample(pind) == s.pollStatePrev
    ensures Iterate(s, pind, rnd).mode == s.mode
    ensures Iterate(s, pind, rnd).color == s.color
    ensures Iterate(s, pind, rnd).speed == s.speed
    ensures Iterate(s, pind, rnd).pressed == 0 && Iterate(s, pind, rnd).released == 0
    ensures IterationBlinks(s, pind, rnd) == 0
    ensures s.mode != 0 ==> Iterate(s, pind, rnd).pwms == s.pwms && Iterate(s, pind, rnd).newpwms == s.newpwms
  {
    var s1 := if s.mode == 0 then ColorStep(s, rnd) else s;
    assert Poll(s1, pind).released == 0;
  }

  /** In changing-colour mode, while some channel is off target, a pass moves
      every channel one unit toward its target and keeps the targets. */
  lemma FadeWhileCycling(s: State, pind: bv8, rnd: nat)
    requires Inv(s) && s.mode == 0 && s.pwms != s.newpwms
    requires Sample(pind) == s.pollStatePrev
    ensures Iterate(s, pind, rnd).newpwms == s.newpwms
    ensures forall i :: 0 <= i < Pwm.NumberOfPwms ==> Iterate(s, pind, rnd).pwms[i] == Approach(s.pwms[i], s.newpwms[i])
  {
    var s1 := ColorStep(s, rnd);
    assert Poll(s1, pind).released == 0;
  }

  /** Releasing the mode button (port D bit 0 going from 1 to 0) in
      changing-colour mode with colour 1 enters single-colour mode and shows
      colour 1 at once: channel 0 at 0x00, the others at 0xFF. */
  lemma EnterSingleColorMode(s: State, rnd: nat)
    requires Inv(s) && s.mode == 0 && s.color == 1 && s.pollStatePrev == 0x03
    ensures Iterate(s, 0x02, rnd).mode == 1
    ensures Iterate(s, 0x02, rnd).pwms == [0x00, 0xFF, 0xFF]
    ensures Iterate(s, 0x02, rnd).speed == s.speed && Iterate(s, 0x02, rnd).color == 1
    ensures IterationBlinks(s, 0x02, rnd) == 0
  {
    var s2 := Poll(ColorStep(s, rnd), 0x02);
    assert s2.released == 0x01;
  }

  /** Releasing the change button in single-colour mode at colour 7 wraps to
      colour 1 and shows it at once. */
  lemma SingleColorWraps(s: State, rnd: nat)
    requires Inv(s) && s.mode == 1 && s.color == 7 && s.pollStatePrev == 0x03
    ensures Iterate(s, 0x01, rnd).mode == 1
    ensures Iterate(s, 0x01, rnd).color == 1
    ensures Iterate(s, 0x01, rnd).pwms == [0x00, 0xFF, 0xFF]
    ensures Iterate(s, 0x01, rnd).newpwms == s.newpwms
  {
    var s2 := Poll(s, 0x01);
    assert s2.released == 0x02;
  }

  /** From the fastest speed, two releases of the change button (separated by
      a pass where it reads 1 again) give medium then slow speed, with two and
      then three blinks. */
  lemma SpeedChangeBlinks(s: State, r1: nat, r2: nat, r3: nat)
    requires Inv(s) && s.mode == 0 && s.speed == 0x00 && s.pollStatePrev == 0x03
    ensures Iterate(s, 0x01, r1).speed == 0x40
    ensures IterationBlinks(s, 0x01, r1) == 2
    ensures Iterate(Iterate(s, 0x01, r1), 0x03, r2).speed == 0x40
    ensures IterationBlinks(Iterate(s, 0x01, r1), 0x03, r2) == 0
    ensures Iterate(Iterate(Iterate(s, 0x01, r1), 0x03, r2), 0x01, r3).speed == 0x80
    ensures IterationBlinks(Iterate(Iterate(s, 0x01, r1), 0x03, r2), 0x01, r3) == 3
  {
    IterateKeepsInv(s, 0x01, r1);
    var t1 := Iterate(s, 0x01, r1);
    assert Poll(ColorStep(s, r1), 0x01).released == 0x02;
    IterateKeepsInv(t1, 0x03, r2);
    var t2 := Iterate(t1, 0x03, r2);
    assert Poll(ColorStep(t1, r2), 0x03).released == 0x00;
    assert Poll(ColorStep(t2, r3), 0x01).released == 0x02;
  }
}
