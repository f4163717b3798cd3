/**
 * The firmware in its later form: the timer interrupt, the button routines,
 * `setColor(uint8_t)` and the body of the main loop, all acting on one
 * device object.  The globals (`pwms`, the button bytes), the interrupt's
 * static counter and the main loop's locals (`mode`, `color`, `speed`,
 * `newpwms`) are its fields.  The port D input register and `rand()` are
 * parameters of the operations that read them.
 */
module Rgb {
  import opened Bytes
  import Pwm
  import opened Buttons
  import opened Colors
  import opened Controller

  class Device {
    const pwms: array<bv8>
    const newpwms: array<bv8>
    var mode: bv8
    var color: bv8
    var speed: bv8
    var pollState: bv8
    var pressedButtons: bv8
    var releasedButtons: bv8
    var pollStatePrev: bv8
    var count: bv8

    ghost predicate Valid()
    {
      pwms.Length == Pwm.NumberOfPwms && newpwms.Length == Pwm.NumberOfPwms && pwms != newpwms
    }

    /** The device state as a value. */
    ghost function Snapshot(): State
      reads this, pwms, newpwms
    {
      State(pwms[..], newpwms[..], mode, color, speed,
            pollState, pressedButtons, releasedButtons, pollStatePrev, count)
    }

    /** Power-on up to the main loop: every channel and target at 0xFF (dark),
        buttons sampled. */
    constructor (pind: bv8)
      ensures Valid() && fresh(pwms) && fresh(newpwms)
      ensures Snapshot() == Reset(pind)
    {
      pwms := new bv8[Pwm.NumberOfPwms];
      newpwms := new bv8[Pwm.NumberOfPwms];
      mode, color, speed := 0x00, 0x01, 0x00;
      pollState, pressedButtons, releasedButtons, pollStatePrev := 0, 0, 0, 0;
      count := 0;
      new;
      for i := 0 to Pwm.NumberOfPwms
        modifies pwms, newpwms
        invariant forall k :: 0 <= k < i ==> pwms[k] == 0xFF && newpwms[k] == 0xFF
      {
        newpwms[i] := 0xFF;
        pwms[i] := 0xFF;
      }
      assert pwms[..] == [0xFF, 0xFF, 0xFF] && newpwms[..] == [0xFF, 0xFF, 0xFF];
      InitButtons(pind);
    }

    /** The timer-0 overflow interrupt: advance the counter and return the byte
        written to port B. */
    method TimerOverflow() returns (portb: bv8)
      requires Valid()
      modifies this`count
      ensures Snapshot() == Tick(old(Snapshot()))
      ensures portb == Pwm.PortOut(pwms[..], count)
    {
      count := count + 1;
      ghost var p := pwms[..];
      var out: bv8 := 0;
      for i := 0 to Pwm.NumberOfPwms
        modifies {}
        invariant out == Pwm.OutBits(p, count, i)
      {
        out := out | Pwm.PinBit(pwms[i], count, i);
      }
      portb := out;
    }

    /** Take the first button sample, so that the first poll sees no edge. */
    method InitButtons(pind: bv8)
      modifies this`pollStatePrev
      ensures pollStatePrev == Sample(pind)
    {
      pollStatePrev := Sample(pind);
    }

    /** Read the buttons and work out which were pressed and released. */
    method PollButtons(pind: bv8)
      requires Valid()
      modifies this`pollState, this`pollStatePrev, this`pressedButtons, this`releasedButtons
      ensures Snapshot() == Poll(old(Snapshot()), pind)
    {
      pollState := Sample(pind);
      pollStatePrev := pollStatePrev ^ pollState;
      pressedButtons := pollStatePrev & pollState;
      releasedButtons := pollStatePrev & !pollState;
      pollStatePrev := pollState;
    }

    /** Show colour code `c` at once: bit set gives 0x00, clear gives 0xFF. */
    method SetColor(c: bv8)
      requires Valid()
      modifies pwms
      ensures pwms[..] == ColorPwms(c)
    {
      pwms[0] := if c & 0x01 != 0 then 0x00 else 0xFF;
      pwms[1] := if c & 0x02 != 0 then 0x00 else 0xFF;
      pwms[2] := if c & 0x04 != 0 then 0x00 else 0xFF;
    }

    /** Move every channel one unit toward its target; `done` counts the
        channels that were already there. */
    method FadeStep() returns (done: bv8)
      requires Valid()
      modifies pwms
      ensures pwms[..] == FadeAll(old(pwms[..]), newpwms[..])
      ensures done as int == Matched(old(pwms[..]), newpwms[..], Pwm.NumberOfPwms)
    {
      ghost var p, t := pwms[..], newpwms[..];
      done := 0;
      for i := 0 to Pwm.NumberOfPwms
        modifies pwms
        invariant done as int == Matched(p, t, i) <= i
        invariant forall k :: 0 <= k < i ==> pwms[k] == Approach(p[k], t[k])
        invariant forall k :: i <= k < Pwm.NumberOfPwms ==> pwms[k] == p[k]
      {
        assert pwms[i] == p[i] && newpwms[i] == t[i];
        if pwms[i] == newpwms[i] {
          IncWraps(done);
          done := done + 1;
        } else {
          pwms[i] := Approach(pwms[i], newpwms[i]);
        }
      }
      FadeAllFromChannels(p, t, pwms[..]);
    }

    /** Draw a new target colour, neither white nor dark, from the value `rnd`
        of `rand()`. */
    method PickTarget(rnd: nat)
      requires Valid()
      modifies newpwms
      ensures newpwms[..] == TargetFromCode(RandomCode(rnd))
    {
      var randomColor: bv8 := ((rnd % 6) + 1) as bv8;
      newpwms[0] := ((randomColor >> 0) & 0x01) * 0xFF;
      newpwms[1] := ((randomColor >> 1) & 0x01) * 0xFF;
      newpwms[2] := ((randomColor >> 2) & 0x01) * 0xFF;
    }

    /** The changing-colour step of the main loop. */
    method CycleColors(rnd: nat)
      requires Valid()
      modifies pwms, newpwms
      ensures Snapshot() == ColorStep(old(Snapshot()), rnd)
    {
      ghost var p := pwms[..];
      var done := FadeStep();
      MatchedCountsReached(p, newpwms[..], Pwm.NumberOfPwms);
      assert done == Pwm.NumberOfPwms as bv8 <==> p == newpwms[..];
      if done == Pwm.NumberOfPwms as bv8 {
        PickTarget(rnd);
      }
    }

    /** The speed feedback: count the blinks shown for the current speed. */
    method BlinkSpeed() returns (blinks: nat)
      ensures blinks == BlinkCount(speed)
      ensures IsSpeed(speed) ==> blinks == Level(speed) + 1
    {
      blinks := 0;
      var i: bv8 := (speed >> 6) + 1;
      while i > 0
        invariant blinks + i as int == BlinkCount(speed)
      {
        blinks := blinks + 1;
        i := i - 1;
      }
    }

    /** The mode button: toggle the mode and show the colour on entering mode 1. */
    method OnModeButton()
      requires Valid()
      modifies this`mode, pwms
      ensures Snapshot() == OnModeRelease(old(Snapshot()))
    {
      if releasedButtons & ButtonMode != 0 {
        mode := mode ^ 0x01;
        if mode != 0 {
          SetColor(color);
        }
      }
    }

    /** The change button: next speed (with blinks) or next colour. */
    method OnChangeButton() returns (blinks: nat)
      requires Valid()
      modifies this`speed, this`color, pwms
      ensures Snapshot() == OnChangeRelease(old(Snapshot()))
      ensures blinks == ChangeBlinks(old(Snapshot()))
    {
      blinks := 0;
      if releasedButtons & ButtonChange != 0 {
        if mode == 0 {
          speed := speed + 0x40;
          if speed > 0x80 {
            speed := 0x00;
          }
          assert speed == NextSpeed(old(speed));
          blinks := BlinkSpeed();
        } else {
          color := color + 1;
          color := color & 0x07;
          if color == 0 {
            color := color + 1;
          }
          assert color == NextColor(old(color));
          SetColor(color);
        }
      }
    }

    /** One pass of the main loop; the delay at its head only takes time. */
    method LoopIteration(pind: bv8, rnd: nat) returns (blinks: nat)
      requires Valid()
      modifies this, pwms, newpwms
      ensures Snapshot() == Iterate(old(Snapshot()), pind, rnd)
      ensures blinks == IterationBlinks(old(Snapshot()), pind, rnd)
      ensures Inv(old(Snapshot())) ==> Inv(Snapshot()) && blinks <= 3
    {
      if mode == 0 {
        CycleColors(rnd);
      }
      PollButtons(pind);
      OnModeButton();
      blinks := OnChangeButton();
      if Inv(old(Snapshot())) {
        IterateKeepsInv(old(Snapshot()), pind, rnd);
      }
    }
  }
}
