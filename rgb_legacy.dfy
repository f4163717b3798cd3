/**
 * The firmware in its earlier form.  The program is the one of module Rgb,
 * but the operating state (`mode`, `color`, `speed` and the button bytes)
 * are globals with initial values, `setColor` takes no argument and shows the
 * global `color`, the interrupt keeps its port byte in a static `out`, and the
 * main loop does its work inline: one scratch byte `temp` serves every loop,
 * and the fade counter `done` is reused to hold the random colour code.
 * The port D input register and `rand()` are parameters.
 */
module RgbLegacy {
  import opened Bytes
  import Pwm
  import opened Buttons
  import opened Colors
  import opened Controller

  class Device {
    const pwms: array<bv8>
    const newpwms: array<bv8>
    var mode: bv8
    var color: bv8
    var speed: bv8
    var pollState: bv8
    var pressedButtons: bv8
    var releasedButtons: bv8
    var pollStatePrev: bv8
    var count: bv8
    var out: bv8

    ghost predicate Valid()
    {
      pwms.Length == Pwm.NumberOfPwms && newpwms.Length == Pwm.NumberOfPwms && pwms != newpwms
    }

    /** The device state as a value (the interrupt's `out` is not part of it). */
    ghost function Snapshot(): State
      reads this, pwms, newpwms
    {
      State(pwms[..], newpwms[..], mode, color, speed,
            pollState, pressedButtons, releasedButtons, pollStatePrev, count)
    }

    /** Power-on up to the main loop: globals at their initial values, every
        channel and target at 0xFF (dark), buttons sampled. */
    constructor (pind: bv8)
      ensures Valid() && fresh(pwms) && fresh(newpwms)
      ensures Snapshot() == Reset(pind)
      ensures out == 0
    {
      pwms := new bv8[Pwm.NumberOfPwms];
      newpwms := new bv8[Pwm.NumberOfPwms];
      mode, color, speed := 0x00, 0x01, 0x00;
      pollState, pressedButtons, releasedButtons, pollStatePrev := 0, 0, 0, 0;
      count, out := 0, 0;
      new;
      for temp := 0 to Pwm.NumberOfPwms
        modifies pwms, newpwms
        invariant forall k :: 0 <= k < temp ==> pwms[k] == 0xFF && newpwms[k] == 0xFF
      {
        newpwms[temp] := 0xFF;
        pwms[temp] := newpwms[temp];
      }
      assert pwms[..] == [0xFF, 0xFF, 0xFF] && newpwms[..] == [0xFF, 0xFF, 0xFF];
      InitButtons(pind);
    }

    /** The timer-0 overflow interrupt: advance the counter and leave in `out`
        the byte written to port B. */
    method TimerOverflow()
      requires Valid()
      modifies this`count, this`out
      ensures Snapshot() == Tick(old(Snapshot()))
      ensures out == Pwm.PortOut(pwms[..], count)
    {
      count := count + 1;
      out := 0;
      ghost var p := pwms[..];
      for temp := 0 to Pwm.NumberOfPwms
        modifies this`out
        invariant out == Pwm.OutBits(p, count, temp)
      {
        out := out | Pwm.PinBit(pwms[temp], count, temp);
      }
    }

    /** Take the first button sample, so that the first poll sees no edge. */
    method InitButtons(pind: bv8)
      modifies this`pollStatePrev
      ensures pollStatePrev == Sample(pind)
    {
      pollStatePrev := Sample(pind);
    }

    /** Read the buttons and work out which were pressed and released. */
    method PollButtons(pind: bv8)
      requires Valid()
      modifies this`pollState, this`pollStatePrev, this`pressedButtons, this`releasedButtons
      ensures Snapshot() == Poll(old(Snapshot()), pind)
    {
      pollState := Sample(pind);
      pollStatePrev := pollStatePrev ^ pollState;
      pressedButtons := pollStatePrev & pollState;
      releasedButtons := pollStatePrev & !pollState;
      pollStatePrev := pollState;
    }

    /** Show the global colour code at once: bit set gives 0x00, clear gives 0xFF. */
    method SetColor()
      requires Valid()
      modifies pwms
      ensures pwms[..] == ColorPwms(color)
    {
      pwms[0] := if color & 0x01 != 0 then 0x00 else 0xFF;
      pwms[1] := if color & 0x02 != 0 then 0x00 else 0xFF;
      pwms[2] := if color & 0x04 != 0 then 0x00 else 0xFF;
    }

    /** The fade loop of the main loop: move every channel one unit toward
        its target; `done` counts the channels that were already there. */
    method FadeStep() returns (done: bv8)
      requires Valid()
      modifies pwms
      ensures pwms[..] == FadeAll(old(pwms[..]), newpwms[..])
      ensures done as int == Matched(old(pwms[..]), newpwms[..], Pwm.NumberOfPwms)
    {
      ghost var p, t := pwms[..], newpwms[..];
      done := 0;
      for temp := 0 to Pwm.NumberOfPwms
        modifies pwms
        invariant done as int == Matched(p, t, temp) <= temp
        invariant forall k :: 0 <= k < temp ==> pwms[k] == Approach(p[k], t[k])
        invariant forall k :: temp <= k < Pwm.NumberOfPwms ==> pwms[k] == p[k]
      {
        assert pwms[temp] == p[temp] && newpwms[temp] == t[temp];
        if pwms[temp] == newpwms[temp] {
          IncWraps(done);
          done := done + 1;
        } else {
          pwms[temp] := Approach(pwms[temp], newpwms[temp]);
        }
      }
      FadeAllFromChannels(p, t, pwms[..]);
    }

    /** The changing-colour block of the main loop: fade, and when every
        channel already stood at its target, reuse `done` for the random code
        and set the new targets from its bits. */
    method CycleColors(rnd: nat)
      requires Valid()
      modifies pwms, newpwms
      ensures Snapshot() == ColorStep(old(Snapshot()), rnd)
    {
      ghost var p := pwms[..];
      var done := FadeStep();
      MatchedCountsReached(p, newpwms[..], Pwm.NumberOfPwms);
      assert done == Pwm.NumberOfPwms as bv8 <==> p == newpwms[..];
      if done == Pwm.NumberOfPwms as bv8 {
        done := RandomCode(rnd);
        for temp := 0 to Pwm.NumberOfPwms
          modifies newpwms
          invariant forall k :: 0 <= k < temp ==> newpwms[k] == TargetFromCode(done)[k]
        {
          newpwms[temp] := TargetChannel(done, temp);
        }
        assert newpwms[..] == TargetFromCode(done);
      }
    }

    /** The mode button: toggle the mode and show the colour on entering mode 1. */
    method OnModeButton()
      requires Valid()
      modifies this`mode, pwms
      ensures Snapshot() == OnModeRelease(old(Snapshot()))
    {
      if releasedButtons & ButtonMode != 0 {
        mode := mode ^ 0x01;
        if mode != 0 {
          SetColor();
        }
      }
    }

    /** The change button: next speed with its blinks, or next colour.
        `blinks` counts the passes of the blink loop. */
    method OnChangeButton() returns (blinks: nat)
      requires Valid()
      modifies this`speed, this`color, pwms
      ensures Snapshot() == OnChangeRelease(old(Snapshot()))
      ensures blinks == ChangeBlinks(old(Snapshot()))
    {
      blinks := 0;
      if releasedButtons & ButtonChange != 0 {
        if mode == 0 {
          speed := speed + 0x40;
          if speed > 0x80 {
            speed := 0x00;
          }
          assert speed == NextSpeed(old(speed));
          var temp: bv8 := (speed >> 6) + 1;
          while temp > 0
            invariant blinks + temp as int == BlinkCount(speed)
          {
            blinks := blinks + 1;
            temp := temp - 1;
          }
        } else {
          color := color + 1;
          color := color & 0x07;
          if color == 0 {
            color := color + 1;
          }
          assert color == NextColor(old(color));
          SetColor();
        }
      }
    }

    /** One pass of the main loop; the delay at its head only takes time. */
    method LoopIteration(pind: bv8, rnd: nat) returns (blinks: nat)
      requires Valid()
      modifies this, pwms, newpwms
      ensures Snapshot() == Iterate(old(Snapshot()), pind, rnd)
      ensures blinks == IterationBlinks(old(Snapshot()), pind, rnd)
      ensures Inv(old(Snapshot())) ==> Inv(Snapshot()) && blinks <= 3
      ensures out == old(out)
    {
      if mode == 0 {
        CycleColors(rnd);
      }
      PollButtons(pind);
      OnModeButton();
      blinks := OnChangeButton();
      if Inv(old(Snapshot())) {
        IterateKeepsInv(old(Snapshot()), pind, rnd);
      }
    }

    /** Target channel `i` of colour code `code`, as the main loop writes it
        with a shift by `i`. */
    static function TargetChannel(code: bv8, i: nat): (b: bv8)
      requires i < 3
      ensures b == TargetFromCode(code)[i]
    {
      ((code >> i) & 0x01) * 0xFF
    }
  }
}
