/**
 * Colours of the LED.  A channel's PWM level is a byte; the lower it is, the
 * longer the interrupt keeps the channel's pin high.  Colours are named here
 * with a pin driven high lighting its LED: level 0x00 is fully lit, 0xFF
 * dark; "white" is all three channels at 0x00 and "dark" all three at 0xFF.
 * A colour code is a 3-bit number whose bit `i` speaks of channel `i`.  In
 * changing-colour mode each channel fades one unit per main-loop pass toward
 * its target; targets are picked at random from codes 1..6 (bit set: target
 * 0xFF, so the channel goes dark).  In single-colour mode the code cycles
 * through 1..7 and is shown at once with the opposite mapping (bit set:
 * level 0x00, so the channel is lit).
 */
module Colors {
  import opened Bytes
  import Pwm

  /** Distance between two levels. */
  function Dist(a: bv8, b: bv8): nat
  {
    var x, y := a as int, b as int;
    if x <= y then y - x else x - y
  }

  /** One fade step of one channel toward its target `t`. */
  function Approach(p: bv8, t: bv8): bv8
  {
    if p == t then p
    else if p < t then p + 1
    else if p > t then p - 1
    else p
  }

  /** A fade step leaves a channel at its target alone, and otherwise moves it
      by exactly one unit (never wrapping around) toward the target. */
  lemma ApproachMovesOneUnit(p: bv8, t: bv8)
    ensures p == t ==> Approach(p, t) == p
    ensures p != t ==> Dist(p, Approach(p, t)) == 1 && Dist(Approach(p, t), t) == Dist(p, t) - 1
  {
    if p < t {
      StepUp(p, t);
    } else if p > t {
      StepDown(p, t);
    }
  }

  /** Below a target an increment cannot wrap around. */
  lemma StepUp(p: bv8, t: bv8)
    requires p < t
    ensures (p + 1) as int == p as int + 1 && p as int < t as int
  {
  }

  /** Above a target a decrement cannot wrap around. */
  lemma StepDown(p: bv8, t: bv8)
    requires p > t
    ensures (p - 1) as int == p as int - 1 && p as int > t as int
  {
  }

  /** A channel after `n` fade steps toward a fixed target. */
  function FadeN(p: bv8, t: bv8, n: nat): bv8
  {
    if n == 0 then p else Approach(FadeN(p, t, n - 1), t)
  }

  /** Convergence: every step takes one unit off the distance, so the channel
      reaches its target after exactly `Dist(p, t)` steps and stays there. */
  lemma {:induction false} FadeConverges(p: bv8, t: bv8, n: nat)
    ensures Dist(FadeN(p, t, n), t) == if n <= Dist(p, t) then Dist(p, t) - n else 0
    ensures FadeN(p, t, n) == t <==> n >= Dist(p, t)
  {
    if n > 0 {
      FadeConverges(p, t, n - 1);
      ApproachMovesOneUnit(FadeN(p, t, n - 1), t);
      DistZero(FadeN(p, t, n - 1), t);
    }
    DistZero(FadeN(p, t, n), t);
  }

  lemma DistZero(a: bv8, b: bv8)
    ensures Dist(a, b) == 0 <==> a == b
  {
  }

  /** All channels after one fade step. */
  function FadeAll(p: seq<bv8>, t: seq<bv8>): seq<bv8>
    requires |p| == |t|
  {
    seq(|p|, i requires 0 <= i < |p| => Approach(p[i], t[i]))
  }

  lemma FadeAllFromChannels(p: seq<bv8>, t: seq<bv8>, s: seq<bv8>)
    requires |p| == |t| == |s|
    requires forall k :: 0 <= k < |s| ==> s[k] == Approach(p[k], t[k])
    ensures s == FadeAll(p, t)
  {
  }

  /** How many of the first `n` channels already equal their targets. */
  function Matched(p: seq<bv8>, t: seq<bv8>, n: nat): nat
    requires n <= |p| && n <= |t|
  {
    if n == 0 then 0
    else Matched(p, t, n - 1) + (if p[n - 1] == t[n - 1] then 1 else 0)
  }

  /** The count reaches `n` exactly when every one of the first `n` channels
      is at its target. */
  lemma {:induction false} MatchedCountsReached(p: seq<bv8>, t: seq<bv8>, n: nat)
    requires n <= |p| && n <= |t|
    ensures Matched(p, t, n) <= n
    ensures Matched(p, t, n) == n <==> forall k :: 0 <= k < n ==> p[k] == t[k]
  {
    if n > 0 {
      MatchedCountsReached(p, t, n - 1);
    }
  }

  /** The channel targets for colour code `code`: bit set gives 0xFF (dark),
      clear gives 0x00 (lit). */
  function TargetFromCode(code: bv8): (t: seq<bv8>)
    ensures |t| == Pwm.NumberOfPwms
    ensures forall i :: 0 <= i < Pwm.NumberOfPwms ==> t[i] == if Bit(code, i) then 0xFF else 0x00
    ensures t == [0x00, 0x00, 0x00] <==> code & 0x07 == 0
    ensures t == [0xFF, 0xFF, 0xFF] <==> code & 0x07 == 0x07
  {
    [ ((code >> 0) & 0x01) * 0xFF,
      ((code >> 1) & 0x01) * 0xFF,
      ((code >> 2) & 0x01) * 0xFF ]
  }

  /** The colour code drawn from the random value `rnd` (`rand() % 6 + 1`):
      its target is never white and never dark. */
  function RandomCode(rnd: nat): (code: bv8)
    ensures 1 <= code <= 6
    ensures TargetFromCode(code) != [0x00, 0x00, 0x00]
    ensures TargetFromCode(code) != [0xFF, 0xFF, 0xFF]
  {
    ((rnd % 6) + 1) as bv8
  }

  /** The levels that show colour code `color` at once: bit set gives 0x00
      (lit), clear gives 0xFF (dark), the complement of TargetFromCode. */
  function ColorPwms(color: bv8): (p: seq<bv8>)
    ensures |p| == Pwm.NumberOfPwms
    ensures forall i :: 0 <= i < Pwm.NumberOfPwms ==> p[i] == if Bit(color, i) then 0x00 else 0xFF
    ensures forall i :: 0 <= i < Pwm.NumberOfPwms ==> p[i] == !TargetFromCode(color)[i]
  {
    [ if color & 0x01 != 0 then 0x00 else 0xFF,
      if color & 0x02 != 0 then 0x00 else 0xFF,
      if color & 0x04 != 0 then 0x00 else 0xFF ]
  }

  /** The codes of single-colour mode light at least one channel, and light
      all three (white) exactly at code 7; as a random target the same code 7
      would be dark, and the random draw never picks it. */
  lemma ManualColors(c: bv8)
    requires 1 <= c <= 7
    ensures ColorPwms(c) != [0xFF, 0xFF, 0xFF]
    ensures ColorPwms(c) == [0x00, 0x00, 0x00] <==> c == 7
    ensures TargetFromCode(c) == [0xFF, 0xFF, 0xFF] <==> c == 7
  {
  }

  /** The next colour code in single-colour mode: 1..7 in turn, skipping 0. */
  function NextColor(color: bv8): (r: bv8)
    ensures 1 <= r <= 7
    ensures color <= 7 ==> r as int == color as int % 7 + 1
  {
    var c := (color + 1) & 0x07;
    if c == 0 then c + 1 else c
  }

  /** The colour code after `n` presses of the change button. */
  function NextColorN(color: bv8, n: nat): bv8
  {
    if n == 0 then color else NextColor(NextColorN(color, n - 1))
  }

  /** Starting from a valid code, the change button walks 1, 2, .., 7, 1, ..
      with period 7. */
  lemma {:induction false} ColorOrbit(color: bv8, n: nat)
    requires 1 <= color <= 7
    ensures NextColorN(color, n) as int == (color as int - 1 + n) % 7 + 1
  {
    if n > 0 {
      ColorOrbit(color, n - 1);
    }
  }
}
