/**
 * The software PWM generator run by the timer-0 overflow interrupt.
 *
 * On every interrupt an 8-bit counter is incremented (wrapping at 256) and
 * output pin `i` of port B is driven high exactly when the channel's stored
 * level is at most the counter.  Level 0 therefore keeps its pin high all the
 * time and level 255 only on one interrupt in 256.
 */
module Pwm {
  import opened Bytes

  /** One PWM channel per pin of the RGB LED. */
  const NumberOfPwms: nat := 3

  /** What channel `i`, at level `level`, contributes to the port byte
      when the counter reads `count`: its pin bit when the level is at
      most the counter, nothing otherwise. */
  function PinBit(level: bv8, count: bv8, i: nat): bv8
    requires i < 8
  {
    if level <= count then BitValue(i) else 0
  }

  /** The port byte the interrupt has built after examining channels `0 .. n-1`. */
  function OutBits(pwms: seq<bv8>, count: bv8, n: nat): bv8
    requires n <= |pwms| && n <= 8
  {
    if n == 0 then 0 else OutBits(pwms, count, n - 1) | PinBit(pwms[n - 1], count, n - 1)
  }

  /** Bit `i` of the byte built from channels `0 .. n-1` is set exactly when
      `i` is one of those channels and its level is at most the counter. */
  lemma {:induction false} OutBitsBit(pwms: seq<bv8>, count: bv8, n: nat, i: nat)
    requires n <= |pwms| && n <= 8 && i < 8
    ensures Bit(OutBits(pwms, count, n), i) <==> i < n && pwms[i] <= count
  {
    if n == 0 {
      BitOfZero(i);
    } else {
      OutBitsBit(pwms, count, n - 1, i);
      OutBitsStepBit(pwms, count, n, i);
    }
  }

  /** Examining channel `n-1` can only set bit `n-1`. */
  lemma OutBitsStepBit(pwms: seq<bv8>, count: bv8, n: nat, i: nat)
    requires 0 < n <= |pwms| && n <= 8 && i < 8
    ensures Bit(OutBits(pwms, count, n), i) <==>
              Bit(OutBits(pwms, count, n - 1), i) || (i == n - 1 && pwms[n - 1] <= count)
  {
    AddPin(OutBits(pwms, count, n - 1), pwms[n - 1], count, n - 1, i);
  }

  /** Or-ing in channel `k`'s contribution sets bit `k` when that channel is
      high and leaves every other bit alone. */
  lemma AddPin(a: bv8, level: bv8, count: bv8, k: nat, i: nat)
    requires k < 8 && i < 8
    ensures Bit(a | PinBit(level, count, k), i) <==> Bit(a, i) || (i == k && level <= count)
  {
    BitOr(a, PinBit(level, count, k), i);
    BitOfValue(k, i);
    BitOfZero(i);
  }

  /** A byte none of whose bits 3..7 is set has only pin bits. */
  lemma LowBitsOnly(x: bv8)
    requires !Bit(x, 3) && !Bit(x, 4) && !Bit(x, 5) && !Bit(x, 6) && !Bit(x, 7)
    ensures x & 0xF8 == 0
  {
  }

  /** The byte written to port B for the counter value `count`. */
  function PortOut(pwms: seq<bv8>, count: bv8): (out: bv8)
    requires |pwms| == NumberOfPwms
    ensures forall i :: 0 <= i < NumberOfPwms ==> (Bit(out, i) <==> pwms[i] <= count)
    ensures out & 0xF8 == 0
  {
    var out := OutBits(pwms, count, NumberOfPwms);
    PortBits(pwms, count);
    LowBitsOnly(out);
    out
  }

  lemma PortBits(pwms: seq<bv8>, count: bv8)
    requires |pwms| == NumberOfPwms
    ensures forall i :: 0 <= i < 8 ==> (Bit(OutBits(pwms, count, NumberOfPwms), i) <==> i < NumberOfPwms && pwms[i] <= count)
  {
    forall i | 0 <= i < 8
      ensures Bit(OutBits(pwms, count, NumberOfPwms), i) <==> i < NumberOfPwms && pwms[i] <= count
    {
      OutBitsBit(pwms, count, NumberOfPwms, i);
    }
  }

  /** The counter after `n` further interrupts, counting from `count`. */
  function CountAfter(count: bv8, n: nat): bv8
  {
    if n == 0 then count else CountAfter(count, n - 1) + 1
  }

  /** The counter wraps at 256: after `n` interrupts it reads `count + n` mod 256. */
  lemma {:induction false} CountAfterValue(count: bv8, n: nat)
    ensures CountAfter(count, n) as int == (count as int + n) % 256
  {
    if n > 0 {
      CountAfterValue(count, n - 1);
      IncWraps(CountAfter(count, n - 1));
      ModStep(CountAfter(count, n - 1) as int, count as int + n - 1);
    }
  }

  lemma ModStep(c: int, x: int)
    requires x >= 0 && c == x % 256
    ensures (c + 1) % 256 == (x + 1) % 256
  {
  }

  /** Comparing bytes is comparing their values. */
  lemma AtMost(a: bv8, b: bv8)
    ensures a <= b <==> a as int <= b as int
  {
  }

  /** On how many of the next `n` interrupts, starting from counter `count`,
      the interrupt drives channel `ch` high. */
  function HighTicks(pwms: seq<bv8>, ch: nat, count: bv8, n: nat): nat
    requires |pwms| == NumberOfPwms && ch < NumberOfPwms
  {
    if n == 0 then 0
    else HighTicks(pwms, ch, count, n - 1)
         + (if Bit(PortOut(pwms, CountAfter(count, n)), ch) then 1 else 0)
  }

  /** How many integers `t` in `[lo, hi)` satisfy `v <= t mod 256`. */
  function Above(v: int, lo: int, hi: int): nat
    decreases hi - lo
  {
    if hi <= lo then 0 else Above(v, lo, hi - 1) + (if v <= (hi - 1) % 256 then 1 else 0)
  }

  lemma {:induction false} AboveFirst(v: int, lo: int, hi: int)
    requires lo < hi
    ensures Above(v, lo, hi) == (if v <= lo % 256 then 1 else 0) + Above(v, lo + 1, hi)
    decreases hi - lo
  {
    if lo + 1 < hi {
      AboveFirst(v, lo, hi - 1);
    }
  }

  /** Every window of 256 consecutive counter values holds each byte once. */
  lemma {:induction false} AboveFullPeriod(v: int, s: int)
    requires 0 <= s
    ensures Above(v, s, s + 256) == Above(v, 0, 256)
    decreases s
  {
    if s > 0 {
      AboveFullPeriod(v, s - 1);
      AboveSlide(v, s);
    }
  }

  /** Sliding a 256-wide window by one drops and gains the same residue. */
  lemma AboveSlide(v: int, s: int)
    requires 0 < s
    ensures Above(v, s, s + 256) == Above(v, s - 1, s + 255)
  {
    AboveFirst(v, s - 1, s + 255);
    assert (s + 255) % 256 == (s - 1) % 256;
  }

  lemma {:induction false} AboveFromZero(v: int, hi: int)
    requires 0 <= v < 256 && 0 <= hi <= 256
    ensures Above(v, 0, hi) == if hi <= v then 0 else hi - v
  {
    if hi > 0 {
      AboveFromZero(v, hi - 1);
    }
  }

  /** Channel `ch` is high after the `n`-th further interrupt exactly when its
      level is at most the counter, read as an integer. */
  lemma TickBit(pwms: seq<bv8>, ch: nat, count: bv8, n: nat)
    requires |pwms| == NumberOfPwms && ch < NumberOfPwms
    ensures Bit(PortOut(pwms, CountAfter(count, n)), ch) <==> pwms[ch] as int <= (count as int + n) % 256
  {
    CountAfterValue(count, n);
    AtMost(pwms[ch], CountAfter(count, n));
  }

  /** The interrupts counted by HighTicks are those whose counter, read as an
      integer, lies in the window `count+1 .. count+n`. */
  lemma {:induction false} HighTicksWindow(pwms: seq<bv8>, ch: nat, count: bv8, n: nat)
    requires |pwms| == NumberOfPwms && ch < NumberOfPwms
    ensures HighTicks(pwms, ch, count, n) == Above(pwms[ch] as int, count as int + 1, count as int + 1 + n)
  {
    if n > 0 {
      HighTicksWindow(pwms, ch, count, n - 1);
      TickBit(pwms, ch, count, n);
    }
  }

  /** Duty cycle: over any 256 consecutive interrupts channel `ch` is driven
      high on exactly `256 - pwms[ch]` of them. */
  lemma DutyCycle(pwms: seq<bv8>, ch: nat, count: bv8)
    requires |pwms| == NumberOfPwms && ch < NumberOfPwms
    ensures HighTicks(pwms, ch, count, 256) == 256 - pwms[ch] as int
  {
    var v, lo := pwms[ch] as int, count as int + 1;
    HighTicksWindow(pwms, ch, count, 256);
    assert HighTicks(pwms, ch, count, 256) == Above(v, lo, lo + 256);
    AboveFullPeriod(v, lo);
    AboveFromZero(v, 256);
  }

  /** The two extreme levels: 0 keeps the pin high on every interrupt,
      255 drives it high only when the counter reads 255. */
  lemma Extremes(pwms: seq<bv8>, ch: nat, count: bv8)
    requires |pwms| == NumberOfPwms && ch < NumberOfPwms
    ensures pwms[ch] == 0x00 ==> Bit(PortOut(pwms, count), ch)
    ensures pwms[ch] == 0xFF ==> (Bit(PortOut(pwms, count), ch) <==> count == 0xFF)
  {
  }
}
