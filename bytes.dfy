/** Bit-level helpers shared by every part of the firmware model. */
module Bytes {

  /** The byte with only bit `i` set (avr-libc's `_BV(i)`, that is `1 << i`). */
  function BitValue(i: nat): (m: bv8)
    requires i < 8
  {
    if i == 0 then 0x01 else if i == 1 then 0x02 else if i == 2 then 0x04
    else if i == 3 then 0x08 else if i == 4 then 0x10 else if i == 5 then 0x20
    else if i == 6 then 0x40 else 0x80
  }

  /** Bit `i` of the byte `x` is set. */
  predicate Bit(x: bv8, i: nat)
    requires i < 8
  {
    x & BitValue(i) != 0
  }

  lemma BitOr(a: bv8, b: bv8, i: nat)
    requires i < 8
    ensures Bit(a | b, i) <==> Bit(a, i) || Bit(b, i)
  {
  }

  lemma BitOfValue(k: nat, i: nat)
    requires k < 8 && i < 8
    ensures Bit(BitValue(k), i) <==> i == k
  {
  }

  lemma BitOfZero(i: nat)
    requires i < 8
    ensures !Bit(0, i)
  {
  }

  /** Incrementing a byte wraps modulo 256. */
  lemma IncWraps(b: bv8)
    ensures (b + 1) as int == (b as int + 1) % 256
  {
  }
}
