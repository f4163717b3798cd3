/**
 * The button edge detector.  Two buttons sit on bits 0 and 1 of port D; each
 * poll compares the new sample with the previous one and reports the bits
 * that went from 0 to 1 ("pressed") and from 1 to 0 ("released").
 */
module Buttons {
  import opened Bytes

  /** Changing colours / single colour button. */
  const ButtonMode: bv8 := 0x01
  /** Speed / colour button. */
  const ButtonChange: bv8 := 0x02
  /** The bits of port D that carry buttons. */
  const ButtonMask: bv8 := 0x03

  /** The buttons' part of a read of the port D input register. */
  function Sample(pind: bv8): (cur: bv8)
    ensures cur & !ButtonMask == 0
    ensures cur & ButtonMask == pind & ButtonMask
  {
    pind & ButtonMask
  }

  /** The edges one poll reports. */
  datatype Edges = Edges(pressed: bv8, released: bv8)

  /** Edges between the previous sample `prev` and the new sample `cur`,
      worked out as the firmware does (the changed bits, then those of them
      now set and those now clear): a button is reported pressed exactly when
      it went from 0 to 1 and released exactly when it went from 1 to 0; no
      button is both, and an unchanged sample reports nothing. */
  function Detect(prev: bv8, cur: bv8): (e: Edges)
    ensures e.pressed == !prev & cur
    ensures e.released == prev & !cur
    ensures e.pressed & e.released == 0
    ensures prev == cur ==> e.pressed == 0 && e.released == 0
  {
    var changed := prev ^ cur;
    Edges(changed & cur, changed & !cur)
  }
}
