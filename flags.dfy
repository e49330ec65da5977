/**
 * The processor status byte and its primitives (`setFlag`, `unsetFlag`,
 * `testFlag`, `donz`, `donzc` of nesulator3/cpu.cpp). In the source these
 * update the `Flags` field of the CPU record in place; here they are pure
 * functions from the old status byte to the new one, and the CPU class
 * assigns their result to its `flags` field.
 */
module Flags {
  import opened Bits

  /** Bit masks of the status byte (the `FLAGS` constant of the source). */
  const N: bv8 := 0x80
  const V: bv8 := 0x40
  const B: bv8 := 0x10
  const D: bv8 := 0x08
  const I: bv8 := 0x04
  const Z: bv8 := 0x02
  const C: bv8 := 0x01

  /** `testFlag`: whether any bit of `mask` is set in `f`. */
  predicate TestFlag(f: bv8, mask: bv8)
  {
    f & mask != 0
  }

  /** `setFlag(flag)`: the bits of `mask` become 1, all other bits are kept. */
  function SetFlag(f: bv8, mask: bv8): (r: bv8)
    ensures r & mask == mask
    ensures r & !mask == f & !mask
  {
    f | mask
  }

  /** `unsetFlag(flag)`: the bits of `mask` become 0, all other bits are kept. */
  function UnsetFlag(f: bv8, mask: bv8): (r: bv8)
    ensures r & mask == 0
    ensures r & !mask == f & !mask
  {
    f & !mask
  }

  /**
   * `setFlag(flag, state)`: the bits of `mask` become 1 when `state` holds
   * and 0 otherwise; no bit outside `mask` changes.
   */
  function SetFlagTo(f: bv8, mask: bv8, state: bool): (r: bv8)
    ensures r & mask == (if state then mask else 0)
    ensures r & !mask == f & !mask
  {
    if state then f | mask else f & !mask
  }

  /**
   * `donz`: N becomes bit 7 of `v`, Z becomes "v is zero", and the other six
   * bits of the status byte are kept.
   */
  function Donz(f: bv8, v: bv8): (r: bv8)
    ensures TestFlag(r, N) == (v & 0x80 != 0)
    ensures TestFlag(r, Z) == (v == 0)
    ensures r & !(N | Z) == f & !(N | Z)
  {
    SetFlagTo(SetFlagTo(f, N, v & 0x80 != 0), Z, v == 0)
  }

  /**
   * `donzc` on a 16-bit intermediate: N becomes bit 7 and Z "low byte is
   * zero", as for `donz` on the low byte, and C becomes bit 8 (0x100) of
   * `v`; the other five bits are kept.
   */
  function Donzc(f: bv8, v: u16): (r: bv8)
    ensures TestFlag(r, N) == (v % 0x100 >= 0x80)
    ensures TestFlag(r, Z) == (v % 0x100 == 0)
    ensures TestFlag(r, C) == (v / 0x100 % 2 == 1)
    ensures TestFlag(r, N) == (Low(v) & 0x80 != 0) && TestFlag(r, Z) == (Low(v) == 0)
    ensures r & !(N | Z | C) == f & !(N | Z | C)
  {
    var lo := Low(v);
    SetFlagTo(SetFlagTo(SetFlagTo(f, N, lo & 0x80 != 0), Z, lo == 0), C, v / 0x100 % 2 == 1)
  }

  /** Setting the bits of `mask` leaves every flag outside `mask` as it was. */
  lemma SetFlagToKeeps(f: bv8, mask: bv8, state: bool, other: bv8)
    requires mask & other == 0
    ensures TestFlag(SetFlagTo(f, mask, state), other) == TestFlag(f, other)
  {
  }

  /** Reading a flag back after `setFlag(flag, state)` gives `state`. */
  lemma TestAfterSet(f: bv8, mask: bv8, state: bool)
    requires mask != 0
    ensures TestFlag(SetFlagTo(f, mask, state), mask) == state
  {
  }
}
