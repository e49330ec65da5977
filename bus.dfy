/**
 * The device bus of nesulator3/cpu.cpp (`basicRead`, `basicWrite`) as pure
 * functions over images of the registered devices, in registration order.
 *
 * A device covers the addresses [start, start + length); the bound
 * `start + length` is computed after integer promotion, so it does not wrap
 * at 0x10000. The device's `readfun`/`writefun` are external to the source;
 * the model assumes that a device owns `length` bytes, that a read at an
 * offset returns the stored byte and that a write at an offset stores it.
 */
module Bus {
  import opened Bits

  /** A registered device: its window and the bytes it currently stores. */
  datatype DeviceImage = DeviceImage(start: u16, length: u16, bytes: seq<bv8>)

  /** The range test of `basicRead`/`basicWrite`. */
  predicate Covers(d: DeviceImage, address: u16)
  {
    d.start <= address && d.start + d.length > address
  }

  /** Every device stores exactly `length` bytes. */
  predicate WellFormed(ds: seq<DeviceImage>)
  {
    forall k :: 0 <= k < |ds| ==> |ds[k].bytes| == ds[k].length
  }

  /**
   * The device's `readfun` at offset `address - start`. An image that
   * stores fewer bytes than the offset reads as 0; a well-formed bus never
   * reaches that case for a covered address.
   */
  function ByteAt(d: DeviceImage, address: u16): bv8
  {
    var offset := address - d.start;
    if 0 <= offset < |d.bytes| then d.bytes[offset] else 0
  }

  /**
   * `basicRead`: the scan stops at the first device in registration order
   * whose window covers `address`; an address no device covers reads 0.
   */
  function Read(ds: seq<DeviceImage>, address: u16): bv8
  {
    if ds == [] then 0
    else if Covers(ds[0], address) then ByteAt(ds[0], address)
    else Read(ds[1..], address)
  }

  /** The effect of `basicWrite` on one device: `writefun` when it covers `address`. */
  function WriteOne(d: DeviceImage, address: u16, value: bv8): (r: DeviceImage)
    ensures r.start == d.start && r.length == d.length && |r.bytes| == |d.bytes|
    ensures forall i :: 0 <= i < |d.bytes| ==>
              r.bytes[i] == if Covers(d, address) && i == address - d.start then value else d.bytes[i]
  {
    var offset := address - d.start;
    if Covers(d, address) && offset < |d.bytes| then d.(bytes := d.bytes[offset := value]) else d
  }

  /**
   * `basicWrite`: the scan does not stop at a match, so every device whose
   * window covers `address` stores `value`, and every other device is left
   * as it was; the number and order of devices do not change.
   */
  function Write(ds: seq<DeviceImage>, address: u16, value: bv8): (r: seq<DeviceImage>)
    ensures |r| == |ds|
    ensures forall k :: 0 <= k < |ds| ==> r[k] == WriteOne(ds[k], address, value)
    ensures WellFormed(ds) ==> WellFormed(r)
  {
    if ds == [] then []
    else [WriteOne(ds[0], address, value)] + Write(ds[1..], address, value)
  }

  /** `basicRead` returns the byte of the first covering device. */
  lemma {:induction false} ReadFirstMatch(ds: seq<DeviceImage>, address: u16, k: nat)
    requires k < |ds| && Covers(ds[k], address)
    requires forall j :: 0 <= j < k ==> !Covers(ds[j], address)
    ensures Read(ds, address) == ByteAt(ds[k], address)
    ensures WellFormed(ds) ==> Read(ds, address) == ds[k].bytes[address - ds[k].start]
  {
    if k > 0 {
      assert !Covers(ds[0], address);
      ReadFirstMatch(ds[1..], address, k - 1);
    }
  }

  /** An address that no device covers reads as 0. */
  lemma {:induction false} ReadUnmapped(ds: seq<DeviceImage>, address: u16)
    requires forall j :: 0 <= j < |ds| ==> !Covers(ds[j], address)
    ensures Read(ds, address) == 0
  {
    if ds != [] {
      assert !Covers(ds[0], address);
      ReadUnmapped(ds[1..], address);
    }
  }

  /** Whether some registered device covers `address`. */
  predicate Mapped(ds: seq<DeviceImage>, address: u16)
  {
    exists k :: 0 <= k < |ds| && Covers(ds[k], address)
  }

  /** A written byte reads back at its address when some device covers it. */
  lemma {:induction false} ReadAfterWrite(ds: seq<DeviceImage>, address: u16, value: bv8)
    requires WellFormed(ds) && Mapped(ds, address)
    ensures Read(Write(ds, address, value), address) == value
  {
    var w := Write(ds, address, value);
    if Covers(ds[0], address) {
      assert w[0] == WriteOne(ds[0], address, value);
    } else {
      var k :| 0 <= k < |ds| && Covers(ds[k], address);
      assert Mapped(ds[1..], address) by { assert Covers(ds[1..][k - 1], address); }
      assert w[1..] == Write(ds[1..], address, value);
      ReadAfterWrite(ds[1..], address, value);
    }
  }

  /** A write leaves every other address reading as before. */
  lemma {:induction false} ReadOtherAfterWrite(ds: seq<DeviceImage>, address: u16, other: u16, value: bv8)
    requires address != other
    ensures Read(Write(ds, address, value), other) == Read(ds, other)
  {
    if ds != [] {
      var w := Write(ds, address, value);
      assert w[1..] == Write(ds[1..], address, value);
      ReadOtherAfterWrite(ds[1..], address, other, value);
    }
  }

  /** A write does not change which addresses are mapped. */
  lemma MappedAfterWrite(ds: seq<DeviceImage>, address: u16, value: bv8, other: u16)
    requires Mapped(ds, other)
    ensures Mapped(Write(ds, address, value), other)
  {
    var k :| 0 <= k < |ds| && Covers(ds[k], other);
    assert Covers(Write(ds, address, value)[k], other);
  }
}
