/** The two-wire (I2C) bus the MPU-6050 driver talks through.

    The bus library itself is not part of this model. What the driver relies on
    is its four primitives; here every call is recorded, in order, as a `Call`,
    and reads are answered from a fixed snapshot of the device's registers.
 */
module Twi {

  datatype Option<T> = None | Some(value: T)

  /** What a register holds and what the primitives carry: a `uint8_t`. */
  newtype byte = x: int | 0 <= x < 0x100

  /** One call of a bus primitive: device address, register address, and the
      bit position, field width and value where the primitive takes them. */
  datatype Call =
    | ReadByte(dev: nat, reg: nat)
    | ReadBits(dev: nat, reg: nat, start: nat, length: nat)
    | WriteBit(dev: nat, reg: nat, pos: nat, bit: bool)
    | WriteBits(dev: nat, reg: nat, start: nat, length: nat, value: byte)
  {
    predicate IsWrite() { WriteBit? || WriteBits? }

    /** This call is a `WriteBits` of the field (dev, reg, start, length). */
    predicate WritesField(dev': nat, reg': nat, start': nat, length': nat) {
      WriteBits? && dev == dev' && reg == reg' && start == start' && length == length'
    }

    /** This call is a `WriteBit` of the bit (dev, reg, pos). */
    predicate WritesBit(dev': nat, reg': nat, pos': nat) {
      WriteBit? && dev == dev' && reg == reg' && pos == pos'
    }
  }

  /** The last value `t` writes to the given bit field with `WriteBits`, if any:
      what the driver has last asked the device to hold in that field. */
  function LastBits(t: seq<Call>, dev: nat, reg: nat, start: nat, length: nat): (r: Option<byte>)
    ensures r.Some? <==> exists k :: 0 <= k < |t| && t[k].WritesField(dev, reg, start, length)
  {
    if t == [] then None
    else
      var c := t[|t| - 1];
      if c.WritesField(dev, reg, start, length) then Some(c.value)
      else
        var r := LastBits(t[..|t| - 1], dev, reg, start, length);
        assert forall k :: 0 <= k < |t| - 1 ==> t[..|t| - 1][k] == t[k];
        r
  }

  /** The last value `t` writes to the given bit with `WriteBit`, if any. */
  function LastBit(t: seq<Call>, dev: nat, reg: nat, pos: nat): (r: Option<bool>)
    ensures r.Some? <==> exists k :: 0 <= k < |t| && t[k].WritesBit(dev, reg, pos)
  {
    if t == [] then None
    else
      var c := t[|t| - 1];
      if c.WritesBit(dev, reg, pos) then Some(c.bit)
      else
        var r := LastBit(t[..|t| - 1], dev, reg, pos);
        assert forall k :: 0 <= k < |t| - 1 ==> t[..|t| - 1][k] == t[k];
        r
  }

  /** Calls appended later decide a field's last value; the earlier trace only
      matters when the later calls leave the field alone. */
  lemma {:induction false} LastBitsAppend(t: seq<Call>, u: seq<Call>, dev: nat, reg: nat, start: nat, length: nat)
    ensures LastBits(t + u, dev, reg, start, length)
         == if LastBits(u, dev, reg, start, length).Some? then LastBits(u, dev, reg, start, length)
            else LastBits(t, dev, reg, start, length)
  {
    if u == [] {
      assert t + u == t;
    } else {
      assert (t + u)[..|t + u| - 1] == t + u[..|u| - 1];
      LastBitsAppend(t, u[..|u| - 1], dev, reg, start, length);
    }
  }

  /** The same for single bits. */
  lemma {:induction false} LastBitAppend(t: seq<Call>, u: seq<Call>, dev: nat, reg: nat, pos: nat)
    ensures LastBit(t + u, dev, reg, pos)
         == if LastBit(u, dev, reg, pos).Some? then LastBit(u, dev, reg, pos) else LastBit(t, dev, reg, pos)
  {
    if u == [] {
      assert t + u == t;
    } else {
      assert (t + u)[..|t + u| - 1] == t + u[..|u| - 1];
      LastBitAppend(t, u[..|u| - 1], dev, reg, pos);
    }
  }

  /** A recording bus. `trace` is every call made so far; `byteAt` and `bitsAt`
      are what the device answers to a byte read and to a bit-field read. */
  class Bus {
    var trace: seq<Call>
    const byteAt: (nat, nat) -> byte
    const bitsAt: (nat, nat, nat, nat) -> byte

    constructor (byteAt: (nat, nat) -> byte, bitsAt: (nat, nat, nat, nat) -> byte)
      ensures trace == [] && this.byteAt == byteAt && this.bitsAt == bitsAt
    {
      trace := [];
      this.byteAt := byteAt;
      this.bitsAt := bitsAt;
    }

    /** `twi_read_byte` */
    method ReadByte(dev: nat, reg: nat) returns (b: byte)
      modifies this`trace
      ensures b == byteAt(dev, reg)
      ensures trace == old(trace) + [Call.ReadByte(dev, reg)]
    {
      b := byteAt(dev, reg);
      trace := trace + [Call.ReadByte(dev, reg)];
    }

    /** `twi_read_bits` */
    method ReadBits(dev: nat, reg: nat, start: nat, length: nat) returns (v: byte)
      modifies this`trace
      ensures v == bitsAt(dev, reg, start, length)
      ensures trace == old(trace) + [Call.ReadBits(dev, reg, start, length)]
    {
      v := bitsAt(dev, reg, start, length);
      trace := trace + [Call.ReadBits(dev, reg, start, length)];
    }

    /** `twi_write_bit` */
    method WriteBit(dev: nat, reg: nat, pos: nat, bit: bool)
      modifies this`trace
      ensures trace == old(trace) + [Call.WriteBit(dev, reg, pos, bit)]
    {
      trace := trace + [Call.WriteBit(dev, reg, pos, bit)];
    }

    /** `twi_write_bits` */
    method WriteBits(dev: nat, reg: nat, start: nat, length: nat, value: byte)
      modifies this`trace
      ensures trace == old(trace) + [Call.WriteBits(dev, reg, start, length, value)]
    {
      trace := trace + [Call.WriteBits(dev, reg, start, length, value)];
    }
  }
}
