/** Raw motion samples of the MPU-6050.

    The sensor exposes its measurements as a block of 14 consecutive registers:
    accel X/Y/Z (high byte, low byte each), two temperature bytes, then gyro
    X/Y/Z (high byte, low byte each). The driver turns that block into six
    signed 16-bit channels; the temperature bytes are read but discarded.
 */
module MotionSample {

  import opened Twi

  /** The driver's `int16_t`. */
  newtype int16 = x: int | -0x8000 <= x < 0x8000

  /** Number of registers in the motion block. */
  const BlockLength: nat := 14

  /** Positions of the two temperature bytes in the block. */
  const TempHigh: nat := 6
  const TempLow: nat := 7

  /** One raw 6-axis sample, in the order the block holds the channels. */
  datatype Motion = Motion(ax: int16, ay: int16, az: int16, gx: int16, gy: int16, gz: int16)

  /** Channel `c` of a sample: 0..2 are accel X/Y/Z, 3..5 are gyro X/Y/Z. */
  function Channel(m: Motion, c: nat): int16
    requires c < 6
  {
    match c
    case 0 => m.ax
    case 1 => m.ay
    case 2 => m.az
    case 3 => m.gx
    case 4 => m.gy
    case _ => m.gz
  }

  /** Where the high byte of channel `c` sits in the block; its low byte follows it.
      The accel pairs start at 0, the gyro pairs skip the two temperature bytes. */
  function HighIndex(c: nat): (k: nat)
    requires c < 6
    ensures k + 1 < BlockLength && k != TempHigh && k != TempLow && k + 1 != TempHigh && k + 1 != TempLow
  {
    if c < 3 then 2 * c else 2 * c + 2
  }

  /** The 16-bit pattern of a value: what `int16_t` stores, read as unsigned. */
  function Bits16(v: int16): (u: int)
    ensures 0 <= u < 0x1_0000
    ensures u == v as int || u == v as int + 0x1_0000
  {
    if v < 0 then v as int + 0x1_0000 else v as int
  }

  /** The 16-bit word `(hi << 8) | lo` the driver forms from a register pair. The
      shift leaves the low eight bits clear, so the `|` adds the low byte (ShiftOrIsSum). */
  function Word(hi: byte, lo: byte): (w: int)
    ensures 0 <= w < 0x1_0000
    ensures w / 256 == hi as int && w % 256 == lo as int
  {
    hi as int * 256 + lo as int
  }

  /** On 16-bit machine words, `(hi << 8) | lo` is `hi * 256 + lo`. */
  lemma ShiftOrIsSum(hi: bv8, lo: bv8)
    ensures (((hi as bv16) << 8) | (lo as bv16)) as int == hi as int * 256 + lo as int
  {
  }

  /** Storing a 16-bit word into an `int16_t`: its two's-complement reading. */
  function Signed(w: int): (v: int16)
    requires 0 <= w < 0x1_0000
    ensures Bits16(v) == w
  {
    if w < 0x8000 then w as int16 else (w - 0x1_0000) as int16
  }

  /** One channel assembled from its big-endian register pair, as the driver does:
      the two's-complement reading of `hi * 256 + lo`. */
  function FromBytes(hi: byte, lo: byte): (v: int16)
    ensures Bits16(v) == hi as int * 256 + lo as int
    ensures v < 0 <==> hi >= 0x80
  {
    Signed(Word(hi, lo))
  }

  /** High byte of a value's 16-bit pattern (the encoder side of the pair). */
  function High(v: int16): (b: byte)
    ensures b as int * 256 <= Bits16(v) < b as int * 256 + 256
    ensures b >= 0x80 <==> v < 0
  {
    (Bits16(v) / 256) as byte
  }

  /** Low byte of a value's 16-bit pattern. */
  function Low(v: int16): (b: byte)
    ensures (v as int - b as int) % 256 == 0
  {
    (Bits16(v) % 256) as byte
  }

  /** Splitting a value into its bytes and assembling them gives the value back. */
  lemma PairRoundTrip(v: int16)
    ensures FromBytes(High(v), Low(v)) == v
  {
  }

  /** Assembling a pair and splitting the result gives the pair back. */
  lemma BytesRoundTrip(hi: byte, lo: byte)
    ensures High(FromBytes(hi, lo)) == hi && Low(FromBytes(hi, lo)) == lo
  {
  }

  /** The decoder of the driver's read: ax/ay/az from bytes 0-5, gx/gy/gz from
      bytes 8-13, each pair high byte first; bytes 6 and 7 are not used. */
  function Decode(block: seq<byte>): (m: Motion)
    requires |block| == BlockLength
    ensures forall c :: 0 <= c < 6 ==>
              Bits16(Channel(m, c)) == block[HighIndex(c)] as int * 256 + block[HighIndex(c) + 1] as int
  {
    Motion(FromBytes(block[0], block[1]), FromBytes(block[2], block[3]), FromBytes(block[4], block[5]),
           FromBytes(block[8], block[9]), FromBytes(block[10], block[11]), FromBytes(block[12], block[13]))
  }

  /** The register block a device holding sample `m` and temperature bytes
      `t0`, `t1` presents: each channel big-endian, in channel order. */
  function Encode(m: Motion, t0: byte, t1: byte): (block: seq<byte>)
    ensures |block| == BlockLength
    ensures block[TempHigh] == t0 && block[TempLow] == t1
  {
    [High(m.ax), Low(m.ax), High(m.ay), Low(m.ay), High(m.az), Low(m.az),
     t0, t1,
     High(m.gx), Low(m.gx), High(m.gy), Low(m.gy), High(m.gz), Low(m.gz)]
  }

  /** Decoding an encoded block returns the six values, whatever the temperature bytes. */
  lemma DecodeEncode(m: Motion, t0: byte, t1: byte)
    ensures Decode(Encode(m, t0, t1)) == m
  {
  }

  /** Every block is the encoding of its decoded sample and its own temperature bytes,
      so the decoder loses nothing but those two bytes. */
  lemma EncodeDecode(block: seq<byte>)
    requires |block| == BlockLength
    ensures Encode(Decode(block), block[TempHigh], block[TempLow]) == block
  {
  }

  /** The temperature bytes never affect the sample. */
  lemma TemperatureIgnored(b1: seq<byte>, b2: seq<byte>)
    requires |b1| == BlockLength && |b2| == BlockLength
    requires forall k :: 0 <= k < BlockLength && k != TempHigh && k != TempLow ==> b1[k] == b2[k]
    ensures Decode(b1) == Decode(b2)
  {
  }

  /** The pair 0xFF 0xFF is -1 and 0x80 0x00 is the most negative value, on every channel. */
  lemma NegativePairs()
    ensures FromBytes(0xFF, 0xFF) == -1
    ensures FromBytes(0x80, 0x00) == -0x8000
    ensures FromBytes(0x7F, 0xFF) == 0x7FFF
  {
  }

  /** A block with distinct pairs decodes channel by channel; the 0xAA temperature bytes are ignored. */
  lemma DecodeExample()
    ensures Decode([0x01, 0x02, 0x03, 0x04, 0x05, 0x06, 0xAA, 0xAA, 0x07, 0x08, 0x09, 0x0A, 0x0B, 0x0C])
         == Motion(0x0102, 0x0304, 0x0506, 0x0708, 0x090A, 0x0B0C)
  {
  }

  /** The source's expression `(((int16_t)hi) << 8) | lo`, evaluated in AVR's 16-bit
      `int` and stored into `int16_t`, is the value FromBytes defines. */
  lemma ShiftOrMatchesFromBytes(hi: bv8, lo: bv8)
    ensures Signed((((hi as bv16) << 8) | (lo as bv16)) as int) == FromBytes(hi as int as byte, lo as int as byte)
  {
    ShiftOrIsSum(hi, lo);
    var h, l := hi as int as byte, lo as int as byte;
    assert Word(h, l) == (((hi as bv16) << 8) | (lo as bv16)) as int;
  }
}
