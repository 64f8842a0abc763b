/** Byte-level decoding: the 16-bit helpers and the 7-byte ALS/PS data block. */
module Conversion {
  import opened Bytes

  /** `uint16(msb, lsb)`: the unsigned value of a big-endian byte pair. */
  function Uint16(msb: bv8, lsb: bv8): (v: nat)
    ensures v < 65536
  {
    msb as int * 256 + lsb as int
  }

  /** The driver computes `uint16` as `msb << 8 | lsb`; that is the same value. */
  lemma Uint16IsShiftOr(msb: bv8, lsb: bv8)
    ensures Uint16(msb, lsb) == ((msb as bv16 << 8) | lsb as bv16) as int
  {
  }

  /** `int16(msb, lsb)`: the same pair read as a two's-complement 16-bit value. */
  function Int16(msb: bv8, lsb: bv8): (v: int)
    ensures -32768 <= v <= 32767
  {
    var u := Uint16(msb, lsb);
    if u > 32767 then u - 65536 else u
  }

  /** The big-endian byte pair of a 16-bit value: the inverse of `Uint16`. */
  function Bytes16(v: nat): (pair: (bv8, bv8))
    requires v < 65536
    ensures pair.0 as int == v / 256 && pair.1 as int == v % 256
  {
    ByteOfInt(v / 256);
    ByteOfInt(v % 256);
    ((v / 256) as bv8, (v % 256) as bv8)
  }

  /** Splitting the value of a byte pair gives back the pair. */
  lemma Uint16RoundTrip(msb: bv8, lsb: bv8)
    ensures Bytes16(Uint16(msb, lsb)) == (msb, lsb)
  {
    HighByteRecovered(msb, lsb);
    LowByteRecovered(msb, lsb);
  }

  lemma HighByteRecovered(msb: bv8, lsb: bv8)
    ensures (Uint16(msb, lsb) / 256) as bv8 == msb
  {
    assert Uint16(msb, lsb) / 256 == msb as int by {
      DivMod256(msb as int, lsb as int);
    }
    ByteOfIntOfByte(msb);
  }

  lemma LowByteRecovered(msb: bv8, lsb: bv8)
    ensures (Uint16(msb, lsb) % 256) as bv8 == lsb
  {
    assert Uint16(msb, lsb) % 256 == lsb as int by {
      DivMod256(msb as int, lsb as int);
    }
    ByteOfIntOfByte(lsb);
  }

  lemma Bytes16RoundTrip(v: nat)
    requires v < 65536
    ensures Uint16(Bytes16(v).0, Bytes16(v).1) == v
  {
  }

  /** `int16` differs from `uint16` by exactly 65536 when, and only when, the
      unsigned value exceeds 32767. */
  lemma Int16Reinterprets(msb: bv8, lsb: bv8)
    ensures Uint16(msb, lsb) > 32767 ==> Int16(msb, lsb) == Uint16(msb, lsb) - 65536
    ensures Uint16(msb, lsb) <= 32767 ==> Int16(msb, lsb) == Uint16(msb, lsb)
    ensures Int16(msb, lsb) % 65536 == Uint16(msb, lsb)
  {
    Wrap16(Uint16(msb, lsb));
  }

  lemma Wrap16(u: int)
    requires 0 <= u < 65536
    ensures (if u > 32767 then u - 65536 else u) % 65536 == u
  {
    if u > 32767 {
      assert (u - 65536) + 1 * 65536 == u;
    }
  }

  /** The value is negative exactly when the sign bit, bit 7 of `msb`, is set. */
  lemma Int16Sign(msb: bv8, lsb: bv8)
    ensures Int16(msb, lsb) < 0 <==> msb as int >= 128
  {
    var m, l := msb as int, lsb as int;
    assert 0 <= m < 256 && 0 <= l < 256;
    assert Uint16(msb, lsb) == m * 256 + l;
  }

  /** Every signed 16-bit value comes from exactly one byte pair. */
  lemma Int16RoundTrip(v: int)
    requires -32768 <= v <= 32767
    ensures Int16(Bytes16(v % 65536).0, Bytes16(v % 65536).1) == v
  {
    Bytes16RoundTrip(v % 65536);
  }

  /** Bit 7 of a byte, as `Boolean(b & 0x80)` reads it. */
  function Bit7(b: bv8): (on: bool)
    ensures on <==> b as int >= 128
  {
    b & 0x80 != 0
  }

  /** Bits 6:4 of the status byte, `(b & 0x70) >> 4`: the ALS gain code. */
  function GainField(b: bv8): (code: nat)
    ensures code == (b as int / 16) % 8
    ensures code < 8
  {
    var field := ((b & 0x70) >> 4) as int;
    assert b as int / 16 == (b >> 7) as int * 8 + field by {
      assert b as int == ((b >> 7) as int * 8 + field) * 16 + (b & 0x0F) as int;
    }
    field
  }

  /** Bits 2:0 of a byte, `b & 0x07`: the high bits of the proximity count. */
  function LowBits3(b: bv8): (r: bv8)
    ensures r as int == b as int % 8
  {
    assert b as int == (b >> 3) as int * 8 + (b & 0x07) as int;
    b & 0x07
  }

  /** The fields of the 7-byte block read from REGISTER_ALS_DATA (0x88..0x8E). */
  datatype Sample = Sample(
    channel1: nat,      // ALS channel 1 (infrared), bytes 0 and 1
    channel0: nat,      // ALS channel 0 (visible + infrared), bytes 2 and 3
    dataInvalid: bool,  // ALS_PS_STATUS bit 7
    gainCode: nat,      // ALS_PS_STATUS bits 6:4
    proximity: nat,     // 11-bit proximity count, bytes 5 and 6
    saturated: bool)    // PS_DATA_1 bit 7

  const BLOCK_LENGTH := 7

  /** Unpacks the data block as `readSensorData` does. */
  function DecodeBlock(b: seq<bv8>): (s: Sample)
    requires |b| == BLOCK_LENGTH
    ensures s.channel1 == b[1] as int * 256 + b[0] as int
    ensures s.channel0 == b[3] as int * 256 + b[2] as int
    ensures s.dataInvalid <==> b[4] as int >= 128
    ensures s.gainCode == (b[4] as int / 16) % 8 && s.gainCode < 8
    ensures s.proximity == (b[6] as int % 8) * 256 + b[5] as int && s.proximity <= 2047
    ensures s.saturated <==> b[6] as int >= 128
  {
    Sample(
      channel1 := Uint16(b[1], b[0]),
      channel0 := Uint16(b[3], b[2]),
      dataInvalid := Bit7(b[4]),
      gainCode := GainField(b[4]),
      proximity := Uint16(LowBits3(b[6]), b[5]),
      saturated := Bit7(b[6]))
  }

  /** A sample whose fields fit their register widths. */
  predicate WellFormed(s: Sample) {
    s.channel0 < 65536 && s.channel1 < 65536 && s.gainCode < 8 && s.proximity < 2048
  }

  /** A byte whose bit 7 is `flag` and whose bits 6:4 hold `field`. */
  function FieldByte(flag: bool, field: nat): (b: bv8)
    requires field < 8
    ensures Bit7(b) == flag && GainField(b) == field
  {
    var n := (if flag then 128 else 0) + field * 16;
    ByteOfInt(n);
    assert n / 16 == (if flag then 8 else 0) + field;
    n as bv8
  }

  /** A byte whose bit 7 is `flag` and whose bits 2:0 hold `high`. */
  function HighByte(flag: bool, high: nat): (b: bv8)
    requires high < 8
    ensures Bit7(b) == flag && LowBits3(b) as int == high
  {
    var n := (if flag then 128 else 0) + high;
    ByteOfInt(n);
    n as bv8
  }

  /** The data block a device holding the sample presents (unused bits zero). */
  function EncodeBlock(s: Sample): (b: seq<bv8>)
    requires WellFormed(s)
    ensures |b| == BLOCK_LENGTH
  {
    var (c1hi, c1lo) := Bytes16(s.channel1);
    var (c0hi, c0lo) := Bytes16(s.channel0);
    [c1lo, c1hi, c0lo, c0hi,
     FieldByte(s.dataInvalid, s.gainCode),
     (s.proximity % 256) as bv8,
     HighByte(s.saturated, s.proximity / 256)]
  }

  /** Every well-formed sample survives encoding and decoding. */
  lemma DecodeEncode(s: Sample)
    requires WellFormed(s)
    ensures DecodeBlock(EncodeBlock(s)) == s
  {
    ByteOfInt(s.proximity % 256);
  }

  /** Decoding yields only well-formed samples and ignores the unused bits. */
  lemma DecodeWellFormed(b: seq<bv8>)
    requires |b| == BLOCK_LENGTH
    ensures WellFormed(DecodeBlock(b))
    ensures DecodeBlock(b) == DecodeBlock(b[4 := b[4] & 0xF0][6 := b[6] & 0x87])
  {
    assert GainField(b[4] & 0xF0) == GainField(b[4]);
    assert LowBits3(b[6] & 0x87) == LowBits3(b[6]);
  }
}
