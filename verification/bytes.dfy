/**
  Machine integers and their big-endian byte forms, as MessagePack writes
  every multi-byte length and integer field.
 */
module Bytes {

  type byte = b: int | 0 <= b < 0x100
  type u16 = n: int | 0 <= n < 0x1_0000
  type u32 = n: int | 0 <= n < 0x1_0000_0000

  const U16_LIMIT: int := 0x1_0000
  const U32_LIMIT: int := 0x1_0000_0000

  /** `x as u16`: the low 16 bits of `x`. */
  function AsU16(x: nat): (r: u16)
    ensures x < U16_LIMIT ==> r == x
  {
    x % U16_LIMIT
  }

  /** `x as u32`, and a wrapping u32 addition: the low 32 bits of `x`. */
  function AsU32(x: nat): (r: u32)
    ensures x < U32_LIMIT ==> r == x
  {
    x % U32_LIMIT
  }

  /** The two bytes of `v`, most significant first. */
  function BigEndian16(v: u16): (r: seq<byte>)
    ensures |r| == 2
  {
    [v / 0x100, v % 0x100]
  }

  function FromBigEndian16(b: seq<byte>): (v: u16)
    requires |b| == 2
  {
    (b[0] as int) * 0x100 + b[1]
  }

  /** The four bytes of `v`, most significant first: the high half, then the low half. */
  function BigEndian32(v: u32): (r: seq<byte>)
    ensures |r| == 4
  {
    BigEndian16(v / 0x1_0000) + BigEndian16(v % 0x1_0000)
  }

  function FromBigEndian32(b: seq<byte>): (v: u32)
    requires |b| == 4
  {
    FromBigEndian16(b[..2]) * 0x1_0000 + FromBigEndian16(b[2..])
  }

  /** Decoding the big-endian form of a 16-bit value gives the value back. */
  lemma BigEndian16RoundTrip(v: u16)
    ensures FromBigEndian16(BigEndian16(v)) == v
  {
  }

  /** Every two bytes are the big-endian form of the value they decode to. */
  lemma BigEndian16Canonical(b: seq<byte>)
    requires |b| == 2
    ensures BigEndian16(FromBigEndian16(b)) == b
  {
  }

  /** Decoding the big-endian form of a 32-bit value gives the value back. */
  lemma BigEndian32RoundTrip(v: u32)
    ensures FromBigEndian32(BigEndian32(v)) == v
  {
    var hi := v / 0x1_0000;
    var lo := v % 0x1_0000;
    var b := BigEndian32(v);
    assert b[..2] == BigEndian16(hi) && b[2..] == BigEndian16(lo);
    BigEndian16RoundTrip(hi);
    BigEndian16RoundTrip(lo);
  }
}
