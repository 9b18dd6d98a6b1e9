/**
  The subset of MessagePack the protocol writes and reads: positive fixint,
  uint 8/16/32, bool, str, bin and array headers (MessagePack specification,
  "Formats"). Each writer is one `write_bytes` of its encoding; each reader
  consumes a marker byte and then the marker's data bytes, as the rmp crate does.
 */
module MsgPack {
  import opened Bytes
  import opened Stream

  const UINT8: byte := 0xcc
  const UINT16: byte := 0xcd
  const UINT32: byte := 0xce
  const FALSE: byte := 0xc2
  const TRUE: byte := 0xc3
  const BIN8: byte := 0xc4
  const BIN16: byte := 0xc5
  const BIN32: byte := 0xc6
  const FIXSTR: byte := 0xa0
  const STR8: byte := 0xd9
  const STR16: byte := 0xda
  const STR32: byte := 0xdb
  const FIXARRAY: byte := 0x90
  const ARRAY16: byte := 0xdc
  const ARRAY32: byte := 0xdd

  // Encodings

  function EncPfix(v: byte): seq<byte>
    requires v < 0x80
  {
    [v]
  }

  function EncU8(v: byte): seq<byte> {
    [UINT8, v]
  }

  function EncU16(v: u16): seq<byte> {
    [UINT16] + BigEndian16(v)
  }

  function EncU32(v: u32): seq<byte> {
    [UINT32] + BigEndian32(v)
  }

  function EncBool(b: bool): seq<byte> {
    [if b then TRUE else FALSE]
  }

  /** The smallest str header for a length, as `write_str_len` chooses it. */
  function EncStrLen(n: u32): seq<byte> {
    if n < 32 then [FIXSTR + n]
    else if n < 0x100 then [STR8, n]
    else if n < 0x1_0000 then [STR16] + BigEndian16(n)
    else [STR32] + BigEndian32(n)
  }

  /** The smallest array header for a length, as `write_array_len` chooses it. */
  function EncArrayLen(n: u32): seq<byte> {
    if n < 16 then [FIXARRAY + n]
    else if n < 0x1_0000 then [ARRAY16] + BigEndian16(n)
    else [ARRAY32] + BigEndian32(n)
  }

  /** The smallest bin header for a length, as `write_bin_len` chooses it. */
  function EncBinLen(n: u32): seq<byte> {
    if n < 0x100 then [BIN8, n]
    else if n < 0x1_0000 then [BIN16] + BigEndian16(n)
    else [BIN32] + BigEndian32(n)
  }

  /** `write_str`: the header for `data.len() as u32`, then the bytes themselves. */
  function EncStr(data: seq<byte>): (r: seq<byte>)
    ensures |data| < U32_LIMIT ==> r == EncStrLen(|data|) + data
  {
    EncStrLen(AsU32(|data|)) + data
  }

  /** How many bytes the str header takes: 1 for fixstr, 2 for str 8, 3 for str 16, 5 for str 32. */
  lemma StrLenSize(n: u32)
    ensures |EncStrLen(n)| == if n < 32 then 1 else if n < 0x100 then 2 else if n < 0x1_0000 then 3 else 5
  {
  }

  // Writers

  function WritePfix(s: SlotStream, v: byte): (r: Outcome<()>)
    requires v < 0x80
    ensures Emits(s, r, EncPfix(v))
  {
    Write(s, EncPfix(v))
  }

  function WriteU8(s: SlotStream, v: byte): (r: Outcome<()>)
    ensures Emits(s, r, EncU8(v))
  {
    Write(s, EncU8(v))
  }

  function WriteU16(s: SlotStream, v: u16): (r: Outcome<()>)
    ensures Emits(s, r, EncU16(v))
  {
    Write(s, EncU16(v))
  }

  function WriteU32(s: SlotStream, v: u32): (r: Outcome<()>)
    ensures Emits(s, r, EncU32(v))
  {
    Write(s, EncU32(v))
  }

  function WriteBool(s: SlotStream, b: bool): (r: Outcome<()>)
    ensures Emits(s, r, EncBool(b))
  {
    Write(s, EncBool(b))
  }

  function WriteArrayLen(s: SlotStream, n: u32): (r: Outcome<()>)
    ensures Emits(s, r, EncArrayLen(n))
  {
    Write(s, EncArrayLen(n))
  }

  function WriteBinLen(s: SlotStream, n: u32): (r: Outcome<()>)
    ensures Emits(s, r, EncBinLen(n))
  {
    Write(s, EncBinLen(n))
  }

  /** `write_str`: the length header, then the bytes in a second write. */
  function WriteStr(s: SlotStream, data: seq<byte>): (r: Outcome<()>)
    ensures Emits(s, r, EncStr(data))
  {
    var h := Write(s, EncStrLen(AsU32(|data|)));
    var r := if h.Fail? then h else Write(h.slot, data);
    EmitsSeq(s, h, EncStrLen(AsU32(|data|)), r, data, r);
    r
  }

  // Readers

  function ReadMarker(s: SlotStream): (r: Outcome<byte>)
    ensures r.Done? <==> Fits(s, 1)
    ensures r.Done? ==> Fits(s, 1) && r.value == s.buf[s.pos] && r.slot == Skip(s, 1)
  {
    var b :- ReadBytes(s, 1);
    Done(b.value[0], b.slot)
  }

  function ReadData16(s: SlotStream): Outcome<u16> {
    var b :- ReadBytes(s, 2);
    Done(FromBigEndian16(b.value), b.slot)
  }

  function ReadData32(s: SlotStream): Outcome<u32> {
    var b :- ReadBytes(s, 4);
    Done(FromBigEndian32(b.value), b.slot)
  }

  /** `read_pfix`: a positive fixint, or a type mismatch naming the marker. */
  function ReadPfix(s: SlotStream): (r: Outcome<byte>)
    ensures r.Done? ==> r.value < 0x80
  {
    var m :- ReadMarker(s);
    if m.value < 0x80 then Done(m.value, m.slot) else Fail(TypeMismatch(m.value), m.slot)
  }

  function ReadU8(s: SlotStream): Outcome<byte> {
    var m :- ReadMarker(s);
    if m.value == UINT8 then
      var d :- ReadMarker(m.slot);
      Done(d.value, d.slot)
    else Fail(TypeMismatch(m.value), m.slot)
  }

  function ReadU16(s: SlotStream): Outcome<u16> {
    var m :- ReadMarker(s);
    if m.value == UINT16 then ReadData16(m.slot) else Fail(TypeMismatch(m.value), m.slot)
  }

  function ReadU32(s: SlotStream): Outcome<u32> {
    var m :- ReadMarker(s);
    if m.value == UINT32 then ReadData32(m.slot) else Fail(TypeMismatch(m.value), m.slot)
  }

  function ReadBool(s: SlotStream): Outcome<bool> {
    var m :- ReadMarker(s);
    if m.value == TRUE then Done(true, m.slot)
    else if m.value == FALSE then Done(false, m.slot)
    else Fail(TypeMismatch(m.value), m.slot)
  }

  /** `read_str_len`: accepts every str header family, not only the smallest one. */
  function ReadStrLen(s: SlotStream): Outcome<u32> {
    var m :- ReadMarker(s);
    if FIXSTR <= m.value < FIXSTR + 32 then Done(m.value - FIXSTR, m.slot)
    else if m.value == STR8 then ReadMarker(m.slot)
    else if m.value == STR16 then ReadData16(m.slot)
    else if m.value == STR32 then ReadData32(m.slot)
    else Fail(TypeMismatch(m.value), m.slot)
  }

  function ReadArrayLen(s: SlotStream): Outcome<u32> {
    var m :- ReadMarker(s);
    if FIXARRAY <= m.value < FIXARRAY + 16 then Done(m.value - FIXARRAY, m.slot)
    else if m.value == ARRAY16 then ReadData16(m.slot)
    else if m.value == ARRAY32 then ReadData32(m.slot)
    else Fail(TypeMismatch(m.value), m.slot)
  }

  function ReadBinLen(s: SlotStream): Outcome<u32> {
    var m :- ReadMarker(s);
    if m.value == BIN8 then ReadMarker(m.slot)
    else if m.value == BIN16 then ReadData16(m.slot)
    else if m.value == BIN32 then ReadData32(m.slot)
    else Fail(TypeMismatch(m.value), m.slot)
  }

  // Round trips: each reader decodes what the matching writer wrote and moves past it.

  lemma ReadPfixRoundTrip(s: SlotStream, v: byte)
    requires v < 0x80 && At(s, EncPfix(v))
    ensures ReadPfix(s) == Done(v, Skip(s, 1))
  {
  }

  lemma ReadU8RoundTrip(s: SlotStream, v: byte)
    requires At(s, EncU8(v))
    ensures ReadU8(s) == Done(v, Skip(s, 2))
  {
    AtSplit(s, [UINT8], [v]);
  }

  lemma ReadU16RoundTrip(s: SlotStream, v: u16)
    requires At(s, EncU16(v))
    ensures ReadU16(s) == Done(v, Skip(s, 3))
  {
    AtSplit(s, [UINT16], BigEndian16(v));
    BigEndian16RoundTrip(v);
  }

  lemma ReadU32RoundTrip(s: SlotStream, v: u32)
    requires At(s, EncU32(v))
    ensures ReadU32(s) == Done(v, Skip(s, 5))
  {
    AtSplit(s, [UINT32], BigEndian32(v));
    BigEndian32RoundTrip(v);
  }

  lemma ReadBoolRoundTrip(s: SlotStream, b: bool)
    requires At(s, EncBool(b))
    ensures ReadBool(s) == Done(b, Skip(s, 1))
  {
  }

  lemma ReadStrLenRoundTrip(s: SlotStream, n: u32)
    requires At(s, EncStrLen(n))
    ensures ReadStrLen(s) == Done(n, Skip(s, |EncStrLen(n)|))
  {
    var e := EncStrLen(n);
    assert s.buf[s.pos] == e[0];
    if n < 32 {
    } else if n < 0x100 {
      AtSplit(s, [e[0]], [n]);
    } else if n < 0x1_0000 {
      AtSplit(s, [e[0]], BigEndian16(n));
      BigEndian16RoundTrip(n);
    } else {
      AtSplit(s, [e[0]], BigEndian32(n));
      BigEndian32RoundTrip(n);
    }
  }

  lemma ReadArrayLenRoundTrip(s: SlotStream, n: u32)
    requires At(s, EncArrayLen(n))
    ensures ReadArrayLen(s) == Done(n, Skip(s, |EncArrayLen(n)|))
  {
    var e := EncArrayLen(n);
    assert s.buf[s.pos] == e[0];
    if n < 16 {
    } else if n < 0x1_0000 {
      AtSplit(s, [e[0]], BigEndian16(n));
      BigEndian16RoundTrip(n);
    } else {
      AtSplit(s, [e[0]], BigEndian32(n));
      BigEndian32RoundTrip(n);
    }
  }

  lemma ReadBinLenRoundTrip(s: SlotStream, n: u32)
    requires At(s, EncBinLen(n))
    ensures ReadBinLen(s) == Done(n, Skip(s, |EncBinLen(n)|))
  {
    var e := EncBinLen(n);
    assert s.buf[s.pos] == e[0];
    if n < 0x100 {
      AtSplit(s, [e[0]], [n]);
    } else if n < 0x1_0000 {
      AtSplit(s, [e[0]], BigEndian16(n));
      BigEndian16RoundTrip(n);
    } else {
      AtSplit(s, [e[0]], BigEndian32(n));
      BigEndian32RoundTrip(n);
    }
  }

  /** The str header read back at the front of an encoded string gives its length. */
  lemma ReadStrRoundTrip(s: SlotStream, data: seq<byte>)
    requires |data| < U32_LIMIT && At(s, EncStr(data))
    ensures Fits(s, |EncStrLen(|data|)|)
    ensures ReadStrLen(s) == Done(|data|, Skip(s, |EncStrLen(|data|)|))
    ensures At(Skip(s, |EncStrLen(|data|)|), data)
  {
    AtSplit(s, EncStrLen(|data|), data);
    ReadStrLenRoundTrip(s, |data|);
  }
}
