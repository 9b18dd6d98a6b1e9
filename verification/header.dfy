/**
  The fixed six-byte header that starts every message in a slot: direction,
  packet kind and flag as positive fixints, then the payload length as a
  MessagePack uint 16 (marker 0xcd and two big-endian bytes).
 */
module Framing {
  import opened Bytes
  import opened Stream
  import opened MsgPack
  import opened Tags

  datatype Header = Header(direction: Direction, packet: Packet, flag: Flag, length: u16)

  /** `Header::default()`: each tag at its `#[default]` variant and length 0; not all-zero bytes. */
  const DEFAULT_HEADER: Header := Header(ToWorker, Ack, Last, 0)

  /** `Header::estimate_size()`: direction, packet and flag one byte each, length three. */
  function EstimateSize(): nat {
    1 + 1 + 1 + 3
  }

  /** `Header::payload_max_size()`: what the slot holds after the header, DATA_SIZE - 6. */
  function PayloadMaxSize(s: SlotStream): (n: nat)
    ensures n + EstimateSize() == Capacity(s)
    ensures forall h: Header :: n + |EncodeHeader(h)| == Capacity(s)
  {
    HeaderSizes();
    Capacity(s) - EstimateSize()
  }

  /** The header's bytes in the order `write_header` writes them. */
  function EncodeHeader(h: Header): seq<byte> {
    EncPfix(DirectionByte(h.direction)) + EncPfix(PacketByte(h.packet))
    + EncPfix(FlagByte(h.flag)) + EncU16(h.length)
  }

  /** The slot holds header `h`, then `payload`, and the cursor is just past the payload. */
  predicate Framed(s: SlotStream, h: Header, payload: seq<byte>) {
    && s.pos == EstimateSize() + |payload|
    && s.buf[..EstimateSize()] == EncodeHeader(h)
    && s.buf[EstimateSize()..s.pos] == payload
  }

  /** `write_header`: three positive fixints and a uint 16, as four consecutive writes. */
  function WriteHeader(s: SlotStream, h: Header): (r: Outcome<()>)
    ensures Emits(s, r, EncodeHeader(h))
  {
    var d := EncPfix(DirectionByte(h.direction));
    var p := EncPfix(PacketByte(h.packet));
    var f := EncPfix(FlagByte(h.flag));
    var r1 := WritePfix(s, DirectionByte(h.direction));
    var r2 := AndWrite(r1, p);
    var r3 := AndWrite(r2, f);
    var r4 := AndWrite(r3, EncU16(h.length));
    AndWriteEmits(s, r1, d, p);
    AndWriteEmits(s, r2, d + p, f);
    AndWriteEmits(s, r3, d + p + f, EncU16(h.length));
    r4
  }

  /**
    A header written from position 0 followed by a payload writer `p` that
    emits `payload`: the pair succeeds exactly when both fit, and then the
    slot is framed with the header and the payload and keeps its old bytes
    after the payload.
   */
  lemma HeaderThenPayload(s: SlotStream, h: Header, p: Outcome<()>, payload: seq<byte>, r: Outcome<()>)
    requires s.pos == 0
    requires WriteHeader(s, h).Done? ==> Emits(WriteHeader(s, h).slot, p, payload)
    requires r == (if WriteHeader(s, h).Fail? then WriteHeader(s, h) else p)
    ensures Emits(s, r, EncodeHeader(h) + payload)
    ensures r.Done? <==> EstimateSize() + |payload| <= Capacity(s)
    ensures r.Done? ==> Framed(r.slot, h, payload) && r.slot.buf[r.slot.pos..] == s.buf[r.slot.pos..]
  {
    var w := WriteHeader(s, h);
    HeaderSize(h);
    EmitsSeq(s, w, EncodeHeader(h), p, payload, r);
    if r.Done? {
      var all := EncodeHeader(h) + payload;
      assert r.slot.buf[0..r.slot.pos] == all;
      assert r.slot.buf[..EstimateSize()] == all[..EstimateSize()];
      assert r.slot.buf[EstimateSize()..r.slot.pos] == all[EstimateSize()..];
    }
  }

  /**
    `write_header` then `write_str`, from the start of the slot: the shape of
    the Parse and Failure packets. It succeeds exactly when the header and
    the str encoding fit, can only fail for want of room, and on success
    leaves the slot framed with the header and the str and its old bytes
    after them.
   */
  function WriteStrPacket(s: SlotStream, h: Header, text: seq<byte>): (r: Outcome<()>)
    requires s.pos == 0
    ensures r.Done? <==> EstimateSize() + |EncStr(text)| <= Capacity(s)
    ensures r.Fail? ==> r.error == BufferFull
    ensures r.Done? ==> Framed(r.slot, h, EncStr(text)) && r.slot.buf[r.slot.pos..] == s.buf[r.slot.pos..]
  {
    // Six bytes from position 0 always fit: the header write cannot fail.
    var w := WriteHeader(s, h);
    var r := if w.Fail? then w else WriteStr(w.slot, text);
    HeaderThenPayload(s, h, r, EncStr(text), r);
    r
  }

  /**
    `consume_header`: reads the four fields from the start of the slot. A
    tag byte out of its range fails with `Deserialize` naming the field.
   */
  function ConsumeHeader(s: SlotStream): (r: Outcome<Header>)
    requires s.pos == 0
    ensures r.Done? ==> At(s, EncodeHeader(r.value)) && r.slot == Skip(s, EstimateSize())
    ensures 2 <= s.buf[0] < 0x80 ==> r == Fail(Deserialize("direction", s.buf[0]), Skip(s, 1))
    ensures s.buf[0] < 2 && 5 <= s.buf[1] < 0x80 ==> r == Fail(Deserialize("packet", s.buf[1]), Skip(s, 2))
    ensures s.buf[0] < 2 && s.buf[1] < 5 && 2 <= s.buf[2] < 0x80
      ==> r == Fail(Deserialize("flag", s.buf[2]), Skip(s, 3))
    ensures s.buf[0] >= 0x80 ==> r == Fail(TypeMismatch(s.buf[0]), Skip(s, 1))
    ensures s.buf[0] < 2 && s.buf[1] >= 0x80 ==> r == Fail(TypeMismatch(s.buf[1]), Skip(s, 2))
    ensures s.buf[0] < 2 && s.buf[1] < 5 && s.buf[2] >= 0x80 ==> r == Fail(TypeMismatch(s.buf[2]), Skip(s, 3))
  {
    var d :- ReadPfix(s);
    var direction :- Lift(DirectionFrom(d.value), d.slot);
    var p :- ReadPfix(d.slot);
    var packet :- Lift(PacketFrom(p.value), p.slot);
    var f :- ReadPfix(p.slot);
    var flag :- Lift(FlagFrom(f.value), f.slot);
    var length :- ReadU16(f.slot);
    var h := Header(direction.value, packet.value, flag.value, length.value);
    assert s.buf[3] == UINT16 && s.buf[..6] == EncodeHeader(h) by {
      BigEndian16Canonical(s.buf[4..6]);
    }
    Done(h, length.slot)
  }

  /** The header always takes exactly `estimate_size()` bytes. */
  lemma HeaderSize(h: Header)
    ensures |EncodeHeader(h)| == EstimateSize() == 6
  {
  }

  /** Every header takes exactly `estimate_size()` bytes. */
  lemma HeaderSizes()
    ensures forall h: Header :: |EncodeHeader(h)| == EstimateSize()
  {
    forall h: Header ensures |EncodeHeader(h)| == EstimateSize() {
      HeaderSize(h);
    }
  }

  /** Reading the bytes of a header at the start of the slot gives that header back. */
  lemma HeaderRoundTrip(s: SlotStream, h: Header)
    requires s.pos == 0 && At(s, EncodeHeader(h))
    ensures ConsumeHeader(s) == Done(h, Skip(s, EstimateSize()))
  {
    var d := DirectionByte(h.direction);
    var p := PacketByte(h.packet);
    var f := FlagByte(h.flag);
    AtSplit(s, [d, p, f], EncU16(h.length));
    assert s.buf[0] == d && s.buf[1] == p && s.buf[2] == f;
    TagsRoundTrip(h.direction, h.packet, h.flag);
    ReadU16RoundTrip(Skip(s, 3), h.length);
  }

  /** The bytes of a framed slot, read from position 0: the header, then the payload. */
  lemma FramedRoundTrip(t: SlotStream, r: SlotStream, h: Header, payload: seq<byte>)
    requires Framed(r, h, payload) && t == Reset(r)
    ensures At(t, EncodeHeader(h) + payload)
    ensures At(t, EncodeHeader(h)) && At(Skip(t, EstimateSize()), payload)
  {
    HeaderSize(h);
    assert t.buf[0..EstimateSize() + |payload|] == t.buf[..EstimateSize()] + t.buf[EstimateSize()..r.pos];
    AtSplit(t, EncodeHeader(h), payload);
  }

  /**
    `write_header`, `reset`, `consume_header` returns the header written and
    leaves the cursor just past it; the bytes after the header are untouched.
   */
  lemma WriteThenConsume(s: SlotStream, h: Header)
    ensures WriteHeader(Reset(s), h).Done?
    ensures WriteHeader(Reset(s), h).slot.buf[EstimateSize()..] == s.buf[EstimateSize()..]
    ensures ConsumeHeader(Reset(WriteHeader(Reset(s), h).slot))
         == Done(h, Reset(WriteHeader(Reset(s), h).slot).(pos := EstimateSize()))
  {
    var w := WriteHeader(Reset(s), h);
    HeaderSize(h);
    var t := Reset(w.slot);
    assert At(t, EncodeHeader(h));
    HeaderRoundTrip(t, h);
  }
}
