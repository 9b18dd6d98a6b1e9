/**
  The Failure packet: an error message as one MessagePack str, framed like
  Parse but with no size check; the declared length is computed in u32 and
  then truncated to the header's u16.
 */
module Failure {
  import opened Bytes
  import opened Utf8
  import opened Stream
  import opened MsgPack
  import opened Tags
  import opened Framing
  import Parse

  /** The header length `prepare_error` declares: `(1 + 1 + len as u32) as u16`. */
  function ErrorLength(message: seq<byte>): u16
    requires |message| < U32_LIMIT
  {
    AsU16(AsU32(1 + 1 + |message|))
  }

  /**
    `prepare_error`: reset, the u32 conversion, header {ToBackend, Failure,
    Last, (2 + len) as u16}, then the str. It fails only when the message
    length does not fit a u32 or the header and str do not fit the slot;
    there is no size check against the payload capacity.
   */
  function PrepareError(s: SlotStream, message: Text): (r: Outcome<()>)
    ensures |message| >= U32_LIMIT ==> r == Fail(IntConversion, Reset(s))
    ensures r.Done? <==> |message| < U32_LIMIT && EstimateSize() + |EncStr(message)| <= Capacity(s)
    ensures |message| < U32_LIMIT && r.Fail? ==> r.error == BufferFull
    ensures r.Done? ==>
              && |message| < U32_LIMIT
              && Framed(r.slot, Header(ToBackend, Failure, Last, ErrorLength(message)), EncStr(message))
  {
    var s0 := Reset(s);
    if |message| >= U32_LIMIT then Fail(IntConversion, s0)
    else WriteStrPacket(s0, Header(ToBackend, Failure, Last, ErrorLength(message)), message)
  }

  /** `read_error`: the str length, then an owned copy of the text. */
  function ReadError(s: SlotStream): Outcome<Text> {
    var len :- ReadStrLen(s);
    var buf :- LookAhead(len.slot, len.value);
    var message :- Lift(FromUtf8(buf.value), buf.slot);
    Done(message.value, buf.slot)
  }

  /** The declared length is 2 + the message length modulo 2^16: nothing caps it. */
  lemma ErrorLengthWraps(message: seq<byte>)
    requires |message| < U32_LIMIT
    ensures ErrorLength(message) == AsU16(Parse.DeclaredLength(message))
    ensures |message| < 0xFFFE ==> ErrorLength(message) == 2 + |message|
    ensures |message| == 0xFFFE ==> ErrorLength(message) == 0
  {
  }

  /** `read_error` at a str encoding gives the text back. */
  lemma ReadErrorDecodes(u: SlotStream, text: Text)
    requires |text| < U32_LIMIT && At(u, EncStr(text))
    ensures ReadError(u) == Done(text, Skip(u, |EncStrLen(|text|)|))
  {
    ReadStrRoundTrip(u, text);
    var k := |EncStrLen(|text|)|;
    var len := ReadStrLen(u);
    assert len == Done(|text|, Skip(u, k));
    assert LookAhead(len.slot, |text|) == Done(text, Skip(u, k));
  }

  /** After `prepare_error`, `reset` and `consume_header`, `read_error` returns the message. */
  lemma ErrorRoundTrip(s: SlotStream, message: Text)
    requires PrepareError(s, message).Done?
    ensures |message| < U32_LIMIT
    ensures var t := Reset(PrepareError(s, message).slot);
            && ConsumeHeader(t) == Done(Header(ToBackend, Failure, Last, ErrorLength(message)),
                                        Skip(t, EstimateSize()))
            && ReadError(Skip(t, EstimateSize()))
               == Done(message, Skip(t, EstimateSize() + |EncStrLen(|message|)|))
  {
    var r := PrepareError(s, message);
    var t := Reset(r.slot);
    var h := Header(ToBackend, Failure, Last, ErrorLength(message));
    FramedRoundTrip(t, r.slot, h, EncStr(message));
    HeaderRoundTrip(t, h);
    ReadErrorDecodes(Skip(t, EstimateSize()), message);
  }

  /**
    A message shorter than 32 bytes in a slot with room for it, as in
    `test_error`: the header declares 2 + len, and `read_error` returns the
    message, one byte past the header.
   */
  lemma ShortErrorRoundTrip(s: SlotStream, message: Text)
    requires |message| < 32 && 8 + |message| <= Capacity(s)
    ensures PrepareError(s, message).Done?
    ensures var t := Reset(PrepareError(s, message).slot);
            && ConsumeHeader(t) == Done(Header(ToBackend, Failure, Last, 2 + |message|), Skip(t, 6))
            && ReadError(Skip(t, 6)) == Done(message, Skip(t, 7))
  {
    StrLenSize(|message|);
    var k := |EncStrLen(|message|)|;
    assert k == 1 && |EncStr(message)| == 1 + |message|;
    var r := PrepareError(s, message);
    assert r.Done?;
    ErrorRoundTrip(s, message);
    var t := Reset(r.slot);
    assert ErrorLength(message) == 2 + |message|;
    assert Skip(t, EstimateSize() + k) == Skip(t, 7);
  }
}
