/**
  The Parse packet: the query text as one MessagePack str after a header
  whose length is computed up front as 2 + the query's byte length and
  checked against the slot's payload capacity before anything is written.
 */
module Parse {
  import opened Bytes
  import opened Utf8
  import opened Stream
  import opened MsgPack
  import opened Tags
  import opened Framing

  /** The length `prepare_query` and `prepare_error` declare: a marker, a length byte, the text. */
  function DeclaredLength(text: seq<byte>): nat {
    1 + 1 + |text|
  }

  /**
    `prepare_query`: reset, the size check, then header {ToWorker, Parse,
    Last, length as u16} and the str. It fails with
    `PayloadTooLarge(query.len())` exactly when 2 + len exceeds DATA_SIZE - 6,
    and then only the reset has happened. Otherwise it succeeds exactly when
    the header and the str encoding fit the slot, any failure is the
    stream's, and the slot then holds the header followed by the str
    encoding of the query.
   */
  function PrepareQuery(s: SlotStream, query: Text): (r: Outcome<()>)
    ensures DeclaredLength(query) > PayloadMaxSize(s) <==> r == Fail(PayloadTooLarge(|query|), Reset(s))
    ensures r.Done? <==>
              DeclaredLength(query) <= PayloadMaxSize(s) && EstimateSize() + |EncStr(query)| <= Capacity(s)
    ensures DeclaredLength(query) <= PayloadMaxSize(s) && r.Fail? ==> r.error == BufferFull
    ensures r.Done? ==> Framed(r.slot, Header(ToWorker, Parse, Last, AsU16(DeclaredLength(query))), EncStr(query))
  {
    var s0 := Reset(s);
    var length := DeclaredLength(query);
    if length > PayloadMaxSize(s0) then Fail(PayloadTooLarge(|query|), s0)
    else WriteStrPacket(s0, Header(ToWorker, Parse, Last, AsU16(length)), query)
  }

  /**
    `read_query`: the str length, then the text looked at in place; the cursor
    stays at the first byte of the text.
   */
  function ReadQuery(s: SlotStream): Outcome<(Text, u32)> {
    var len :- ReadStrLen(s);
    var buf :- LookAhead(len.slot, len.value);
    var query :- Lift(FromUtf8(buf.value), buf.slot);
    Done((query.value, len.value), buf.slot)
  }

  /**
    With DATA_SIZE at most 65541 the `as u16` in `prepare_query` cannot
    truncate: a successful send declares exactly 2 + len.
   */
  lemma DeclaredLengthExact(s: SlotStream, query: Text)
    requires Capacity(s) <= EstimateSize() + 0xFFFF
    requires PrepareQuery(s, query).Done?
    ensures DeclaredLength(query) < U16_LIMIT
    ensures Framed(PrepareQuery(s, query).slot, Header(ToWorker, Parse, Last, DeclaredLength(query)), EncStr(query))
  {
    var length := DeclaredLength(query);
    assert length <= 0xFFFF;
    assert AsU16(length) == length;
  }

  /**
    After `prepare_query`, `reset` and `consume_header`, `read_query` returns
    the query and its byte length and leaves the cursor at the first byte of
    the query, just after its str header.
   */
  lemma QueryRoundTrip(s: SlotStream, query: Text)
    requires PrepareQuery(s, query).Done?
    requires |query| < U32_LIMIT
    ensures var t := Reset(PrepareQuery(s, query).slot);
            && ConsumeHeader(t) == Done(Header(ToWorker, Parse, Last, AsU16(DeclaredLength(query))),
                                        Skip(t, EstimateSize()))
            && ReadQuery(Skip(t, EstimateSize()))
               == Done((query, |query|), Skip(t, EstimateSize() + |EncStrLen(|query|)|))
  {
    var r := PrepareQuery(s, query);
    var t := Reset(r.slot);
    var h := Header(ToWorker, Parse, Last, AsU16(DeclaredLength(query)));
    FramedRoundTrip(t, r.slot, h, EncStr(query));
    HeaderRoundTrip(t, h);
    ReadQueryDecodes(Skip(t, EstimateSize()), query);
  }

  /** `read_query` at a str encoding gives the text and its length, without moving past the text. */
  lemma ReadQueryDecodes(u: SlotStream, text: Text)
    requires |text| < U32_LIMIT && At(u, EncStr(text))
    ensures ReadQuery(u) == Done((text, |text|), Skip(u, |EncStrLen(|text|)|))
  {
    ReadStrRoundTrip(u, text);
    var k := |EncStrLen(|text|)|;
    var len := ReadStrLen(u);
    assert len == Done(|text|, Skip(u, k));
    assert LookAhead(len.slot, |text|) == Done(text, Skip(u, k));
  }

  /**
    The declared length is not the number of payload bytes: the str header
    takes one byte below 32 bytes of text, two up to 255 and three up to
    65535, so the declaration is one too many, exact, or one too few.
   */
  lemma DeclaredLengthVersusWritten(text: seq<byte>)
    ensures |text| < 32 ==> DeclaredLength(text) == |EncStr(text)| + 1
    ensures 32 <= |text| < 0x100 ==> DeclaredLength(text) == |EncStr(text)|
    ensures 0x100 <= |text| < 0x1_0000 ==> DeclaredLength(text) + 1 == |EncStr(text)|
  {
    StrLenSize(AsU32(|text|));
  }

  /**
    A query of 256 bytes or more whose declared length is exactly the payload
    capacity passes the size check, but its str 16 header makes the payload
    one byte longer than the slot: the send fails with the header written.
   */
  lemma QueryAtCapacityOverflows(s: SlotStream, query: Text)
    requires DeclaredLength(query) == PayloadMaxSize(s)
    requires 0x100 <= |query| < 0x1_0000
    ensures PrepareQuery(s, query).Fail? && PrepareQuery(s, query).error == BufferFull
  {
    DeclaredLengthVersusWritten(query);
  }

  /**
    A query shorter than 32 bytes in a slot with room for it: the header
    declares 2 + len, and `read_query` finds the text one byte after the
    header, behind its fixstr marker.
   */
  lemma ShortQueryRoundTrip(s: SlotStream, query: Text)
    requires |query| < 32 && 8 + |query| <= Capacity(s)
    ensures PrepareQuery(s, query).Done?
    ensures var t := Reset(PrepareQuery(s, query).slot);
            && ConsumeHeader(t) == Done(Header(ToWorker, Parse, Last, 2 + |query|), Skip(t, 6))
            && ReadQuery(Skip(t, 6)) == Done((query, |query|), Skip(t, 7))
  {
    StrLenSize(|query|);
    var k := |EncStrLen(|query|)|;
    assert k == 1 && |EncStr(query)| == 1 + |query|;
    var r := PrepareQuery(s, query);
    assert r.Done?;
    QueryRoundTrip(s, query);
    var t := Reset(r.slot);
    assert AsU16(DeclaredLength(query)) == 2 + |query|;
    assert Skip(t, EstimateSize() + k) == Skip(t, 7);
  }
}
