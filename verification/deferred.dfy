/**
  The deferred-length writer shared by Bind, table-reference Metadata and
  table-description Metadata: write a placeholder header, write the payload,
  measure it, rewrite the header with the measured length and move the cursor
  back to the end of the payload. The three senders repeat the same steps
  inline; here they are written once, around whatever payload writer runs
  between `BeginDeferred` and `FinishDeferred`.
 */
module Deferred {
  import opened Bytes
  import opened Stream
  import opened Tags
  import opened Framing
  import opened Items

  /** Reset, then reserve the header's six bytes with `Header::default()`. */
  function BeginDeferred(s: SlotStream): (r: Outcome<()>)
    ensures r.Done? && r.slot.pos == EstimateSize()
    ensures r.slot.buf[..EstimateSize()] == EncodeHeader(DEFAULT_HEADER)
    ensures r.slot.buf[EstimateSize()..] == s.buf[EstimateSize()..]
  {
    HeaderSize(DEFAULT_HEADER);
    WriteHeader(Reset(s), DEFAULT_HEADER)
  }

  /**
    Measure `pos_final - pos_init`, fail when it does not fit a u16, else
    reset, write the real header and `rewind` (advance) by the length.
   */
  function FinishDeferred(s: SlotStream, posInit: nat, direction: Direction, packet: Packet): (r: Outcome<()>)
    requires EstimateSize() <= posInit <= s.pos
    ensures r.Done? <==> s.pos - posInit < U16_LIMIT
    ensures r.Fail? ==> r == Fail(IntConversion, s)
    ensures r.Done? ==> r.slot.pos == EstimateSize() + (s.pos - posInit)
    ensures r.Done? ==>
              && s.pos - posInit < U16_LIMIT
              && r.slot.buf[..EstimateSize()] == EncodeHeader(Header(direction, packet, Last, s.pos - posInit))
    ensures r.Done? ==> r.slot.buf[EstimateSize()..] == s.buf[EstimateSize()..]
  {
    var posFinal := Position(s);
    var length := posFinal - posInit;
    if length >= U16_LIMIT then Fail(IntConversion, s)
    else
      var header := Header(direction, packet, Last, length);
      HeaderSize(header);
      // Six bytes from position 0 always fit: this write cannot fail.
      var w := WriteHeader(Reset(s), header);
      if w.Fail? then w else Rewind(w.slot, length)
  }

  /**
    The whole deferred write around a payload writer `p` that emits `enc`
    after the placeholder: it succeeds exactly when the payload encodes,
    fits the slot and its length fits a u16; the header then declares the
    measured length, the payload bytes are those written, the header rewrite
    left every byte from index 6 on as the payload writer left it, and the
    bytes after the payload are those the slot held before.
   */
  lemma DeferredWrite(s: SlotStream, enc: Result<seq<byte>>, p: Outcome<()>,
                       direction: Direction, packet: Packet, r: Outcome<()>)
    requires EmitsResult(BeginDeferred(s).slot, p, enc)
    requires p.Done? ==> EstimateSize() <= p.slot.pos
    requires r == (if p.Fail? then p else FinishDeferred(p.slot, EstimateSize(), direction, packet))
    ensures r.Done? <==> enc.Ok? && EstimateSize() + |enc.value| <= Capacity(s) && |enc.value| < U16_LIMIT
    ensures r.Done? ==>
              && enc.Ok? && |enc.value| < U16_LIMIT
              && Framed(r.slot, Header(direction, packet, Last, |enc.value|), enc.value)
    ensures r.Done? ==> r.slot.buf[r.slot.pos..] == s.buf[r.slot.pos..]
    ensures (enc.Ok? && EstimateSize() + |enc.value| <= Capacity(s) && |enc.value| >= U16_LIMIT) ==>
              r == Fail(IntConversion, p.slot)
  {
    var b := BeginDeferred(s).slot;
    if p.Done? {
      assert enc.Ok? && Fits(b, |enc.value|);
      var q := p.slot;
      assert q == Put(b, enc.value);
      if r.Done? {
        SuffixSlices(r.slot.buf, q.buf, EstimateSize(), q.pos);
        SuffixSlices(q.buf, b.buf, q.pos, q.pos);
        SuffixSlices(b.buf, s.buf, EstimateSize(), q.pos);
      }
    }
  }

  /**
    What a deferred send of `payload` with header {direction, packet, Last}
    promises: it succeeds exactly when the payload encodes, fits the slot
    and its length fits a u16; then the header declares the payload's
    length, the payload follows the header, the cursor is at its end and
    the slot's bytes past it are untouched. A payload that fits the slot but
    not a u16 fails with `IntConversion`; a payload that fails to encode
    fails with its own error, or with `BufferFull` when an earlier part
    already overflowed the slot.
   */
  predicate DeferredOutcome(s: SlotStream, r: Outcome<()>, payload: Result<seq<byte>>,
                            direction: Direction, packet: Packet) {
    && (r.Done? <==>
          payload.Ok? && EstimateSize() + |payload.value| <= Capacity(s) && |payload.value| < U16_LIMIT)
    && (r.Done? ==>
          && payload.Ok? && |payload.value| < U16_LIMIT
          && Framed(r.slot, Header(direction, packet, Last, |payload.value|), payload.value)
          && r.slot.buf[r.slot.pos..] == s.buf[r.slot.pos..])
    && (payload.Ok? && EstimateSize() + |payload.value| <= Capacity(s) && |payload.value| >= U16_LIMIT ==>
          r.Fail? && r.error == IntConversion)
    && (payload.Err? ==> r.Fail? && (r.error == BufferFull || r.error == payload.error))
  }

  /**
    The shared shape of `prepare_params`, `prepare_table_refs` and
    `prepare_metadata`: placeholder header, array length, one `write` per
    element, then the real header with the measured length.
   */
  function PrepareArray<T(!new)>(s: SlotStream, direction: Direction, packet: Packet, count: Result<u32>,
                                 xs: seq<T>, write: (SlotStream, T) -> Outcome<()>,
                                 enc: T -> Result<seq<byte>>): (r: Outcome<()>)
    requires Writes(write, enc)
    ensures DeferredOutcome(s, r, ArrayPayload(count, xs, enc), direction, packet)
    ensures count.Err? ==> r == Fail(count.error, BeginDeferred(s).slot)
  {
    var b := BeginDeferred(s).slot;
    var p := WriteArray(b, count, xs, write, enc);
    var r := if p.Fail? then p else FinishDeferred(p.slot, EstimateSize(), direction, packet);
    DeferredWrite(s, ArrayPayload(count, xs, enc), p, direction, packet, r);
    r
  }
}
