/**
  The `send_*` entry points: prepare the message in the slot, release the
  slot, then signal the peer. Releasing the lock and the signal itself are
  effects outside this model; a send is modelled as an `Outcome` whose value
  is the direction handed to `signal`. A failed preparation returns its
  error and signals nobody.
 */
module Send {
  import opened Bytes
  import opened Utf8
  import opened Stream
  import opened MsgPack
  import opened Tags
  import opened Framing
  import Parse
  import Failure
  import Bind
  import TableRefs
  import Metadata

  /** Hand off after a preparation: signal `recipient` only when it succeeded. */
  function HandOff(p: Outcome<()>, recipient: Direction): (r: Outcome<Direction>)
    ensures r.slot == p.slot
    ensures r.Done? <==> p.Done?
    ensures r.Done? ==> r.value == recipient
    ensures r.Fail? ==> r.error == p.error
  {
    if p.Fail? then Fail(p.error, p.slot) else Done(recipient, p.slot)
  }

  /**
    `send_query`: signals exactly when the query passed the size check and
    fit, and then the peer it wakes is the one the header addresses.
   */
  function SendQuery(s: SlotStream, query: Text): (r: Outcome<Direction>)
    ensures r.Done? <==>
              Parse.DeclaredLength(query) <= PayloadMaxSize(s) && EstimateSize() + |EncStr(query)| <= Capacity(s)
    ensures r.Done? ==>
              Framed(r.slot, Header(r.value, Packet.Parse, Last, AsU16(Parse.DeclaredLength(query))), EncStr(query))
    ensures r.Fail? ==> r.error == PayloadTooLarge(|query|) || r.error == BufferFull
  {
    HandOff(Parse.PrepareQuery(s, query), ToWorker)
  }

  /** `send_params`: signals exactly when the Bind message was framed, and wakes the peer its header addresses. */
  function SendParams<V>(s: SlotStream, params: seq<Bind.Param>, convert: Bind.Param -> Result<V>,
                         encode: V -> Result<seq<byte>>): (r: Outcome<Direction>)
    ensures var payload := Bind.BindPayload(params, convert, encode);
            r.Done? <==> payload.Ok? && EstimateSize() + |payload.value| <= Capacity(s) && |payload.value| < U16_LIMIT
    ensures var payload := Bind.BindPayload(params, convert, encode);
            r.Done? ==> payload.Ok? && Framed(r.slot, Header(r.value, Packet.Bind, Last, |payload.value|), payload.value)
  {
    HandOff(Bind.PrepareParams(s, params, convert, encode), ToWorker)
  }

  /** `send_error`: signals exactly when the Failure message fit, and wakes the peer its header addresses. */
  function SendError(s: SlotStream, message: Text): (r: Outcome<Direction>)
    ensures r.Done? <==> |message| < U32_LIMIT && EstimateSize() + |EncStr(message)| <= Capacity(s)
    ensures r.Done? ==>
              && |message| < U32_LIMIT
              && Framed(r.slot, Header(r.value, Packet.Failure, Last, Failure.ErrorLength(message)), EncStr(message))
    ensures r.Fail? ==> r.error == IntConversion || r.error == BufferFull
  {
    HandOff(Failure.PrepareError(s, message), ToBackend)
  }

  /**
    `send_table_refs`: signals exactly when the reference list was framed,
    but the peer it wakes is the worker while the header it wrote addresses
    the backend.
   */
  function SendTableRefs(s: SlotStream, tables: seq<TableRefs.TableReference>): (r: Outcome<Direction>)
    ensures var payload := TableRefs.TableRefsPayload(tables);
            r.Done? <==> payload.Ok? && EstimateSize() + |payload.value| <= Capacity(s) && |payload.value| < U16_LIMIT
    ensures var payload := TableRefs.TableRefsPayload(tables);
            r.Done? ==>
              && r.value == ToWorker
              && payload.Ok?
              && Framed(r.slot, Header(ToBackend, Packet.Metadata, Last, |payload.value|), payload.value)
  {
    HandOff(TableRefs.PrepareTableRefs(s, tables), ToWorker)
  }

  /** `send_metadata`: signals exactly when the descriptions were framed, and wakes the peer the header addresses. */
  function SendMetadata(s: SlotStream, rels: seq<Metadata.Relation>, mapType: u32 -> Result<byte>): (r: Outcome<Direction>)
    ensures var payload := Metadata.MetadataPayload(rels, mapType);
            r.Done? <==> payload.Ok? && EstimateSize() + |payload.value| <= Capacity(s) && |payload.value| < U16_LIMIT
    ensures var payload := Metadata.MetadataPayload(rels, mapType);
            r.Done? ==>
              payload.Ok? && Framed(r.slot, Header(r.value, Packet.Metadata, Last, |payload.value|), payload.value)
  {
    HandOff(Metadata.PrepareMetadata(rels, s, mapType), ToWorker)
  }

  /** The header a reader finds in a framed slot after `reset`. */
  lemma FramedHeader(r: SlotStream, h: Header, payload: seq<byte>)
    requires Framed(r, h, payload)
    ensures ConsumeHeader(Reset(r)).Done? && ConsumeHeader(Reset(r)).value == h
  {
    FramedRoundTrip(Reset(r), r, h, payload);
    HeaderRoundTrip(Reset(r), h);
  }

  /** The direction a reader decodes from the Parse header is the one `send_query` signalled. */
  lemma QuerySignalMatchesHeader(s: SlotStream, query: Text)
    requires SendQuery(s, query).Done?
    ensures var r := SendQuery(s, query);
            ConsumeHeader(Reset(r.slot)).Done? && ConsumeHeader(Reset(r.slot)).value.direction == r.value
  {
    var r := SendQuery(s, query);
    FramedHeader(r.slot, Header(r.value, Packet.Parse, Last, AsU16(Parse.DeclaredLength(query))), EncStr(query));
  }

  /** The direction a reader decodes from the Failure header is the one `send_error` signalled. */
  lemma ErrorSignalMatchesHeader(s: SlotStream, message: Text)
    requires SendError(s, message).Done?
    ensures var r := SendError(s, message);
            ConsumeHeader(Reset(r.slot)).Done? && ConsumeHeader(Reset(r.slot)).value.direction == r.value
  {
    var r := SendError(s, message);
    FramedHeader(r.slot, Header(r.value, Packet.Failure, Last, Failure.ErrorLength(message)), EncStr(message));
  }

  /** The direction a reader decodes from the Bind header is the one `send_params` signalled. */
  lemma ParamsSignalMatchesHeader<V>(s: SlotStream, params: seq<Bind.Param>, convert: Bind.Param -> Result<V>,
                                     encode: V -> Result<seq<byte>>)
    requires SendParams(s, params, convert, encode).Done?
    ensures var r := SendParams(s, params, convert, encode);
            ConsumeHeader(Reset(r.slot)).Done? && ConsumeHeader(Reset(r.slot)).value.direction == r.value
  {
    var r := SendParams(s, params, convert, encode);
    var payload := Bind.BindPayload(params, convert, encode).value;
    FramedHeader(r.slot, Header(r.value, Packet.Bind, Last, |payload|), payload);
  }

  /** The direction a reader decodes from the Metadata header is the one `send_metadata` signalled. */
  lemma MetadataSignalMatchesHeader(s: SlotStream, rels: seq<Metadata.Relation>, mapType: u32 -> Result<byte>)
    requires SendMetadata(s, rels, mapType).Done?
    ensures var r := SendMetadata(s, rels, mapType);
            ConsumeHeader(Reset(r.slot)).Done? && ConsumeHeader(Reset(r.slot)).value.direction == r.value
  {
    var r := SendMetadata(s, rels, mapType);
    var payload := Metadata.MetadataPayload(rels, mapType).value;
    FramedHeader(r.slot, Header(r.value, Packet.Metadata, Last, |payload|), payload);
  }

  /**
    A successful `send_table_refs` wakes the worker, yet a reader of the slot
    decodes a header addressed to the backend.
   */
  lemma TableRefsSignalDisagrees(s: SlotStream, tables: seq<TableRefs.TableReference>)
    requires SendTableRefs(s, tables).Done?
    ensures var r := SendTableRefs(s, tables);
            && ConsumeHeader(Reset(r.slot)).Done?
            && ConsumeHeader(Reset(r.slot)).value.direction == ToBackend
            && r.value == ToWorker
  {
    var r := SendTableRefs(s, tables);
    var payload := TableRefs.TableRefsPayload(tables).value;
    FramedHeader(r.slot, Header(ToBackend, Packet.Metadata, Last, |payload|), payload);
  }
}
