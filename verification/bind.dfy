/**
  The Bind packet: the query parameters as a MessagePack array of scalar
  values, written with a deferred length. The scalar codec and the
  datum-to-scalar conversion belong to the data-type layer, which is not
  part of this model; they enter as function parameters: `convert` for
  `datum_to_scalar`, `encode` for the bytes `write_scalar_value` produces and
  `readScalar` for `read_scalar_value`.
 */
module Bind {
  import opened Bytes
  import opened Stream
  import opened MsgPack
  import opened Tags
  import opened Framing
  import opened Deferred
  import opened Items

  /** `ParamExternData`: the datum word, its type oid and the null flag; `pflags` is never read. */
  datatype Param = Param(value: nat, ptype: u32, isNull: bool)

  /**
    The payload `prepare_params` writes after the placeholder header: the
    array length `u32::try_from(params.len())`, then each parameter's scalar.
   */
  function BindPayload<V>(params: seq<Param>, convert: Param -> Result<V>,
                          encode: V -> Result<seq<byte>>): Result<seq<byte>>
  {
    ArrayPayload(TryU32(|params|), params, Compose(convert, encode))
  }

  /** One iteration of the `for` loop: `datum_to_scalar`, then `write_scalar_value`. */
  function WriteParam<V>(convert: Param -> Result<V>, encode: V -> Result<seq<byte>>): (SlotStream, Param) -> Outcome<()> {
    (u: SlotStream, p: Param) =>
      var value := convert(p);
      if value.Err? then Fail(value.error, u) else WriteEncoded(u, encode(value.value))
  }

  /** Each iteration writes the parameter's converted and encoded scalar, or fails without writing. */
  lemma WriteParamWrites<V>(convert: Param -> Result<V>, encode: V -> Result<seq<byte>>)
    ensures Writes(WriteParam(convert, encode), Compose(convert, encode))
  {
    forall u: SlotStream, p: Param
      ensures EmitsResult(u, WriteParam(convert, encode)(u, p), Compose(convert, encode)(p))
    {
      var value := convert(p);
      var w := if value.Err? then Fail(value.error, u) else WriteEncoded(u, encode(value.value));
      assert WriteParam(convert, encode)(u, p) == w;
      assert Compose(convert, encode)(p) == Then(value, encode);
    }
  }

  /**
    `prepare_params`: a deferred write of header {ToWorker, Bind, Last} around
    the parameter array. It succeeds exactly when every parameter converts
    and encodes, the payload fits the slot and its length fits a u16, and
    the slot is then framed with the measured length; a parameter count that
    does not fit a u32 fails with `IntConversion` once the placeholder is
    written.
   */
  function PrepareParams<V>(s: SlotStream, params: seq<Param>, convert: Param -> Result<V>,
                            encode: V -> Result<seq<byte>>): (r: Outcome<()>)
    ensures DeferredOutcome(s, r, BindPayload(params, convert, encode), ToWorker, Bind)
    ensures |params| >= U32_LIMIT ==> r == Fail(IntConversion, BeginDeferred(s).slot)
  {
    WriteParamWrites(convert, encode);
    PrepareArray(s, ToWorker, Bind, TryU32(|params|), params, WriteParam(convert, encode), Compose(convert, encode))
  }

  /** `read_params`: the array length, then that many scalars. */
  function ReadParams<V>(s: SlotStream, readScalar: SlotStream -> Outcome<V>): (r: Outcome<seq<V>>)
    ensures r.Done? ==> ReadArrayLen(s).Done? && |r.value| == ReadArrayLen(s).value
  {
    ReadArray(s, readScalar)
  }

  /**
    After a successful `prepare_params`, `reset` and `consume_header`,
    `read_params` returns the converted parameters in order, provided the
    scalar reader undoes the scalar writer; the cursor ends at the end of
    the payload.
   */
  lemma ParamsRoundTrip<V(!new)>(s: SlotStream, params: seq<Param>, convert: Param -> Result<V>,
                                 encode: V -> Result<seq<byte>>, readScalar: SlotStream -> Outcome<V>)
    requires Decodes(readScalar, encode, Identity())
    requires PrepareParams(s, params, convert, encode).Done?
    ensures MapAll(params, convert).Ok?
    ensures var payload := BindPayload(params, convert, encode).value;
            var t := Reset(PrepareParams(s, params, convert, encode).slot);
            && ConsumeHeader(t) == Done(Header(ToWorker, Bind, Last, |payload|), Skip(t, EstimateSize()))
            && ReadParams(Skip(t, EstimateSize()), readScalar)
               == Done(MapAll(params, convert).value, Skip(t, EstimateSize() + |payload|))
  {
    var r := PrepareParams(s, params, convert, encode);
    var payload := BindPayload(params, convert, encode).value;
    var h := Header(ToWorker, Bind, Last, |payload|);
    var t := Reset(r.slot);
    FramedRoundTrip(t, r.slot, h, payload);
    HeaderRoundTrip(t, h);
    ReadParamsDecodes(Skip(t, EstimateSize()), params, convert, encode, readScalar);
  }

  /** `read_params` at the parameter array gives back the converted parameters. */
  lemma ReadParamsDecodes<V(!new)>(u: SlotStream, params: seq<Param>, convert: Param -> Result<V>,
                                   encode: V -> Result<seq<byte>>, readScalar: SlotStream -> Outcome<V>)
    requires Decodes(readScalar, encode, Identity())
    requires BindPayload(params, convert, encode).Ok? && |BindPayload(params, convert, encode).value| < U16_LIMIT
    requires At(u, BindPayload(params, convert, encode).value)
    ensures MapAll(params, convert).Ok?
    ensures ReadParams(u, readScalar)
         == Done(MapAll(params, convert).value, Skip(u, |BindPayload(params, convert, encode).value|))
  {
    EncAllCompose(params, convert, encode);
    var vs := MapAll(params, convert).value;
    assert BindPayload(params, convert, encode) == ArrayPayload(Ok(|vs|), vs, encode);
    ReadArrayRoundTrip(u, vs, encode, readScalar, Identity());
    MapViewIdentity(vs);
  }
}
