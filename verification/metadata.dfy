/**
  The table-description Metadata response: for each requested relation its
  oid, then a [name, encoded type, nullable] triple per live attribute. The
  catalog lookup is not part of this model: each relation arrives as its oid
  and its attribute list, in attribute-number order, and `EncodedType::try_from`
  on a type oid enters as the function parameter `mapType`.
 */
module Metadata {
  import opened Bytes
  import opened Stream
  import opened MsgPack
  import opened Tags
  import opened Framing
  import opened Deferred
  import opened Items
  import opened Utf8

  /** One entry of a tuple descriptor, reduced to the fields `serialize_table` reads. */
  datatype Attribute = Attribute(name: Text, typeOid: u32, notNull: bool, dropped: bool)

  /** A relation as the catalog describes it under its lock. */
  datatype Relation = Relation(oid: u32, attributes: seq<Attribute>)

  /** The attributes that are not dropped, in their original order. */
  function Live(attrs: seq<Attribute>): (r: seq<Attribute>)
    ensures |r| <= |attrs|
    ensures forall a :: a in r <==> a in attrs && !a.dropped
  {
    if |attrs| == 0 then []
    else
      var rest := Live(attrs[1..]);
      assert forall a :: a in attrs <==> a == attrs[0] || a in attrs[1..];
      if attrs[0].dropped then rest else [attrs[0]] + rest
  }

  /** Filtering a concatenation filters each part: the live attributes keep their order. */
  lemma {:induction false} LiveAppend(a: seq<Attribute>, b: seq<Attribute>)
    ensures Live(a + b) == Live(a) + Live(b)
    decreases |a|
  {
    if |a| > 0 {
      assert (a + b)[0] == a[0] && (a + b)[1..] == a[1..] + b;
      LiveAppend(a[1..], b);
      if !a[0].dropped {
        assert [a[0]] + (Live(a[1..]) + Live(b)) == [a[0]] + Live(a[1..]) + Live(b);
      }
    } else {
      assert a + b == b;
    }
  }

  /** The triple of a live attribute: array of 3, its name as str, its encoded type as u8, `!attnotnull` as bool. */
  function EncLiveAttribute(a: Attribute, mapType: u32 -> Result<byte>): Result<seq<byte>> {
    var etype := mapType(a.typeOid);
    if etype.Err? then Err(etype.error)
    else Ok(EncArrayLen(3) + EncStr(a.name) + EncU8(etype.value) + EncBool(!a.notNull))
  }

  /** One iteration of the attribute loop: a dropped attribute writes nothing. */
  function EncAttribute(a: Attribute, mapType: u32 -> Result<byte>): Result<seq<byte>> {
    if a.dropped then Ok([]) else EncLiveAttribute(a, mapType)
  }

  /**
    One iteration of the attribute loop as it writes into the slot: skip a
    dropped attribute, else map the type (failing before anything is
    written for this attribute) and write the triple.
   */
  function WriteAttribute(s: SlotStream, a: Attribute, mapType: u32 -> Result<byte>): (r: Outcome<()>)
    ensures EmitsResult(s, r, EncAttribute(a, mapType))
    ensures !a.dropped && mapType(a.typeOid).Err? ==> r == Fail(mapType(a.typeOid).error, s)
  {
    if a.dropped then Done((), s)
    else
      var etype := mapType(a.typeOid);
      if etype.Err? then Fail(etype.error, s)
      else
        var h := EncArrayLen(3);
        var n := EncStr(a.name);
        var w1 := WriteArrayLen(s, 3);
        var w2 := if w1.Fail? then w1 else WriteStr(w1.slot, a.name);
        var w3 := AndWrite(w2, EncU8(etype.value));
        var w4 := AndWrite(w3, EncBool(!a.notNull));
        EmitsSeq(s, w1, h, w2, n, w2);
        AndWriteEmits(s, w2, h + n, EncU8(etype.value));
        AndWriteEmits(s, w3, h + n + EncU8(etype.value), EncBool(!a.notNull));
        w4
  }

  function AttributeEncoder(mapType: u32 -> Result<byte>): Attribute -> Result<seq<byte>> {
    a => EncAttribute(a, mapType)
  }

  function LiveEncoder(mapType: u32 -> Result<byte>): Attribute -> Result<seq<byte>> {
    a => EncLiveAttribute(a, mapType)
  }

  function AttributeWriter(mapType: u32 -> Result<byte>): (SlotStream, Attribute) -> Outcome<()> {
    (s: SlotStream, a: Attribute) => WriteAttribute(s, a, mapType)
  }

  lemma AttributeWriterWrites(mapType: u32 -> Result<byte>)
    ensures Writes(AttributeWriter(mapType), AttributeEncoder(mapType))
  {
    forall u: SlotStream, a: Attribute
      ensures EmitsResult(u, AttributeWriter(mapType)(u, a), AttributeEncoder(mapType)(a))
    {
      assert AttributeWriter(mapType)(u, a) == WriteAttribute(u, a, mapType);
    }
  }

  /** Skipping dropped attributes while encoding is encoding only the live ones. */
  lemma {:induction false} EncodeLiveOnly(attrs: seq<Attribute>, mapType: u32 -> Result<byte>)
    ensures EncAll(attrs, AttributeEncoder(mapType)) == EncAll(Live(attrs), LiveEncoder(mapType))
    decreases |attrs|
  {
    if |attrs| > 0 {
      EncodeLiveOnly(attrs[1..], mapType);
      var a := attrs[0];
      assert AttributeEncoder(mapType)(a) == EncAttribute(a, mapType);
      if !a.dropped {
        var live := Live(attrs);
        assert live == [a] + Live(attrs[1..]);
        assert live[0] == a && live[1..] == Live(attrs[1..]);
        assert LiveEncoder(mapType)(a) == EncLiveAttribute(a, mapType);
      } else {
        var head := EncAttribute(a, mapType);
        assert head == Ok([]);
        var tail := EncAll(attrs[1..], AttributeEncoder(mapType));
        if tail.Ok? {
          assert [] + tail.value == tail.value;
        }
      }
    }
  }

  /**
    What `serialize_table` writes for one relation: the oid as u32, the
    array length `u32::try_from(live count)`, then each live attribute's
    triple. The count is converted before anything is written.
   */
  function EncTable(rel: Relation, mapType: u32 -> Result<byte>): Result<seq<byte>> {
    var count := TryU32(|Live(rel.attributes)|);
    if count.Err? then Err(count.error)
    else Join(Ok(EncU32(rel.oid)), ArrayPayload(count, rel.attributes, AttributeEncoder(mapType)))
  }

  /** `serialize_table`. */
  function SerializeTable(s: SlotStream, rel: Relation, mapType: u32 -> Result<byte>): (r: Outcome<()>)
    ensures EmitsResult(s, r, EncTable(rel, mapType))
    ensures |Live(rel.attributes)| >= U32_LIMIT ==> r == Fail(IntConversion, s)
  {
    var count := TryU32(|Live(rel.attributes)|);
    if count.Err? then Fail(count.error, s)
    else
      var o := WriteU32(s, rel.oid);
      AttributeWriterWrites(mapType);
      var r := if o.Fail? then o
               else WriteArray(o.slot, count, rel.attributes, AttributeWriter(mapType), AttributeEncoder(mapType));
      EmitsResultSeq(s, o, Ok(EncU32(rel.oid)), r, ArrayPayload(count, rel.attributes, AttributeEncoder(mapType)), r);
      r
  }

  function TableEncoder(mapType: u32 -> Result<byte>): Relation -> Result<seq<byte>> {
    rel => EncTable(rel, mapType)
  }

  function TableWriter(mapType: u32 -> Result<byte>): (SlotStream, Relation) -> Outcome<()> {
    (s: SlotStream, rel: Relation) => SerializeTable(s, rel, mapType)
  }

  lemma TableWriterWrites(mapType: u32 -> Result<byte>)
    ensures Writes(TableWriter(mapType), TableEncoder(mapType))
  {
    forall u: SlotStream, rel: Relation
      ensures EmitsResult(u, TableWriter(mapType)(u, rel), TableEncoder(mapType)(rel))
    {
      assert TableWriter(mapType)(u, rel) == SerializeTable(u, rel, mapType);
    }
  }

  /** The payload of `prepare_metadata`: the array length `rel_oids.len() as u32`, then each table. */
  function MetadataPayload(rels: seq<Relation>, mapType: u32 -> Result<byte>): Result<seq<byte>> {
    ArrayPayload(Ok(AsU32(|rels|)), rels, TableEncoder(mapType))
  }

  /**
    `prepare_metadata`: a deferred write of header {ToWorker, Metadata, Last}
    around the array of table descriptions. It succeeds exactly when every
    live attribute's type maps, the payload fits the slot and its length
    fits a u16, and the slot is then framed with the measured length. The
    relation count is truncated to a u32, not checked.
   */
  function PrepareMetadata(rels: seq<Relation>, s: SlotStream, mapType: u32 -> Result<byte>): (r: Outcome<()>)
    ensures DeferredOutcome(s, r, MetadataPayload(rels, mapType), ToWorker, Metadata)
  {
    TableWriterWrites(mapType);
    PrepareArray(s, ToWorker, Metadata, Ok(AsU32(|rels|)), rels, TableWriter(mapType), TableEncoder(mapType))
  }

  // A reference reader, following the reads of `test_metadata_response`.

  /** An attribute as the reader sees it: the name's bytes, the encoded type and the nullable flag. */
  datatype AttributeView = AttributeView(name: seq<byte>, etype: byte, nullable: bool)

  /** A relation as the reader sees it: its oid and its live attributes. */
  datatype TableView = TableView(oid: u32, attributes: seq<AttributeView>)

  /** The name's str length, the bytes looked at in place, then the cursor stepped past them. */
  function ReadName(s: SlotStream): Outcome<seq<byte>> {
    var len :- ReadStrLen(s);
    var name :- LookAhead(len.slot, len.value);
    var past :- Rewind(name.slot, len.value);
    Done(name.value, past.slot)
  }

  /** A 3-element array of str, u8 and bool; any other arity is rejected. */
  function ReadAttribute(s: SlotStream): Outcome<AttributeView> {
    var n :- ReadArrayLen(s);
    if n.value != 3 then Fail(UnexpectedLength(n.value), n.slot)
    else ReadTriple(n.slot)
  }

  /** The three elements of an attribute: the name, the encoded type, the nullable flag. */
  function ReadTriple(s: SlotStream): Outcome<AttributeView> {
    var name :- ReadName(s);
    var etype :- ReadU8(name.slot);
    var nullable :- ReadBool(etype.slot);
    Done(AttributeView(name.value, etype.value, nullable.value), nullable.slot)
  }

  /** The oid as u32, then the array of attribute triples. */
  function ReadTable(s: SlotStream): Outcome<TableView> {
    var oid :- ReadU32(s);
    var attrs :- ReadArray(oid.slot, ReadAttribute);
    Done(TableView(oid.value, attrs.value), attrs.slot)
  }

  /** The array of tables `prepare_metadata` writes. */
  function ReadMetadata(s: SlotStream): (r: Outcome<seq<TableView>>)
    ensures r.Done? ==> ReadArrayLen(s).Done? && |r.value| == ReadArrayLen(s).value
  {
    ReadArray(s, ReadTable)
  }

  /** What the reader should find for a live attribute whose type maps. */
  function Describe(a: Attribute, mapType: u32 -> Result<byte>): AttributeView {
    var etype := mapType(a.typeOid);
    AttributeView(a.name, if etype.Ok? then etype.value else 0, !a.notNull)
  }

  function Describer(mapType: u32 -> Result<byte>): Attribute -> AttributeView {
    a => Describe(a, mapType)
  }

  /** What the reader should find for a relation: its oid and its live attributes, in order. */
  function DescribeTable(rel: Relation, mapType: u32 -> Result<byte>): TableView {
    TableView(rel.oid, MapView(Live(rel.attributes), Describer(mapType)))
  }

  function TableDescriber(mapType: u32 -> Result<byte>): Relation -> TableView {
    rel => DescribeTable(rel, mapType)
  }

  lemma ReadNameDecodes(u: SlotStream, name: seq<byte>)
    requires |name| < U16_LIMIT && At(u, EncStr(name))
    ensures ReadName(u) == Done(name, Skip(u, |EncStr(name)|))
  {
    ReadStrRoundTrip(u, name);
    var v := Skip(u, |EncStrLen(|name|)|);
    assert ReadStrLen(u) == Done(|name|, v);
    assert LookAhead(v, |name|) == Done(name, v);
  }

  lemma ReadTripleDecodes(v: SlotStream, name: seq<byte>, etype: byte, nullable: bool)
    requires |name| < U16_LIMIT && At(v, EncStr(name) + (EncU8(etype) + EncBool(nullable)))
    ensures ReadTriple(v)
         == Done(AttributeView(name, etype, nullable), Skip(v, |EncStr(name) + (EncU8(etype) + EncBool(nullable))|))
  {
    var n := EncStr(name);
    AtSplit(v, n, EncU8(etype) + EncBool(nullable));
    var w := Skip(v, |n|);
    AtSplit(w, EncU8(etype), EncBool(nullable));
    ReadNameDecodes(v, name);
    ReadU8RoundTrip(w, etype);
    ReadBoolRoundTrip(Skip(w, 2), nullable);
  }

  lemma ReadAttributeDecodes(u: SlotStream, a: Attribute, mapType: u32 -> Result<byte>)
    requires EncLiveAttribute(a, mapType).Ok? && |EncLiveAttribute(a, mapType).value| < U16_LIMIT
    requires At(u, EncLiveAttribute(a, mapType).value)
    ensures ReadAttribute(u) == Done(Describe(a, mapType), Skip(u, |EncLiveAttribute(a, mapType).value|))
  {
    var e := mapType(a.typeOid).value;
    var h := EncArrayLen(3);
    var fields := EncStr(a.name) + (EncU8(e) + EncBool(!a.notNull));
    assert EncLiveAttribute(a, mapType).value == h + fields;
    AtSplit(u, h, fields);
    ReadArrayLenRoundTrip(u, 3);
    ReadTripleDecodes(Skip(u, |h|), a.name, e, !a.notNull);
  }

  lemma LiveDecodes(mapType: u32 -> Result<byte>)
    ensures Decodes(ReadAttribute, LiveEncoder(mapType), Describer(mapType))
  {
    forall u: SlotStream, a: Attribute |
      LiveEncoder(mapType)(a).Ok? && |LiveEncoder(mapType)(a).value| < U16_LIMIT && At(u, LiveEncoder(mapType)(a).value)
      ensures ReadAttribute(u) == Done(Describer(mapType)(a), Skip(u, |LiveEncoder(mapType)(a).value|))
    {
      ReadAttributeDecodes(u, a, mapType);
    }
  }

  /** A table's bytes are its oid, then the array of its live attributes' triples. */
  lemma EncTableShape(rel: Relation, mapType: u32 -> Result<byte>)
    requires EncTable(rel, mapType).Ok?
    ensures |Live(rel.attributes)| < U32_LIMIT
    ensures var live := Live(rel.attributes);
            && ArrayPayload(Ok(|live|), live, LiveEncoder(mapType)).Ok?
            && EncTable(rel, mapType).value == EncU32(rel.oid) + ArrayPayload(Ok(|live|), live, LiveEncoder(mapType)).value
  {
    var live := Live(rel.attributes);
    EncodeLiveOnly(rel.attributes, mapType);
    assert TryU32(|live|) == Ok(|live|);
  }

  lemma ReadTableDecodes(u: SlotStream, rel: Relation, mapType: u32 -> Result<byte>)
    requires EncTable(rel, mapType).Ok? && |EncTable(rel, mapType).value| < U16_LIMIT
    requires At(u, EncTable(rel, mapType).value)
    ensures ReadTable(u) == Done(DescribeTable(rel, mapType), Skip(u, |EncTable(rel, mapType).value|))
  {
    var live := Live(rel.attributes);
    EncTableShape(rel, mapType);
    var attrs := ArrayPayload(Ok(|live|), live, LiveEncoder(mapType)).value;
    AtSplit(u, EncU32(rel.oid), attrs);
    ReadU32RoundTrip(u, rel.oid);
    var v := Skip(u, 5);
    LiveDecodes(mapType);
    ReadArrayRoundTrip(v, live, LiveEncoder(mapType), ReadAttribute, Describer(mapType));
    assert ReadU32(u) == Done(rel.oid, v);
  }

  lemma TableDecodes(mapType: u32 -> Result<byte>)
    ensures Decodes(ReadTable, TableEncoder(mapType), TableDescriber(mapType))
  {
    forall u: SlotStream, rel: Relation |
      TableEncoder(mapType)(rel).Ok? && |TableEncoder(mapType)(rel).value| < U16_LIMIT
      && At(u, TableEncoder(mapType)(rel).value)
      ensures ReadTable(u) == Done(TableDescriber(mapType)(rel), Skip(u, |TableEncoder(mapType)(rel).value|))
    {
      ReadTableDecodes(u, rel, mapType);
    }
  }

  /**
    After a successful `prepare_metadata`, `reset` and `consume_header`, the
    reference reader finds one description per relation, in order, each
    with the relation's oid and its live attributes in attribute order.
   */
  lemma MetadataRoundTrip(rels: seq<Relation>, s: SlotStream, mapType: u32 -> Result<byte>)
    requires PrepareMetadata(rels, s, mapType).Done?
    ensures var payload := MetadataPayload(rels, mapType).value;
            var t := Reset(PrepareMetadata(rels, s, mapType).slot);
            && ConsumeHeader(t) == Done(Header(ToWorker, Metadata, Last, |payload|), Skip(t, EstimateSize()))
            && ReadMetadata(Skip(t, EstimateSize()))
               == Done(MapView(rels, TableDescriber(mapType)), Skip(t, EstimateSize() + |payload|))
  {
    var r := PrepareMetadata(rels, s, mapType);
    var payload := MetadataPayload(rels, mapType).value;
    var h := Header(ToWorker, Metadata, Last, |payload|);
    var t := Reset(r.slot);
    FramedRoundTrip(t, r.slot, h, payload);
    HeaderRoundTrip(t, h);
    ReadMetadataDecodes(Skip(t, EstimateSize()), rels, mapType);
  }

  /** The reference reader at a metadata payload gives back the description of every relation. */
  lemma ReadMetadataDecodes(u: SlotStream, rels: seq<Relation>, mapType: u32 -> Result<byte>)
    requires MetadataPayload(rels, mapType).Ok? && |MetadataPayload(rels, mapType).value| < U16_LIMIT
    requires At(u, MetadataPayload(rels, mapType).value)
    ensures ReadMetadata(u) == Done(MapView(rels, TableDescriber(mapType)), Skip(u, |MetadataPayload(rels, mapType).value|))
  {
    TablesFitU32(rels, mapType);
    TableDecodes(mapType);
    ReadArrayRoundTrip(u, rels, TableEncoder(mapType), ReadTable, TableDescriber(mapType));
  }

  /** A payload shorter than 2^16 bytes holds fewer than 2^32 relations, so `as u32` kept the count. */
  lemma TablesFitU32(rels: seq<Relation>, mapType: u32 -> Result<byte>)
    requires MetadataPayload(rels, mapType).Ok? && |MetadataPayload(rels, mapType).value| < U16_LIMIT
    ensures |rels| < U32_LIMIT && MetadataPayload(rels, mapType) == ArrayPayload(Ok(|rels|), rels, TableEncoder(mapType))
  {
    forall rel | TableEncoder(mapType)(rel).Ok? ensures |TableEncoder(mapType)(rel).value| > 0 {
      assert TableEncoder(mapType)(rel) == EncTable(rel, mapType);
    }
    EncAllNonEmpty(rels, TableEncoder(mapType));
  }

  /**
    One live attribute anywhere whose type oid has no encoded type makes the
    whole `prepare_metadata` fail: the error propagates out of
    `serialize_table` and no header with a length is written.
   */
  lemma UnmappedTypeFails(rels: seq<Relation>, s: SlotStream, mapType: u32 -> Result<byte>, i: nat, j: nat)
    requires i < |rels| && j < |rels[i].attributes|
    requires !rels[i].attributes[j].dropped && mapType(rels[i].attributes[j].typeOid).Err?
    ensures MetadataPayload(rels, mapType).Err?
    ensures PrepareMetadata(rels, s, mapType).Fail?
  {
    var rel := rels[i];
    assert AttributeEncoder(mapType)(rel.attributes[j]).Err?;
    assert EncAll(rel.attributes, AttributeEncoder(mapType)).Err?;
    assert TableEncoder(mapType)(rels[i]).Err?;
  }
}
