/**
  The table-reference Metadata request: the tables a query names, sent to
  the backend as an array of 1- or 2-element arrays of null-terminated
  strings, each string a MessagePack bin whose content ends in a 0 byte, so
  that the C side can use the bytes in place.
 */
module TableRefs {
  import opened Bytes
  import opened Utf8
  import opened Stream
  import opened MsgPack
  import opened Tags
  import opened Framing
  import opened Deferred
  import opened Items

  /** DataFusion's `TableReference`: a table name, optionally qualified by schema and catalog. */
  datatype TableReference =
    | Bare(table: Text)
    | Partial(schema: Text, table: Text)
    | Full(catalog: Text, schema: Text, table: Text)

  /**
    What `write_c_str` writes: a bin header for `len + 1` (a u32 addition,
    which wraps for a string of 2^32 - 1 bytes), the bytes, and a positive
    fixint 0. The length must first fit a u32.
   */
  function EncCStr(x: seq<byte>): Result<seq<byte>> {
    if |x| >= U32_LIMIT then Err(IntConversion)
    else Ok(EncBinLen(AsU32(|x| + 1)) + x + EncPfix(0))
  }

  /** `write_c_str`: the u32 conversion, then three writes. */
  function WriteCStr(s: SlotStream, x: seq<byte>): (r: Outcome<()>)
    ensures EmitsResult(s, r, EncCStr(x))
    ensures |x| >= U32_LIMIT ==> r == Fail(IntConversion, s)
  {
    if |x| >= U32_LIMIT then Fail(IntConversion, s)
    else
      var header := EncBinLen(AsU32(|x| + 1));
      var a := WriteBinLen(s, AsU32(|x| + 1));
      var b := AndWrite(a, x);
      var c := if b.Fail? then b else WritePfix(b.slot, 0);
      AndWriteEmits(s, a, header, x);
      EmitsSeq(s, b, header + x, c, EncPfix(0), c);
      c
  }

  /** Below 2^32 - 1 bytes, a C string is a bin of the bytes plus one terminating 0 byte. */
  lemma CStrShape(x: seq<byte>)
    requires |x| < U32_LIMIT - 1
    ensures EncCStr(x) == Ok(EncBinLen(|x| + 1) + (x + [0]))
  {
    assert EncBinLen(|x| + 1) + x + EncPfix(0) == EncBinLen(|x| + 1) + (x + [0]);
  }

  /** The one string length at which `len + 1` wraps: the bin claims to be empty. */
  lemma CStrLengthWraps(x: seq<byte>)
    requires |x| == U32_LIMIT - 1
    ensures EncCStr(x).Ok? && EncCStr(x).value[..2] == [BIN8, 0]
  {
    assert AsU32(|x| + 1) == 0;
  }

  /**
    What `write_table_ref` writes: a Bare reference as the 1-element array
    [table], a Partial or Full one as the 2-element array [schema, table];
    a Full reference's catalog is not written.
   */
  function EncTableRef(t: TableReference): Result<seq<byte>> {
    if t.Bare? then Join(Ok(EncArrayLen(1)), EncCStr(t.table))
    else Join(Ok(EncArrayLen(2)), Join(EncCStr(t.schema), EncCStr(t.table)))
  }

  /** `write_table_ref`. */
  function WriteTableRef(s: SlotStream, t: TableReference): (r: Outcome<()>)
    ensures EmitsResult(s, r, EncTableRef(t))
  {
    if t.Bare? then
      var a := WriteArrayLen(s, 1);
      var r := if a.Fail? then a else WriteCStr(a.slot, t.table);
      EmitsResultSeq(s, a, Ok(EncArrayLen(1)), r, EncCStr(t.table), r);
      r
    else
      var a := WriteArrayLen(s, 2);
      var b := if a.Fail? then a else WriteCStr(a.slot, t.schema);
      var r := if b.Fail? then b else WriteCStr(b.slot, t.table);
      EmitsResultSeq(s, a, Ok(EncArrayLen(2)), b, EncCStr(t.schema), b);
      EmitsResultSeq(s, b, Join(Ok(EncArrayLen(2)), EncCStr(t.schema)), r, EncCStr(t.table), r);
      JoinAssociates(Ok(EncArrayLen(2)), EncCStr(t.schema), EncCStr(t.table));
      r
  }

  lemma JoinAssociates(a: Result<seq<byte>>, b: Result<seq<byte>>, c: Result<seq<byte>>)
    ensures Join(Join(a, b), c) == Join(a, Join(b, c))
  {
    if a.Ok? && b.Ok? && c.Ok? {
      assert a.value + b.value + c.value == a.value + (b.value + c.value);
    }
  }

  lemma WriteTableRefWrites()
    ensures Writes(WriteTableRef, EncTableRef)
  {
  }

  /** The payload of `prepare_table_refs`: the array length `u32::try_from(tables.len())`, then each reference. */
  function TableRefsPayload(tables: seq<TableReference>): Result<seq<byte>> {
    ArrayPayload(TryU32(|tables|), tables, EncTableRef)
  }

  /**
    `prepare_table_refs`: a deferred write of header {ToBackend, Metadata,
    Last} around the array of references; it succeeds exactly when every
    name's length fits a u32, the payload fits the slot and its length fits
    a u16, and the slot is then framed with the measured length.
   */
  function PrepareTableRefs(s: SlotStream, tables: seq<TableReference>): (r: Outcome<()>)
    ensures DeferredOutcome(s, r, TableRefsPayload(tables), ToBackend, Metadata)
    ensures |tables| >= U32_LIMIT ==> r == Fail(IntConversion, BeginDeferred(s).slot)
  {
    WriteTableRefWrites();
    PrepareArray(s, ToBackend, Metadata, TryU32(|tables|), tables, WriteTableRef, EncTableRef)
  }

  // A reference reader, following the reads of `test_table_request`.

  /** A bin length, a look at that many bytes, then `rewind` past them: the C string with its 0 byte. */
  function ReadCStr(s: SlotStream): Outcome<seq<byte>> {
    var len :- ReadBinLen(s);
    var bytes :- LookAhead(len.slot, len.value);
    var past :- Rewind(bytes.slot, len.value);
    Done(bytes.value, past.slot)
  }

  /** One table reference: a 1- or 2-element array of C strings; any other arity is rejected. */
  function ReadTableRef(s: SlotStream): Outcome<seq<seq<byte>>> {
    var n :- ReadArrayLen(s);
    if n.value == 1 then
      var table :- ReadCStr(n.slot);
      Done([table.value], table.slot)
    else if n.value == 2 then
      var schema :- ReadCStr(n.slot);
      var table :- ReadCStr(schema.slot);
      Done([schema.value, table.value], table.slot)
    else Fail(UnexpectedLength(n.value), n.slot)
  }

  /** The array of references `prepare_table_refs` writes. */
  function ReadTableRefs(s: SlotStream): (r: Outcome<seq<seq<seq<byte>>>>)
    ensures r.Done? ==> ReadArrayLen(s).Done? && |r.value| == ReadArrayLen(s).value
  {
    ReadArray(s, ReadTableRef)
  }

  /** The strings a reference puts on the wire, each with its terminating 0 byte. */
  function RefStrings(t: TableReference): seq<seq<byte>> {
    if t.Bare? then [t.table + [0]] else [t.schema + [0], t.table + [0]]
  }

  lemma ReadCStrDecodes(u: SlotStream, x: seq<byte>)
    requires |x| < U16_LIMIT && At(u, EncCStr(x).value)
    ensures ReadCStr(u) == Done(x + [0], Skip(u, |EncCStr(x).value|))
  {
    CStrShape(x);
    AtSplit(u, EncBinLen(|x| + 1), x + [0]);
    ReadBinLenRoundTrip(u, |x| + 1);
  }

  lemma ReadTableRefDecodes(u: SlotStream, t: TableReference)
    requires EncTableRef(t).Ok? && |EncTableRef(t).value| < U16_LIMIT && At(u, EncTableRef(t).value)
    ensures ReadTableRef(u) == Done(RefStrings(t), Skip(u, |EncTableRef(t).value|))
  {
    if t.Bare? {
      ReadBareDecodes(u, t.table);
    } else {
      ReadQualifiedDecodes(u, t.schema, t.table);
    }
  }

  lemma ReadBareDecodes(u: SlotStream, table: seq<byte>)
    requires |table| < U16_LIMIT && EncCStr(table).Ok?
    requires At(u, EncArrayLen(1) + EncCStr(table).value)
    ensures ReadTableRef(u) == Done([table + [0]], Skip(u, |EncArrayLen(1) + EncCStr(table).value|))
  {
    var h := EncArrayLen(1);
    AtSplit(u, h, EncCStr(table).value);
    ReadArrayLenRoundTrip(u, 1);
    var v := Skip(u, |h|);
    ReadCStrDecodes(v, table);
  }

  lemma ReadQualifiedDecodes(u: SlotStream, schema: seq<byte>, table: seq<byte>)
    requires |schema| < U16_LIMIT && |table| < U16_LIMIT && EncCStr(schema).Ok? && EncCStr(table).Ok?
    requires At(u, EncArrayLen(2) + (EncCStr(schema).value + EncCStr(table).value))
    ensures ReadTableRef(u)
         == Done([schema + [0], table + [0]], Skip(u, |EncArrayLen(2) + (EncCStr(schema).value + EncCStr(table).value)|))
  {
    var h := EncArrayLen(2);
    var a := EncCStr(schema).value;
    var b := EncCStr(table).value;
    AtSplit(u, h, a + b);
    var v := Skip(u, |h|);
    AtSplit(v, a, b);
    var w := Skip(v, |a|);
    ReadArrayLenRoundTrip(u, 2);
    ReadCStrDecodes(v, schema);
    ReadCStrDecodes(w, table);
    var n := ReadArrayLen(u);
    assert n == Done(2, v);
    assert ReadCStr(v) == Done(schema + [0], w);
    assert ReadCStr(w) == Done(table + [0], Skip(w, |b|));
  }

  lemma TableRefDecodes()
    ensures Decodes(ReadTableRef, EncTableRef, RefStrings)
  {
    forall u: SlotStream, t: TableReference | EncTableRef(t).Ok? && |EncTableRef(t).value| < U16_LIMIT && At(u, EncTableRef(t).value)
      ensures ReadTableRef(u) == Done(RefStrings(t), Skip(u, |EncTableRef(t).value|))
    {
      ReadTableRefDecodes(u, t);
    }
  }

  /**
    After a successful `prepare_table_refs`, `reset` and `consume_header`,
    the reference reader finds the references in order, each as its
    null-terminated schema and table names.
   */
  lemma TableRefsRoundTrip(s: SlotStream, tables: seq<TableReference>)
    requires PrepareTableRefs(s, tables).Done?
    ensures var payload := TableRefsPayload(tables).value;
            var t := Reset(PrepareTableRefs(s, tables).slot);
            && ConsumeHeader(t) == Done(Header(ToBackend, Metadata, Last, |payload|), Skip(t, EstimateSize()))
            && ReadTableRefs(Skip(t, EstimateSize()))
               == Done(MapView(tables, RefStrings), Skip(t, EstimateSize() + |payload|))
  {
    var r := PrepareTableRefs(s, tables);
    var payload := TableRefsPayload(tables).value;
    var h := Header(ToBackend, Metadata, Last, |payload|);
    var t := Reset(r.slot);
    FramedRoundTrip(t, r.slot, h, payload);
    HeaderRoundTrip(t, h);
    TableRefDecodes();
    ReadArrayRoundTrip(Skip(t, EstimateSize()), tables, EncTableRef, ReadTableRef, RefStrings);
  }

  /** Each reference of `test_table_request` takes 10 or 19 bytes. */
  lemma TestRefSizes(t1: Text, schema: Text, t2: Text)
    requires |t1| == 6 && |schema| == 6 && |t2| == 6
    ensures EncTableRef(Bare(t1)).Ok? && |EncTableRef(Bare(t1)).value| == 10
    ensures EncTableRef(Partial(schema, t2)).Ok? && |EncTableRef(Partial(schema, t2)).value| == 19
  {
    CStrShape(t1);
    CStrShape(schema);
    CStrShape(t2);
  }

  /** The payload of `test_table_request`: an array header and the two references, 30 bytes. */
  lemma TwoRefsPayload(t1: Text, sc: Text, t2: Text)
    requires |t1| == 6 && |sc| == 6 && |t2| == 6
    ensures TableRefsPayload([Bare(t1), Partial(sc, t2)]).Ok?
    ensures |TableRefsPayload([Bare(t1), Partial(sc, t2)]).value| == 30
  {
    var tables := [Bare(t1), Partial(sc, t2)];
    TestRefSizes(t1, sc, t2);
    assert tables[0] == Bare(t1) && tables[1] == Partial(sc, t2);
    var e1 := EncTableRef(tables[0]).value;
    var e2 := EncTableRef(tables[1]).value;
    assert tables[1..] == [tables[1]] && tables[1..][1..] == [];
    assert EncAll(tables[1..], EncTableRef) == Ok(e2 + []);
    assert EncAll(tables, EncTableRef) == Ok(e1 + (e2 + []));
  }

  /** What the reader should find for the two references of `test_table_request`. */
  lemma TwoRefsViews(t1: Text, sc: Text, t2: Text)
    ensures MapView([Bare(t1), Partial(sc, t2)], RefStrings) == [[t1 + [0]], [sc + [0], t2 + [0]]]
  {
    var tables := [Bare(t1), Partial(sc, t2)];
    assert MapView(tables, RefStrings) == [RefStrings(tables[0]), RefStrings(tables[1])];
  }

  /** The shape of `test_table_request`: a bare and a partial reference with six-byte names. */
  lemma TwoRefsRoundTrip(s: SlotStream, t1: Text, sc: Text, t2: Text)
    requires Capacity(s) >= 36
    requires |t1| == 6 && |sc| == 6 && |t2| == 6
    ensures var t := Reset(PrepareTableRefs(s, [Bare(t1), Partial(sc, t2)]).slot);
            && PrepareTableRefs(s, [Bare(t1), Partial(sc, t2)]).Done?
            && ConsumeHeader(t) == Done(Header(ToBackend, Metadata, Last, 30), Skip(t, 6))
            && ReadTableRefs(Skip(t, 6)) == Done([[t1 + [0]], [sc + [0], t2 + [0]]], Skip(t, 36))
  {
    TwoRefsPayload(t1, sc, t2);
    TwoRefsViews(t1, sc, t2);
    TableRefsRoundTrip(s, [Bare(t1), Partial(sc, t2)]);
  }
}
