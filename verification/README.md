# pg_fusion shared-memory protocol, modelled in Dafny

pg_fusion moves query execution from a PostgreSQL backend into a DataFusion
worker process. The two processes exchange messages through fixed-size
shared-memory slots. Each message is a six-byte header followed by a
MessagePack payload:

- the header holds direction, packet kind, flag and a u16 payload length;
- the payload is the query text (Parse), the bound parameters (Bind), an
  error message (Failure), the tables a query names (Metadata sent to the
  backend), or the column descriptions of those tables (Metadata sent to the
  worker).

This project models `src/protocol.rs`:

- the tag codecs and the header codec;
- each `prepare_*` writer and each `read_*` reader;
- the C-string and table-reference encoders, and `serialize_table`;
- the `send_*` entry points, reduced to "prepare, then signal".

A slot is a byte sequence of capacity DATA_SIZE with a cursor
(`Stream.SlotStream`). Every operation is a pure function from the old slot
to an `Outcome`, which is either `Done(value, slot)` or `Fail(error, slot)`.
A failure therefore keeps the bytes that had been written before it.

Modules follow the structure of the source:

| module | file | what it holds |
|---|---|---|
| `Bytes`, `Utf8` | bytes.dfy, utf8.dfy | byte and integer widths, big-endian, well-formed UTF-8 (Rust `&str`) |
| `Stream` | stream.dfy | the slot cursor: `reset`, `position`, `write_bytes`, `look_ahead`, `rewind` |
| `MsgPack` | msgpack.dfy | the rmp primitives the protocol uses, with their round trips |
| `Tags`, `Framing` | tags.dfy, header.dfy | `Direction`, `Packet`, `Flag`, `Header`, `write_header`, `consume_header` |
| `Items`, `Deferred` | items.dfy, deferred.dfy | the element loops, and the placeholder-header writer shared by three senders |
| `Parse`, `Failure`, `Bind`, `TableRefs`, `Metadata` | parse.dfy … metadata.dfy | one module per packet |
| `Send` | send.dfy | the `send_*` wrappers |

Every writer is paired with a reader:

- for Parse, Bind and Failure, the reader is the source's own reader;
- for both Metadata messages, the reader is a reference reader that
  performs the reads of the source's tests (`src/protocol.rs:511-533` and
  `src/protocol.rs:556-587`).

A round-trip lemma connects each pair: after a successful prepare,
`reset` and `consume_header` return the header, and the reader returns what
was written.

Two behaviours of the source are modelled as written and stated as lemmas:

- **Declared length of Parse and Failure.** `prepare_query` and
  `prepare_error` declare 2 + len as the payload length. The str header
  takes 1, 2 or 3 bytes, so that declaration is one too many, exact, or one
  too few (`Parse.DeclaredLengthVersusWritten`). A query of 256 bytes or
  more whose declared length is exactly the payload capacity passes the
  size check and then overflows the slot (`Parse.QueryAtCapacityOverflows`).
- **Recipient of the table references.** `send_table_refs` signals the
  worker, although its header is addressed to the backend
  (`Send.TableRefsSignalDisagrees`).

## Model

| member | source | states |
|---|---|---|
| Tags.DirectionFrom | src/protocol.rs:25-39 | Accepts exactly the bytes 0 and 1, and each accepted byte is the encoding of the tag returned. Any other byte below 128 fails with Deserialize("direction", byte). |
| Tags.PacketFrom | src/protocol.rs:52-66 | Accepts exactly the bytes 0 to 4, and inverts the packet's byte. Any other byte below 128 fails with Deserialize("packet", byte). |
| Tags.FlagFrom | src/protocol.rs:76-87 | Accepts exactly 0 and 1, and inverts the flag's byte. Any other byte below 128 fails with Deserialize("flag", byte). |
| Tags.TagsRoundTrip | src/protocol.rs:17-87 | For every tag, `try_from(t as u8)` gives back `t`. |
| Tags.TagBytesInjective | src/protocol.rs:17-74 | Distinct tags of the same kind have distinct bytes. |
| Framing.PayloadMaxSize | src/protocol.rs:97-106 | `payload_max_size()` plus the bytes any header encodes to is exactly the slot capacity: a payload of that size fills the slot behind the header. |
| Framing.WriteHeader | src/protocol.rs:136-142 | Writes exactly direction, packet and flag as positive fixints, then the length as a uint 16. It succeeds iff the six bytes fit, and then the slot holds them at the old cursor. |
| Framing.ConsumeHeader | src/protocol.rs:122-134 | On success, the first six bytes are the encoding of the header returned, and the cursor is at 6. An out-of-range direction, packet or flag fails with Deserialize naming that field, just past the bad byte. A byte of 128 or more in any of the three tag positions fails as a type mismatch, just past that byte. |
| Framing.HeaderRoundTrip | src/protocol.rs:122-142 | `consume_header` on the bytes `write_header` produces returns that header and leaves the cursor at 6. |
| Framing.WriteThenConsume | src/protocol.rs:405-422 | For any header and any slot: write at position 0, reset, then consume returns the same header. The bytes after the header are untouched. |
| Framing.WriteStrPacket | src/protocol.rs:165-173 | A header followed by a str succeeds iff 6 bytes plus the str encoding fit. It can fail only with BufferFull. On success the slot is framed with that header and str. |
| Parse.PrepareQuery | src/protocol.rs:158-174 | Fails with PayloadTooLarge(len), after only the reset, iff 2 + len exceeds DATA_SIZE - 6. Otherwise it succeeds iff the header and str fit, else fails with BufferFull. On success the slot is framed with {ToWorker, Parse, Last, (2 + len) as u16} and the str. |
| Parse.ReadQueryDecodes | src/protocol.rs:151-156 | At a str encoding, `read_query` returns the text and its length. The cursor is left at the first byte of the text. |
| Parse.QueryRoundTrip | src/protocol.rs:151-174 | After a successful `prepare_query`, reset and `consume_header` give the header written, and `read_query` gives back the query and its length. |
| Parse.DeclaredLengthExact | src/protocol.rs:161-168 | With DATA_SIZE at most 65541, the `as u16` of a successful send does not truncate: the header declares exactly 2 + len. |
| Parse.DeclaredLengthVersusWritten | src/protocol.rs:160-161 | The declared 2 + len exceeds the bytes written by one below 32 bytes of text, equals them from 32 to 255, and falls one short from 256 to 65535. |
| Parse.QueryAtCapacityOverflows | src/protocol.rs:161-173 | A query of 256 to 65535 bytes whose 2 + len equals the payload capacity passes the size check, but fails with BufferFull. |
| Parse.ShortQueryRoundTrip | src/protocol.rs:424-442 | For a query under 32 bytes that fits, the header length is 2 + len, and `read_query` finds the query one byte after the header. |
| Failure.PrepareError | src/protocol.rs:242-254 | Fails with IntConversion iff the length does not fit a u32. Otherwise it succeeds iff the header and str fit, else fails with BufferFull. On success the slot is framed with {ToBackend, Failure, Last, (2 + len as u32) as u16} and the str. |
| Failure.ErrorLengthWraps | src/protocol.rs:244-248 | The declared length is 2 + len modulo 2^16. It is exact below 65534 bytes and wraps to 0 at 65534, because there is no size check. |
| Failure.ReadErrorDecodes | src/protocol.rs:235-240 | At a str encoding, `read_error` returns the text. |
| Failure.ErrorRoundTrip | src/protocol.rs:235-254 | After a successful `prepare_error`, the header and the message read back unchanged. |
| Failure.ShortErrorRoundTrip | src/protocol.rs:475-492 | For a message under 32 bytes that fits, the header length is 2 + len, and `read_error` returns the message. |
| Deferred.BeginDeferred | src/protocol.rs:187-191 | Reset, then the placeholder `Header::default()` is written, which cannot fail. The cursor ends at 6 and the bytes after the header are untouched. |
| Deferred.FinishDeferred | src/protocol.rs:197-208 | Fails with IntConversion iff the measured length does not fit a u16. Otherwise it writes the real header with that length over the placeholder and moves the cursor to the end of the payload. |
| Deferred.DeferredWrite | src/protocol.rs:186-209 | A deferred write succeeds iff the payload encodes, fits and is shorter than 2^16 bytes. It then frames the measured length with the payload bytes, leaving the rest of the slot untouched. A payload that fits but is too long fails with IntConversion. |
| Deferred.PrepareArray | src/protocol.rs:186-209 | The shared prepare shape meets the deferred-write promise for the array payload. A failed count conversion fails right after the placeholder. |
| Items.EncAll | src/protocol.rs:193-196 | The loop's bytes exist iff every element encodes. A failure carries the error of a failing element. |
| Items.WriteAll | src/protocol.rs:193-196 | A loop of element writes emits the concatenated encodings. It fails with the first element's error, or with BufferFull once the slot is full. |
| Items.WriteArray | src/protocol.rs:192-196 | Writes the array length, then the elements. A failed count conversion fails before anything is written. |
| Items.ReadAllRoundTrip | src/protocol.rs:211-219 | If the element reader inverts the element encoder, reading n elements from n encodings gives the n views back in order. |
| Items.ReadArrayRoundTrip | src/protocol.rs:211-219 | The same for an array: its length, then the elements. |
| Bind.PrepareParams | src/protocol.rs:186-209 | Header {ToWorker, Bind, Last, measured length} over the array of converted and encoded parameters. It succeeds iff every parameter converts and encodes and the payload fits a u16 and the slot. |
| Bind.ReadParams | src/protocol.rs:211-219 | On success it returns as many values as the array header declares. |
| Bind.ReadParamsDecodes | src/protocol.rs:211-219 | At the parameter array, `read_params` returns the converted parameters. |
| Bind.ParamsRoundTrip | src/protocol.rs:444-473 | After a successful `prepare_params`, the header reads back, and `read_params` returns every parameter's scalar in order, provided the scalar reader inverts the scalar writer. |
| Bind.WriteParamWrites | src/protocol.rs:193-196 | One iteration, `datum_to_scalar` then `write_scalar_value`, emits the composed encoding. A conversion failure writes nothing. |
| TableRefs.WriteCStr | src/protocol.rs:264-271 | Fails with IntConversion for a string too long for a u32, before writing anything. Otherwise it emits a bin header for `len + 1`, the bytes, and a 0. |
| TableRefs.CStrShape | src/protocol.rs:264-271 | Below 2^32 - 1 bytes, a C string is a bin whose contents are the bytes followed by a 0. |
| TableRefs.CStrLengthWraps | src/protocol.rs:266-267 | At 2^32 - 1 bytes, the u32 `len + 1` wraps, and the bin header claims length 0. |
| TableRefs.WriteTableRef | src/protocol.rs:281-294 | A Bare reference is written as [table]. A Partial or Full reference is written as [schema, table]; the catalog is dropped. |
| TableRefs.PrepareTableRefs | src/protocol.rs:296-321 | A deferred write of {ToBackend, Metadata, Last} over the array of references. A count that is not a u32 fails right after the placeholder. |
| TableRefs.ReadCStrDecodes | src/protocol.rs:517-521 | bin length, `look_ahead`, then `rewind` return the string with its 0 byte and step past it. |
| TableRefs.ReadTableRefDecodes | src/protocol.rs:511-533 | The reference reader returns the null-terminated strings of each reference. |
| TableRefs.TableRefsRoundTrip | src/protocol.rs:494-533 | After a successful `prepare_table_refs`, the header reads back, and so do all references in order. |
| TableRefs.TestRefSizes | src/protocol.rs:501-502 | With six-byte names, a bare reference takes 10 bytes and a partial one 19. |
| TableRefs.TwoRefsRoundTrip | src/protocol.rs:494-533 | The test's shape for any six-byte names in a slot of 36 bytes or more: header length 30, and the reader returns [[t1\0], [schema\0, t2\0]]. |
| Metadata.Live | src/protocol.rs:341-346 | The non-dropped attributes, in order: an attribute is kept iff it is present and not dropped. |
| Metadata.LiveAppend | src/protocol.rs:344-347 | Filtering dropped attributes distributes over concatenation. |
| Metadata.WriteAttribute | src/protocol.rs:345-355 | A dropped attribute writes nothing. A type with no encoded type fails with the mapping's error before anything is written for that attribute. Otherwise the attribute is written as [name as str, etype as u8, !attnotnull as bool]. |
| Metadata.EncodeLiveOnly | src/protocol.rs:344-356 | Encoding all attributes while skipping dropped ones is encoding the live ones. |
| Metadata.SerializeTable | src/protocol.rs:337-357 | The oid as u32, then an array of the live-attribute count and the live triples. A live count that is not a u32 fails before anything is written. |
| Metadata.PrepareMetadata | src/protocol.rs:359-381 | A deferred write of {ToWorker, Metadata, Last} over the array of tables. It succeeds iff every live attribute's type maps and the payload fits a u16 and the slot. |
| Metadata.ReadAttributeDecodes | src/protocol.rs:565-575 | Reading a 3-element array (str, u8, bool) returns the name, the encoded type and the nullable flag. |
| Metadata.ReadTableDecodes | src/protocol.rs:560-587 | The oid, then exactly the live attributes in order. |
| Metadata.ReadMetadataDecodes | src/protocol.rs:556-587 | At the payload, the reader returns one description per relation. |
| Metadata.MetadataRoundTrip | src/protocol.rs:536-587 | After a successful `prepare_metadata`, the header reads back, and each relation reads back with its oid and its live attributes. |
| Metadata.TablesFitU32 | src/protocol.rs:365 | When the payload fits a u16, the `as u32` of the relation count cannot truncate. |
| Metadata.UnmappedTypeFails | src/protocol.rs:348 | One live attribute with no encoded type makes `prepare_metadata` fail. |
| Send.SendQuery | src/protocol.rs:176-183 | Signals iff the query passed the size check and fit. The recipient is the direction in the header written. Otherwise the error is PayloadTooLarge or BufferFull. |
| Send.SendParams | src/protocol.rs:221-232 | Signals iff the Bind message was framed. The recipient is the header's direction. |
| Send.SendError | src/protocol.rs:256-262 | Signals iff the Failure message fit. The recipient is the header's direction. |
| Send.SendTableRefs | src/protocol.rs:323-335 | Signals iff the references were framed. The recipient is ToWorker while the header says ToBackend. |
| Send.SendMetadata | src/protocol.rs:383-394 | Signals iff the descriptions were framed. The recipient is the header's direction. |
| Send.QuerySignalMatchesHeader | src/protocol.rs:176-183 | The direction a reader decodes from the Parse header is the direction signalled. |
| Send.ErrorSignalMatchesHeader | src/protocol.rs:256-262 | The same for Failure. |
| Send.ParamsSignalMatchesHeader | src/protocol.rs:221-232 | The same for Bind. |
| Send.MetadataSignalMatchesHeader | src/protocol.rs:383-394 | The same for the metadata response. |
| Send.TableRefsSignalDisagrees | src/protocol.rs:323-335 | A successful `send_table_refs` wakes the worker, yet a reader of the slot decodes a header addressed to the backend. |

## Left out

- `signal` itself is left out, as are `ProcSendSignal`, `worker_id()` and the `Bus` owner lookup (src/protocol.rs:108-118). These are process signalling and shared-memory directory lookups. A send returns the direction it would pass to `signal`.
- Slot locking and the release guard (`Slot::from(stream)`) are not modelled. A send returns the slot as written.
- The relation catalog is not modelled: `PgRelation::with_lock` and its tuple descriptor become an input `Relation` holding the oid and the attributes in attribute order.
- The data-type layer (`datum_to_scalar`, `write_scalar_value`, `read_scalar_value` and `EncodedType::try_from`) enters as function parameters. The round trips assume only that the scalar reader inverts the scalar writer.
- The value of DATA_SIZE is not part of this model. It comes from `crate::ipc`, which is not shown. The slot is any buffer of at least 6 bytes, which makes the `u16::try_from` failure of the deferred writers reachable. The bound DATA_SIZE <= 65541 appears only as the hypothesis of `Parse.DeclaredLengthExact`; under it, the `as u16` in `prepare_query` cannot truncate.
- rmp's partial writes are not modelled. Each rmp primitive is one write of its whole encoding, so on overflow the model writes nothing of that primitive, where rmp may write its marker.
- Items.ReadAllRoundTrip: stated for element encodings shorter than 2^16 bytes. A message payload never exceeds that, since its length must fit the header's u16.
- Failure.PrepareError: the u32 addition `1 + 1 + len` is modelled as wrapping, as in a release build (`Failure.ErrorLength`). A debug build panics there for a message of 2^32 - 2 or 2^32 - 1 bytes.
- TableRefs.WriteCStr: the u32 `len + 1` is modelled as wrapping, as in a release build. A debug build panics there instead.
- Metadata.PrepareMetadata: `rel_oids.len() as u32` is modelled as the truncation it is. A successful send cannot reach it (`Metadata.TablesFitU32`).
- The `pg_test` functions and their concrete SQL fixtures are not modelled: the catalog, the `EncodedType` values and the 8204-byte slot. The tests are generalised over the names, the slot size and the type mapping: `Parse.ShortQueryRoundTrip`, `Failure.ShortErrorRoundTrip`, `TableRefs.TwoRefsRoundTrip` and `Metadata.MetadataRoundTrip`.
- `read_query`'s borrowed `&str` and `read_error`'s owned `String` are both modelled as the bytes of the text. UTF-8 validation is modelled (`Utf8.FromUtf8`).
- The `assert!(value < 128)` in the tag decoders is a precondition of the tag functions. `read_pfix` cannot return 128 or more.
