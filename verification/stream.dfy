/**
  The slot stream: a fixed-capacity shared-memory byte buffer with a cursor,
  as the external IPC layer hands it to the protocol. Every stream operation
  is a pure function from the old state to an `Outcome` that carries the new
  state, whether the operation succeeded or not, so a failed send still shows
  what it left in the slot.
 */
module Stream {
  import opened Bytes

  /** A slot always has room for at least one header: DATA_SIZE - 6 is a usize constant. */
  const MIN_CAPACITY: nat := 6

  datatype StreamState = StreamState(buf: seq<byte>, pos: nat)

  /** A cursor over the slot's data area; `|buf|` is the slot capacity DATA_SIZE. */
  type SlotStream = s: StreamState | MIN_CAPACITY <= |s.buf| && s.pos <= |s.buf|
    witness StreamState([0, 0, 0, 0, 0, 0], 0)

  /** The protocol's error kinds, plus the failures of the stream and MessagePack layers. */
  datatype Error =
    | Deserialize(field: string, value: int)  // tag byte out of range
    | PayloadTooLarge(size: nat)              // query longer than the slot allows
    | IntConversion                           // a usize/u32 `try_from` failed
    | BufferFull                              // the stream has no room for a write
    | UnexpectedEof                           // a read ran past the end of the slot
    | TypeMismatch(marker: byte)              // a MessagePack marker of the wrong family
    | InvalidUtf8                             // `from_utf8` rejected the bytes
    | UnexpectedLength(found: nat)            // a reference reader found an array of the wrong arity
    | External(code: int)                     // raised by a collaborator (scalar codec, type mapping)

  datatype Result<+T> = Ok(value: T) | Err(error: Error) {
    predicate IsFailure() {
      Err?
    }

    function PropagateFailure<U>(): Result<U>
      requires Err?
    {
      Err(error)
    }

    function Extract(): T
      requires Ok?
    {
      value
    }
  }

  /** The result of a stream operation together with the stream state it leaves behind. */
  datatype Outcome<+T> = Done(value: T, slot: SlotStream) | Fail(error: Error, slot: SlotStream) {
    predicate IsFailure() {
      Fail?
    }

    function PropagateFailure<U>(): Outcome<U>
      requires Fail?
    {
      Fail(error, slot)
    }

    /** The value read and the stream state after it, for `var x :- ...; ... x.value ... x.slot`. */
    function Extract(): Step<T>
      requires Done?
    {
      Step(value, slot)
    }
  }

  /** One successful step: what it produced and where it left the stream. */
  datatype Step<+T> = Step(value: T, slot: SlotStream)

  /** Lifts a pure result into a stream outcome that leaves `s` where it is. */
  function Lift<T>(res: Result<T>, s: SlotStream): (r: Outcome<T>)
    ensures r.slot == s
    ensures r.Done? <==> res.Ok?
    ensures res.Ok? ==> r.value == res.value
    ensures res.Err? ==> r.error == res.error
  {
    match res
    case Ok(v) => Done(v, s)
    case Err(e) => Fail(e, s)
  }

  function Capacity(s: SlotStream): nat {
    |s.buf|
  }

  function Position(s: SlotStream): nat {
    s.pos
  }

  /** Moves the cursor back to the start of the slot; the bytes stay. */
  function Reset(s: SlotStream): (r: SlotStream)
    ensures r.pos == 0 && r.buf == s.buf
  {
    s.(pos := 0)
  }

  /** There are `n` more bytes between the cursor and the end of the slot. */
  predicate Fits(s: SlotStream, n: nat) {
    s.pos + n <= |s.buf|
  }

  function Skip(s: SlotStream, n: nat): (r: SlotStream)
    requires Fits(s, n)
    ensures r.buf == s.buf && r.pos == s.pos + n
  {
    s.(pos := s.pos + n)
  }

  /** The state after copying `b` to the cursor and moving past it. */
  function Put(s: SlotStream, b: seq<byte>): (r: SlotStream)
    requires Fits(s, |b|)
    ensures |r.buf| == |s.buf| && r.pos == s.pos + |b|
    ensures r.buf[s.pos..r.pos] == b
    ensures r.buf[..s.pos] == s.buf[..s.pos]
    ensures r.buf[r.pos..] == s.buf[r.pos..]
  {
    var buf := s.buf[..s.pos] + b + s.buf[s.pos + |b|..];
    assert buf[s.pos..s.pos + |b|] == b;
    StreamState(buf, s.pos + |b|)
  }

  /** `write_bytes`: copies `b` into the slot, or fails when the slot has no room for it. */
  function Write(s: SlotStream, b: seq<byte>): (r: Outcome<()>)
    ensures Emits(s, r, b)
    ensures r.Fail? ==> r == Fail(BufferFull, s)
  {
    if Fits(s, |b|) then Done((), Put(s, b)) else Fail(BufferFull, s)
  }

  /** `r` is the outcome of writing exactly `b` at the cursor of `s`; it can only fail for want of room. */
  predicate Emits(s: SlotStream, r: Outcome<()>, b: seq<byte>) {
    && (r.Done? <==> Fits(s, |b|))
    && (r.Done? ==> Fits(s, |b|) && r.slot == Put(s, b))
    && (r.Fail? ==> r.error == BufferFull)
  }

  /** The `?` after a write: the next write runs only when the previous one succeeded. */
  function AndWrite(r: Outcome<()>, b: seq<byte>): Outcome<()> {
    if r.Fail? then r else Write(r.slot, b)
  }

  /** `r` is the outcome of a write whose bytes are computed by `enc`, which may itself fail. */
  predicate EmitsResult(s: SlotStream, r: Outcome<()>, enc: Result<seq<byte>>) {
    && (enc.Err? ==> r.Fail? && (r.error == BufferFull || r.error == enc.error))
    && (enc.Ok? ==> Emits(s, r, enc.value))
  }

  /** Reads `n` bytes and moves past them. */
  function ReadBytes(s: SlotStream, n: nat): (r: Outcome<seq<byte>>)
    ensures r.Done? <==> Fits(s, n)
    ensures r.Done? ==> Fits(s, n) && r.value == s.buf[s.pos..s.pos + n] && r.slot == Skip(s, n)
  {
    if Fits(s, n) then Done(s.buf[s.pos..s.pos + n], Skip(s, n)) else Fail(UnexpectedEof, s)
  }

  /** `look_ahead(n)`: the next `n` bytes, without moving the cursor. */
  function LookAhead(s: SlotStream, n: nat): (r: Outcome<seq<byte>>)
    ensures r.slot == s
    ensures r.Done? <==> Fits(s, n)
    ensures r.Done? ==> Fits(s, n) && r.value == s.buf[s.pos..s.pos + n]
  {
    if Fits(s, n) then Done(s.buf[s.pos..s.pos + n], s) else Fail(UnexpectedEof, s)
  }

  /** `rewind(n)`: despite its name, moves the cursor `n` bytes forward without reading. */
  function Rewind(s: SlotStream, n: nat): (r: Outcome<()>)
    ensures r.Done? <==> Fits(s, n)
    ensures r.Done? ==> Fits(s, n) && r.slot == Skip(s, n)
    ensures r.Fail? ==> r.slot == s
  {
    if Fits(s, n) then Done((), Skip(s, n)) else Fail(UnexpectedEof, s)
  }

  /** The bytes at the cursor of `s` are exactly `b`. */
  predicate At(s: SlotStream, b: seq<byte>) {
    Fits(s, |b|) && s.buf[s.pos..s.pos + |b|] == b
  }

  // Lemmas relating writes to each other and to reads.

  /** Two consecutive writes are one write of the concatenation. */
  lemma PutPut(s: SlotStream, a: seq<byte>, b: seq<byte>)
    requires Fits(s, |a| + |b|)
    ensures Fits(Put(s, a), |b|)
    ensures Put(Put(s, a), b) == Put(s, a + b)
  {
    var t := Put(Put(s, a), b);
    var u := Put(s, a + b);
    assert t.buf == s.buf[..s.pos] + a + b + s.buf[s.pos + |a| + |b|..] by {
      var p := Put(s, a);
      assert p.buf == s.buf[..s.pos] + a + s.buf[s.pos + |a|..];
    }
    assert t.buf == u.buf;
  }

  /** A write of `a` followed by a write of `b` behaves as one write of `a + b`. */
  lemma EmitsSeq(s: SlotStream, r1: Outcome<()>, a: seq<byte>, r2: Outcome<()>, b: seq<byte>, r: Outcome<()>)
    requires Emits(s, r1, a)
    requires r1.Done? ==> Emits(r1.slot, r2, b)
    requires r == (if r1.Fail? then r1 else r2)
    ensures Emits(s, r, a + b)
  {
    if Fits(s, |a| + |b|) {
      PutPut(s, a, b);
    }
  }

  /** Following a write of `a` with a write of `b` writes `a + b`. */
  lemma AndWriteEmits(s: SlotStream, r: Outcome<()>, a: seq<byte>, b: seq<byte>)
    requires Emits(s, r, a)
    ensures Emits(s, AndWrite(r, b), a + b)
  {
    EmitsSeq(s, r, a, AndWrite(r, b), b, AndWrite(r, b));
  }

  /** Two fallible encodings one after the other; the first failure is the result. */
  function Join(a: Result<seq<byte>>, b: Result<seq<byte>>): (r: Result<seq<byte>>)
    ensures r.Ok? <==> a.Ok? && b.Ok?
    ensures r.Ok? ==> r.value == a.value + b.value
    ensures r.Err? ==> r.error == (if a.Err? then a.error else b.error)
  {
    if a.Err? then a else if b.Err? then b else Ok(a.value + b.value)
  }

  /** The same, for writes whose bytes come from fallible encodings. */
  lemma EmitsResultSeq(s: SlotStream, r1: Outcome<()>, a: Result<seq<byte>>, r2: Outcome<()>, b: Result<seq<byte>>, r: Outcome<()>)
    requires EmitsResult(s, r1, a)
    requires r1.Done? ==> EmitsResult(r1.slot, r2, b)
    requires r == (if r1.Fail? then r1 else r2)
    ensures EmitsResult(s, r, Join(a, b))
  {
    if a.Ok? && b.Ok? {
      EmitsSeq(s, r1, a.value, r2, b.value, r);
    }
  }

  /** Sequences that agree from index `i` on agree on every slice that starts later. */
  lemma SuffixSlices(a: seq<byte>, b: seq<byte>, i: nat, j: nat)
    requires i <= j <= |a| && |a| == |b| && a[i..] == b[i..]
    ensures a[i..j] == b[i..j] && a[j..] == b[j..]
  {
    assert a[i..j] == a[i..][..j - i];
    assert b[i..j] == b[i..][..j - i];
    assert a[j..] == a[i..][j - i..];
    assert b[j..] == b[i..][j - i..];
  }

  /** Bytes at the cursor split into their prefix here and their suffix further on. */
  lemma AtSplit(s: SlotStream, a: seq<byte>, b: seq<byte>)
    requires At(s, a + b)
    ensures At(s, a) && Fits(s, |a|) && At(Skip(s, |a|), b)
  {
    assert s.buf[s.pos..s.pos + |a|] == (a + b)[..|a|];
    assert s.buf[s.pos + |a|..s.pos + |a| + |b|] == (a + b)[|a|..];
  }

  /** Adjacent byte runs at the cursor join into one. */
  lemma AtJoin(s: SlotStream, a: seq<byte>, b: seq<byte>)
    requires At(s, a) && At(Skip(s, |a|), b)
    ensures At(s, a + b)
  {
    assert s.buf[s.pos..s.pos + |a| + |b|] == s.buf[s.pos..s.pos + |a|] + s.buf[s.pos + |a|..s.pos + |a| + |b|];
  }

  /** What was written at the cursor is there to be read from the same position. */
  lemma AtAfterPut(s: SlotStream, b: seq<byte>)
    requires Fits(s, |b|)
    ensures At(Put(s, b).(pos := s.pos), b)
  {
  }
}
