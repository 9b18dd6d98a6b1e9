/**
  Lists written item by item: the `for` loops of the senders, which write
  one encoding per element and stop at the first failure, and the loops of
  the readers, which read a counted number of elements.
 */
module Items {
  import opened Bytes
  import opened Stream
  import opened MsgPack

  /** Feeds a successful result into the next fallible step (the `?` between two calls). */
  function Then<A, B>(r: Result<A>, f: A -> Result<B>): (q: Result<B>)
    ensures q.Ok? <==> r.Ok? && f(r.value).Ok?
    ensures q.Ok? ==> q.value == f(r.value).value
  {
    if r.Err? then Err(r.error) else f(r.value)
  }

  /** Applies a fallible conversion to every element; the first failure is the result. */
  function MapAll<A, B>(xs: seq<A>, f: A -> Result<B>): (r: Result<seq<B>>)
    ensures r.Ok? <==> forall i :: 0 <= i < |xs| ==> f(xs[i]).Ok?
    ensures r.Ok? ==> |r.value| == |xs| && forall i :: 0 <= i < |xs| ==> r.value[i] == f(xs[i]).value
    ensures r.Err? ==> exists i :: 0 <= i < |xs| && f(xs[i]).Err? && r.error == f(xs[i]).error
  {
    if |xs| == 0 then Ok([])
    else
      var head := f(xs[0]);
      if head.Err? then Err(head.error)
      else
        var tail := MapAll(xs[1..], f);
        if tail.Err? then
          assert forall i :: 0 <= i < |xs[1..]| ==> xs[1..][i] == xs[i + 1];
          Err(tail.error)
        else
          assert forall i :: 1 <= i < |xs| ==> xs[i] == xs[1..][i - 1];
          Ok([head.value] + tail.value)
  }

  /** The bytes of all elements, one encoding after another; the first failing encoding is the result. */
  function EncAll<T>(xs: seq<T>, enc: T -> Result<seq<byte>>): (r: Result<seq<byte>>)
    ensures r.Ok? <==> forall i :: 0 <= i < |xs| ==> enc(xs[i]).Ok?
    ensures r.Err? ==> exists i :: 0 <= i < |xs| && enc(xs[i]).Err? && r.error == enc(xs[i]).error
  {
    if |xs| == 0 then Ok([])
    else
      var head := enc(xs[0]);
      if head.Err? then Err(head.error)
      else
        var tail := EncAll(xs[1..], enc);
        if tail.Err? then
          assert forall i :: 0 <= i < |xs[1..]| ==> xs[1..][i] == xs[i + 1];
          Err(tail.error)
        else
          assert forall i :: 1 <= i < |xs| ==> xs[i] == xs[1..][i - 1];
          Ok(head.value + tail.value)
  }

  /** A conversion followed by an encoding, as one fallible encoder. */
  function Compose<A, B>(f: A -> Result<B>, enc: B -> Result<seq<byte>>): A -> Result<seq<byte>> {
    x => Then(f(x), enc)
  }

  /**
    Encoding each element through a conversion is encoding the converted
    elements: when the composed encoding succeeds, every conversion does, and
    the bytes are those of the converted sequence.
   */
  lemma {:induction false} EncAllCompose<A, B>(xs: seq<A>, f: A -> Result<B>, enc: B -> Result<seq<byte>>)
    requires EncAll(xs, Compose(f, enc)).Ok?
    ensures MapAll(xs, f).Ok?
    ensures EncAll(MapAll(xs, f).value, enc) == EncAll(xs, Compose(f, enc))
    decreases |xs|
  {
    if |xs| > 0 {
      assert Compose(f, enc)(xs[0]).Ok?;
      EncAllCompose(xs[1..], f, enc);
      var ys := MapAll(xs, f).value;
      assert ys == [f(xs[0]).value] + MapAll(xs[1..], f).value;
      assert ys[1..] == MapAll(xs[1..], f).value;
    }
  }

  /** Writes bytes that an encoder may have failed to produce; a failed encoding writes nothing. */
  function WriteEncoded(s: SlotStream, enc: Result<seq<byte>>): (r: Outcome<()>)
    ensures EmitsResult(s, r, enc)
    ensures enc.Err? ==> r == Fail(enc.error, s)
  {
    if enc.Err? then Fail(enc.error, s) else Write(s, enc.value)
  }

  /** `write` writes exactly the encoding `enc` gives, wherever the cursor is. */
  ghost predicate Writes<T(!new)>(write: (SlotStream, T) -> Outcome<()>, enc: T -> Result<seq<byte>>) {
    forall u: SlotStream, x: T :: EmitsResult(u, write(u, x), enc(x))
  }

  /**
    The `for` loop of a sender: `write` for each element in order, stopping
    at the first failure; together the writes emit the concatenated encodings.
   */
  function WriteAll<T(!new)>(s: SlotStream, xs: seq<T>, write: (SlotStream, T) -> Outcome<()>,
                             enc: T -> Result<seq<byte>>): (r: Outcome<()>)
    requires Writes(write, enc)
    ensures EmitsResult(s, r, EncAll(xs, enc))
    decreases |xs|
  {
    if |xs| == 0 then Done((), s)
    else
      var w := write(s, xs[0]);
      var rest := if w.Fail? then w else WriteAll(w.slot, xs[1..], write, enc);
      EmitsResultSeq(s, w, enc(xs[0]), rest, EncAll(xs[1..], enc), rest);
      rest
  }

  /** `u32::try_from(n)`: fails with `IntConversion` from 2^32 on. */
  function TryU32(n: nat): (r: Result<u32>)
    ensures r.Ok? <==> n < U32_LIMIT
    ensures r.Ok? ==> r.value == n
    ensures r.Err? ==> r.error == IntConversion
  {
    if n < U32_LIMIT then Ok(n) else Err(IntConversion)
  }

  /** A MessagePack array: the header for `count`, then the elements' encodings. */
  function ArrayPayload<T>(count: Result<u32>, xs: seq<T>, enc: T -> Result<seq<byte>>): Result<seq<byte>> {
    if count.Err? then Err(count.error) else Join(Ok(EncArrayLen(count.value)), EncAll(xs, enc))
  }

  /**
    `write_array_len(count?)` and then the `for` loop over the elements: a
    failed count fails before anything is written, and otherwise the writes
    emit the array's header and elements.
   */
  function WriteArray<T(!new)>(s: SlotStream, count: Result<u32>, xs: seq<T>,
                               write: (SlotStream, T) -> Outcome<()>, enc: T -> Result<seq<byte>>): (r: Outcome<()>)
    requires Writes(write, enc)
    ensures EmitsResult(s, r, ArrayPayload(count, xs, enc))
    ensures count.Err? ==> r == Fail(count.error, s)
  {
    if count.Err? then Fail(count.error, s)
    else
      var a := WriteArrayLen(s, count.value);
      var r := if a.Fail? then a else WriteAll(a.slot, xs, write, enc);
      EmitsResultSeq(s, a, Ok(EncArrayLen(count.value)), r, EncAll(xs, enc), r);
      r
  }

  /** The `for _ in 0..len` loop of a reader: `n` elements, stopping at the first failure. */
  function ReadAll<V>(s: SlotStream, n: nat, read: SlotStream -> Outcome<V>): (r: Outcome<seq<V>>)
    ensures r.Done? ==> |r.value| == n
    decreases n
  {
    if n == 0 then Done([], s)
    else
      var head :- read(s);
      var tail :- ReadAll(head.slot, n - 1, read);
      Done([head.value] + tail.value, tail.slot)
  }

  /**
    `read` undoes `enc`, reporting each value through `view`: wherever the
    encoding of `x` lies at the cursor, `read` returns `view(x)` and moves
    past exactly that encoding. Only encodings a framed payload can hold,
    shorter than 2^16 bytes, are considered.
   */
  ghost predicate Decodes<X(!new), V>(read: SlotStream -> Outcome<V>, enc: X -> Result<seq<byte>>, view: X -> V) {
    forall u: SlotStream, x: X | enc(x).Ok? && |enc(x).value| < U16_LIMIT && At(u, enc(x).value) ::
      read(u) == Done(view(x), Skip(u, |enc(x).value|))
  }

  /** `view` applied to every element. */
  function MapView<X, V>(xs: seq<X>, view: X -> V): (r: seq<V>)
    ensures |r| == |xs| && forall i :: 0 <= i < |xs| ==> r[i] == view(xs[i])
  {
    seq(|xs|, i requires 0 <= i < |xs| => view(xs[i]))
  }

  /** Reading back what `WriteAll` wrote, with a reader that undoes each element's encoding. */
  lemma {:induction false} ReadAllRoundTrip<X(!new), V>(u: SlotStream, xs: seq<X>, enc: X -> Result<seq<byte>>,
                                                  read: SlotStream -> Outcome<V>, view: X -> V)
    requires Decodes(read, enc, view)
    requires EncAll(xs, enc).Ok? && |EncAll(xs, enc).value| < U16_LIMIT && At(u, EncAll(xs, enc).value)
    ensures ReadAll(u, |xs|, read) == Done(MapView(xs, view), Skip(u, |EncAll(xs, enc).value|))
    decreases |xs|
  {
    if |xs| > 0 {
      var head := enc(xs[0]).value;
      var tail := EncAll(xs[1..], enc).value;
      assert EncAll(xs, enc).value == head + tail;
      AtSplit(u, head, tail);
      var v := Skip(u, |head|);
      assert read(u) == Done(view(xs[0]), v);
      ReadAllRoundTrip(v, xs[1..], enc, read, view);
      assert MapView(xs, view) == [view(xs[0])] + MapView(xs[1..], view);
    }
  }

  /** The identity view: a reader that returns exactly what was encoded. */
  function Identity<V>(): V -> V {
    v => v
  }

  lemma MapViewIdentity<V>(vs: seq<V>)
    ensures MapView(vs, Identity()) == vs
  {
  }

  /** An array header, then as many elements as it announces. */
  function ReadArray<V>(s: SlotStream, read: SlotStream -> Outcome<V>): (r: Outcome<seq<V>>)
    ensures r.Done? ==> ReadArrayLen(s).Done? && |r.value| == ReadArrayLen(s).value
  {
    var len :- ReadArrayLen(s);
    ReadAll(len.slot, len.value, read)
  }

  /** Reading back an array written by `WriteArray` with its true element count. */
  lemma ReadArrayRoundTrip<X(!new), V>(u: SlotStream, xs: seq<X>, enc: X -> Result<seq<byte>>,
                                       read: SlotStream -> Outcome<V>, view: X -> V)
    requires Decodes(read, enc, view)
    requires |xs| < U32_LIMIT
    requires ArrayPayload(Ok(|xs|), xs, enc).Ok? && |ArrayPayload(Ok(|xs|), xs, enc).value| < U16_LIMIT
    requires At(u, ArrayPayload(Ok(|xs|), xs, enc).value)
    ensures ReadArray(u, read) == Done(MapView(xs, view), Skip(u, |ArrayPayload(Ok(|xs|), xs, enc).value|))
  {
    var items := EncAll(xs, enc).value;
    assert ArrayPayload(Ok(|xs|), xs, enc).value == EncArrayLen(|xs|) + items;
    AtSplit(u, EncArrayLen(|xs|), items);
    ReadArrayLenRoundTrip(u, |xs|);
    ReadAllRoundTrip(Skip(u, |EncArrayLen(|xs|)|), xs, enc, read, view);
  }

  /** When no element encodes to nothing, the encodings together take at least one byte per element. */
  lemma {:induction false} EncAllNonEmpty<T>(xs: seq<T>, enc: T -> Result<seq<byte>>)
    requires EncAll(xs, enc).Ok?
    requires forall x :: enc(x).Ok? ==> |enc(x).value| > 0
    ensures |EncAll(xs, enc).value| >= |xs|
    decreases |xs|
  {
    if |xs| > 0 {
      EncAllNonEmpty(xs[1..], enc);
    }
  }
}
