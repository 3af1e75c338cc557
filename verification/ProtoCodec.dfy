/**
 The message codec (src/core/codec/codec_proto.cpp) over the socket buffer: a protobuf
 header that is written and read as exactly 15 bytes, followed by a body.

 The header's bytes are modelled down to the wire format of its three fixed32 fields.
 Message bodies are byte strings; whether protobuf accepts one is a parameter, and so is
 what it makes of header fields that this system never writes.
 */
module ProtoCodec {
  import opened Common
  import opened SocketBuffer

  const HEAD_LEN := 15
  const TWO_31 := 0x8000_0000
  const TWO_32 := 0x1_0000_0000

  /** Wire tags of the fixed32 fields `cmd`, `seq` and `len`. */
  const TAG_CMD: Byte := 13
  const TAG_SEQ: Byte := 21
  const TAG_LEN: Byte := 29

  type U32 = x: int | 0 <= x < TWO_32
  type I32 = x: int | -TWO_31 <= x < TWO_31

  datatype Head = Head(cmd: U32, seqNo: U32, len: I32)
  datatype Msg = Msg(head: Head, body: seq<Byte>)

  /** What the model leaves to the protobuf library: `other` consumes a field that starts
      with any other byte, and `parses` accepts message bodies. */
  datatype Wire = Wire(other: (seq<Byte>, Head) -> Option<(nat, Head)>, parses: seq<Byte> -> bool)

  /** What a decode can come to. `Overrun`: the body is parsed although it has not arrived, from
      the `seen` bytes that have and from the memory behind them. */
  datatype Outcome = Ok(msg: Msg, used: nat) | Pause | Err | Overrun(seen: seq<Byte>)

  // ------------------------------------------------------------ the header

  function LittleEndian(x: U32): (b: seq<Byte>)
    ensures |b| == 4
  {
    var x1 := x / 256;
    var x2 := x1 / 256;
    [x % 256, x1 % 256, x2 % 256, x2 / 256]
  }

  function FromLittleEndian(b: seq<Byte>): (x: U32)
    requires |b| == 4
  {
    var x2: int := b[2] + 256 * (b[3] as int);
    b[0] + 256 * (b[1] + 256 * x2)
  }

  lemma LittleEndianRoundTrip(x: U32)
    ensures FromLittleEndian(LittleEndian(x)) == x
  {
  }

  function ToU32(x: I32): (r: U32) {
    if x < 0 then x + TWO_32 else x
  }

  function ToI32(x: U32): (r: I32) {
    if x < TWO_31 then x else x - TWO_32
  }

  /** Proto3 leaves out a field whose value is zero. */
  function Field(tag: Byte, v: U32): (b: seq<Byte>)
    ensures |b| == if v == 0 then 0 else 5
  {
    if v == 0 then [] else [tag] + LittleEndian(v)
  }

  function SerializeHead(h: Head): (b: seq<Byte>)
    ensures |b| <= HEAD_LEN && (|b| == HEAD_LEN <==> FullHead(h))
  {
    Field(TAG_CMD, h.cmd) + Field(TAG_SEQ, h.seqNo) + Field(TAG_LEN, ToU32(h.len))
  }

  predicate FullHead(h: Head) {
    h.cmd != 0 && h.seqNo != 0 && h.len != 0
  }

  /** The 15 bytes copied from the serialised string: if it is shorter, its terminating zero
      byte and whatever memory holds `after` it. */
  function HeadBytes(h: Head, after: seq<Byte>): (b: seq<Byte>)
    requires HEAD_LEN <= |after|
    ensures |b| == HEAD_LEN
  {
    (SerializeHead(h) + [0] + after)[..HEAD_LEN]
  }

  /** `ParseFromArray` of the header: fields in any order, a later one wins. */
  function ParseHead(b: seq<Byte>, acc: Head, wire: Wire): (r: Option<Head>)
    decreases |b|
  {
    if b == [] then Some(acc)
    else if b[0] == 0 then None
    else if b[0] in {TAG_CMD, TAG_SEQ, TAG_LEN} then
      if |b| < 5 then None else ParseHead(b[5..], SetField(acc, b[0], FromLittleEndian(b[1..5])), wire)
    else
      match wire.other(b, acc)
      case None => None
      case Some((n, h)) => if 0 < n <= |b| then ParseHead(b[n..], h, wire) else None
  }

  function SetField(h: Head, tag: Byte, v: U32): (r: Head) {
    if tag == TAG_CMD then h.(cmd := v)
    else if tag == TAG_SEQ then h.(seqNo := v)
    else h.(len := ToI32(v))
  }

  const NoHead := Head(0, 0, 0)

  /** Reading one written field, and what follows it: a field that was left out keeps its
      initial value. */
  lemma ParseField(tag: Byte, v: U32, rest: seq<Byte>, acc: Head, wire: Wire)
    requires tag in {TAG_CMD, TAG_SEQ, TAG_LEN} && SetField(acc, tag, 0) == acc
    ensures ParseHead(Field(tag, v) + rest, acc, wire) == ParseHead(rest, SetField(acc, tag, v), wire)
  {
    var b := Field(tag, v) + rest;
    if v == 0 {
      assert b == rest;
    } else {
      LittleEndianRoundTrip(v);
      assert b[1..5] == LittleEndian(v);
      assert b[5..] == rest;
    }
  }

  /** The fields of a header are read back one by one, and then the parser meets what
      follows the string. */
  lemma ParseSerialized(h: Head, rest: seq<Byte>, wire: Wire)
    ensures ParseHead(SerializeHead(h) + rest, NoHead, wire) == ParseHead(rest, h, wire)
  {
    var c, s, l := Field(TAG_CMD, h.cmd), Field(TAG_SEQ, h.seqNo), Field(TAG_LEN, ToU32(h.len));
    Regroup(c, s, l, rest);
    ParseField(TAG_CMD, h.cmd, s + (l + rest), NoHead, wire);
    ParseField(TAG_SEQ, h.seqNo, l + rest, Head(h.cmd, 0, 0), wire);
    ParseField(TAG_LEN, ToU32(h.len), rest, Head(h.cmd, h.seqNo, 0), wire);
  }

  lemma Regroup(a: seq<Byte>, b: seq<Byte>, c: seq<Byte>, d: seq<Byte>)
    ensures a + b + c + d == a + (b + (c + d))
  {
    assert a + b + c + d == a + (b + (c + d));
  }

  /** A header survives the 15-byte copy if and only if none of its fields is zero; a
      header with a zero field is always rejected, whatever memory follows the string. */
  lemma HeadRoundTrip(h: Head, after: seq<Byte>, wire: Wire)
    requires HEAD_LEN <= |after|
    ensures ParseHead(HeadBytes(h, after), NoHead, wire) == if FullHead(h) then Some(h) else None
  {
    var b := SerializeHead(h);
    if FullHead(h) {
      ParseSerialized(h, [], wire);
      assert b + [] == b == HeadBytes(h, after);
    } else {
      var rest := ([0] + after)[..HEAD_LEN - |b|];
      assert HeadBytes(h, after) == b + rest;
      ParseSerialized(h, rest, wire);
      assert rest[0] == 0;
    }
  }

  // -------------------------------------------------------------- messages

  /** The sum of header and body does not fit into an `int`. The comparison of the readable
      bytes with the wrapped sum is then false, however few they are. */
  predicate TooLong(h: Head) {
    TWO_31 <= HEAD_LEN + h.len
  }

  /** That is, the `int` sum is negative. */
  lemma TooLongWraps(h: Head)
    requires 0 < h.len
    ensures TooLong(h) <==> ToI32((HEAD_LEN + h.len) % TWO_32) < 0
  {
  }

  /** `CodecProto::decode` on the readable bytes. */
  function Decode(buf: seq<Byte>, wire: Wire): (r: Outcome)
    ensures r.Ok? ==> HEAD_LEN <= r.used <= |buf|
  {
    if |buf| < HEAD_LEN then Pause
    else
      match ParseHead(buf[..HEAD_LEN], NoHead, wire)
      case None => Err
      case Some(h) =>
        if h.len <= 0 then Ok(Msg(h, []), HEAD_LEN)
        else if TooLong(h) then Overrun(buf[HEAD_LEN..])
        else if |buf| < HEAD_LEN + h.len then Pause
        else
          var body := buf[HEAD_LEN..HEAD_LEN + h.len];
          if wire.parses(body) then Ok(Msg(h, body), HEAD_LEN + h.len) else Err
  }

  /** `CodecProto::encode`. */
  function Encode(m: Msg, after: seq<Byte>): (b: seq<Byte>)
    requires HEAD_LEN <= |after|
  {
    HeadBytes(m.head, after) + if m.head.len <= 0 then [] else m.body
  }

  /** A length that is not positive means no body: fifteen bytes are written whatever the body is, and
      read back as a message without one, except that a length of zero is never accepted. */
  lemma NoBodyRoundTrip(m: Msg, after: seq<Byte>, rest: seq<Byte>, wire: Wire)
    requires HEAD_LEN <= |after| && m.head.len <= 0
    ensures var b := Encode(m, after);
            && |b| == HEAD_LEN
            && Decode(b + rest, wire) == if FullHead(m.head) then Ok(Msg(m.head, []), HEAD_LEN) else Err
  {
    var b := Encode(m, after);
    HeadRoundTrip(m.head, after, wire);
    assert (b + rest)[..HEAD_LEN] == b == HeadBytes(m.head, after);
  }

  /** Whatever the header, also one that no sender writes: without a positive length, it is a whole
      message. */
  lemma NoBodyDecodes(b: seq<Byte>, h: Head, wire: Wire)
    requires HEAD_LEN <= |b| && ParseHead(b[..HEAD_LEN], NoHead, wire) == Some(h)
    ensures Decode(b, wire) == Ok(Msg(h, []), HEAD_LEN) <==> h.len <= 0
  {
  }

  /** A message as the senders build it: numbered, and with its body's length in the header. */
  predicate WellFormed(m: Msg, wire: Wire) {
    FullHead(m.head) && m.head.len == |m.body| && HEAD_LEN + |m.body| < TWO_31 && wire.parses(m.body)
  }

  /** A well-formed message at the front of the stream is decoded as it was encoded, and
      exactly its bytes are consumed. */
  lemma DecodeEncode(m: Msg, after: seq<Byte>, rest: seq<Byte>, wire: Wire)
    requires HEAD_LEN <= |after| && WellFormed(m, wire)
    ensures Decode(Encode(m, after) + rest, wire) == Ok(m, |Encode(m, after)|)
    ensures |Encode(m, after)| == HEAD_LEN + |m.body|
  {
    var buf := Encode(m, after) + rest;
    HeadRoundTrip(m.head, after, wire);
    assert buf[..HEAD_LEN] == HeadBytes(m.head, after);
    assert buf[HEAD_LEN..HEAD_LEN + m.head.len] == m.body;
  }

  /** A message with a zero field in its header, such as one without a body, never gets
      through: the receiver reports a broken stream. */
  lemma ZeroFieldIsRejected(m: Msg, after: seq<Byte>, rest: seq<Byte>, wire: Wire)
    requires HEAD_LEN <= |after| && !FullHead(m.head)
    ensures Decode(Encode(m, after) + rest, wire) == Err
  {
    HeadRoundTrip(m.head, after, wire);
    assert (Encode(m, after) + rest)[..HEAD_LEN] == HeadBytes(m.head, after);
  }

  /** More bytes do not change a decision that has been made, if and only if it is not one to
      parse a body that has not arrived. */
  lemma DecodeStable(a: seq<Byte>, b: seq<Byte>, wire: Wire)
    requires !Decode(a, wire).Pause?
    ensures Decode(a + b, wire) == Decode(a, wire) <==> b == [] || !Decode(a, wire).Overrun?
    ensures Decode(a, wire).Overrun? ==> Decode(a + b, wire) == Overrun(Decode(a, wire).seen + b)
  {
    assert (a + b)[..HEAD_LEN] == a[..HEAD_LEN];
    var h := ParseHead(a[..HEAD_LEN], NoHead, wire);
    if h.Some? && TooLong(h.value) {
      assert (a + b)[HEAD_LEN..] == a[HEAD_LEN..] + b;
      assert |a[HEAD_LEN..] + b| == |a[HEAD_LEN..]| + |b|;
    } else if h.Some? && 0 < h.value.len {
      assert (a + b)[HEAD_LEN..HEAD_LEN + h.value.len] == a[HEAD_LEN..HEAD_LEN + h.value.len];
    }
  }

  // ---------------------------------------------------------------- streams

  /** Whether a receiver goes on; a broken stream has been reported, and a `Wild` one has made
      the receiver parse memory behind the `seen` bytes. */
  datatype Ending = Going | Broken | Wild(seen: seq<Byte>)

  /** A receiver: the messages so far, and the undecoded bytes. */
  datatype Receiver = Receiver(msgs: seq<Msg>, buf: seq<Byte>, end: Ending)

  const Start := Receiver([], [], Going)

  /** Decodes until the buffer holds no complete message. */
  function Drain(r: Receiver, wire: Wire): (q: Receiver)
    ensures q.end.Going? ==> Decode(q.buf, wire).Pause?
    decreases |r.buf|
  {
    if !r.end.Going? then r
    else
      match Decode(r.buf, wire)
      case Pause => r
      case Err => r.(end := Broken)
      case Overrun(seen) => r.(end := Wild(seen))
      case Ok(m, n) => Drain(Receiver(r.msgs + [m], r.buf[n..], Going), wire)
  }

  function Feed(r: Receiver, chunk: seq<Byte>, wire: Wire): (q: Receiver) {
    Drain(r.(buf := r.buf + chunk), wire)
  }

  function FeedAll(r: Receiver, chunks: seq<seq<Byte>>, wire: Wire): (q: Receiver)
    decreases |chunks|
  {
    if chunks == [] then r else FeedAll(Feed(r, chunks[0], wire), chunks[1..], wire)
  }

  function Flatten(chunks: seq<seq<Byte>>): (b: seq<Byte>) {
    if chunks == [] then [] else chunks[0] + Flatten(chunks[1..])
  }

  /** Draining early, before the rest of the bytes arrives, makes no difference if and only if
      it does not run into a header that is too long, or no more bytes arrive. */
  lemma {:induction false} DrainEarly(r: Receiver, b: seq<Byte>, wire: Wire)
    ensures Feed(Drain(r, wire), b, wire) == Feed(r, b, wire)
            <==> b == [] || !(r.end.Going? && Drain(r, wire).end.Wild?)
    ensures r.end.Going? && Drain(r, wire).end.Wild? ==>
              Feed(r, b, wire).end == Wild(Drain(r, wire).end.seen + b)
    decreases |r.buf|
  {
    var d := Decode(r.buf, wire);
    if !r.end.Going? {
    } else if d.Ok? {
      var q := Receiver(r.msgs + [d.msg], r.buf[d.used..], Going);
      DecodeStable(r.buf, b, wire);
      assert (r.buf + b)[d.used..] == r.buf[d.used..] + b;
      DrainEarly(q, b, wire);
    } else if !d.Pause? {
      DecodeStable(r.buf, b, wire);
      assert d.Overrun? ==> |d.seen + b| == |d.seen| + |b|;
    }
  }

  /** Draining `b` comes to a header whose length does not fit, with at least `more` bytes
      behind it. */
  predicate Overflows(b: seq<Byte>, more: nat, wire: Wire)
    decreases |b|
  {
    && HEAD_LEN + more <= |b|
    && var h := ParseHead(b[..HEAD_LEN], NoHead, wire);
       h.Some? && if TooLong(h.value) then true
                  else Decode(b, wire).Ok? && Overflows(b[Decode(b, wire).used..], more, wire)
  }

  /** Where the first header that does not fit ends: there, the receiver parses what it has. */
  lemma {:induction false} OverflowsAt(ms: seq<Msg>, b: seq<Byte>, wire: Wire) returns (k: nat)
    requires Overflows(b, 1, wire)
    ensures HEAD_LEN <= k < |b|
    ensures Drain(Receiver(ms, b[..k], Going), wire).end == Wild([])
    ensures Drain(Receiver(ms, b, Going), wire).end == Wild(b[k..])
    decreases |b|
  {
    var d := Decode(b, wire);
    if d.Ok? {
      var j := OverflowsAt(ms + [d.msg], b[d.used..], wire);
      k := d.used + j;
      assert b[..k][..HEAD_LEN] == b[..HEAD_LEN] && b[..k][HEAD_LEN..d.used] == b[HEAD_LEN..d.used];
      assert b[..k][d.used..] == b[d.used..][..j];
      assert b[k..] == b[d.used..][j..];
    } else {
      k := HEAD_LEN;
      assert b[..k][..HEAD_LEN] == b[..HEAD_LEN] && b[..k][HEAD_LEN..] == [];
    }
  }

  /** And only such a header makes the receiver parse bytes that it does not hold. */
  lemma {:induction false} WildOverflows(r: Receiver, more: nat, wire: Wire)
    requires r.end.Going?
    ensures Overflows(r.buf, more, wire) <==> (Drain(r, wire).end.Wild? && more <= |Drain(r, wire).end.seen|)
    decreases |r.buf|
  {
    var d := Decode(r.buf, wire);
    if d.Ok? {
      WildOverflows(Receiver(r.msgs + [d.msg], r.buf[d.used..], Going), more, wire);
    }
  }

  /** Framing does not depend on how the stream is cut into reads, as long as no header that
      is too long is met: for every byte stream, well-formed or not. */
  lemma {:induction false} CutsAgree(r: Receiver, chunks: seq<seq<Byte>>, wire: Wire)
    requires Drain(r, wire) == r && !(r.end.Going? && Overflows(r.buf + Flatten(chunks), 1, wire))
    ensures FeedAll(r, chunks, wire) == Feed(r, Flatten(chunks), wire)
    decreases |chunks|
  {
    if chunks == [] {
      assert r.buf + [] == r.buf;
    } else {
      var q, rest := Feed(r, chunks[0], wire), Flatten(chunks[1..]);
      var r1 := r.(buf := r.buf + chunks[0]);
      assert r.buf + chunks[0] + rest == r.buf + Flatten(chunks);
      if r.end.Going? {
        WildOverflows(r1.(buf := r1.buf + rest), 1, wire);
        DrainEarly(r1, rest, wire);
        if q.end.Going? {
          DrainGoing(r1, rest, wire);
        }
      }
      DrainIdempotent(r1, wire);
      CutsAgree(q, chunks[1..], wire);
    }
  }

  /** What is still to be decoded overflows if and only if the whole does. */
  lemma DrainGoing(r: Receiver, b: seq<Byte>, wire: Wire)
    requires r.end.Going? && Drain(r, wire).end.Going?
    ensures Overflows(Drain(r, wire).buf + b, 1, wire) <==> Overflows(r.buf + b, 1, wire)
  {
    DrainEarly(r, b, wire);
    WildOverflows(r.(buf := r.buf + b), 1, wire);
    var q := Drain(r, wire);
    WildOverflows(q.(buf := q.buf + b), 1, wire);
  }

  /** The receiver's state is independent of all cuts if and only if no header whose sum does
      not fit into an `int` is met with a byte behind it. */
  lemma FragmentationIndependent(r: Receiver, stream: seq<Byte>, wire: Wire)
    requires Drain(r, wire) == r
    ensures (forall chunks :: Flatten(chunks) == stream ==> FeedAll(r, chunks, wire) == Feed(r, stream, wire))
            <==> !(r.end.Going? && Overflows(r.buf + stream, 1, wire))
  {
    if r.end.Going? && Overflows(r.buf + stream, 1, wire) {
      CutsDiffer(r, stream, wire);
    } else {
      forall chunks | Flatten(chunks) == stream ensures FeedAll(r, chunks, wire) == Feed(r, stream, wire) {
        CutsAgree(r, chunks, wire);
      }
    }
  }

  /** A cut right behind the header makes the receiver see less. */
  lemma CutsDiffer(r: Receiver, stream: seq<Byte>, wire: Wire)
    requires Drain(r, wire) == r && r.end.Going? && Overflows(r.buf + stream, 1, wire)
    ensures exists chunks ::
      Flatten(chunks) == stream && FeedAll(r, chunks, wire) != Feed(r, stream, wire)
  {
    var all := r.buf + stream;
    var k := OverflowsAt(r.msgs, all, wire);
    if k <= |r.buf| {
      assert all[..k] + r.buf[k..] == r.buf;
      DrainEarly(Receiver(r.msgs, all[..k], Going), r.buf[k..], wire);
      assert false;
    }
    var j := k - |r.buf|;
    var chunks := [stream[..j], stream[j..]];
    FlattenTwo(stream[..j], stream[j..]);
    assert stream[..j] + stream[j..] == stream;
    assert r.buf + stream[..j] == all[..k];
    var q := Feed(r, stream[..j], wire);
    assert q.end == Wild([]);
    assert chunks[1..] == [stream[j..]];
    assert |[stream[j..]][1..]| == 0;
    assert FeedAll(r, chunks, wire) == FeedAll(q, [stream[j..]], wire) == Feed(q, stream[j..], wire);
    assert Feed(q, stream[j..], wire).end == Wild([]);
    assert Feed(r, stream, wire).end == Wild(all[k..]);
    assert |all[k..]| > 0;
  }

  lemma FlattenTwo(a: seq<Byte>, b: seq<Byte>)
    ensures Flatten([a, b]) == a + b
  {
    assert [a, b][1..] == [b] && [b][1..] == [];
    assert Flatten([b]) == b + [] == b;
  }

  /** A header that asks for 2^31 - 1 bytes: with it the decoder has decided, and one more byte
      changes what it parses. */
  lemma LongestLengthExample(wire: Wire)
    ensures var b := [TAG_CMD, 1, 0, 0, 0, TAG_SEQ, 1, 0, 0, 0, TAG_LEN, 255, 255, 255, 127];
            && ParseHead(b, NoHead, wire) == Some(Head(1, 1, TWO_31 - 1))
            && Decode(b, wire) == Overrun([]) && Decode(b + [7], wire) == Overrun([7])
            && Overflows(b + [7], 1, wire)
  {
    var h := Head(1, 1, TWO_31 - 1);
    var b := [TAG_CMD, 1, 0, 0, 0, TAG_SEQ, 1, 0, 0, 0, TAG_LEN, 255, 255, 255, 127];
    assert LittleEndian(1) == [1, 0, 0, 0] && LittleEndian(TWO_31 - 1) == [255, 255, 255, 127];
    assert SerializeHead(h) + [] == b;
    ParseSerialized(h, [], wire);
    assert b[..HEAD_LEN] == b && b[HEAD_LEN..] == [] && (b + [7])[..HEAD_LEN] == b && (b + [7])[HEAD_LEN..] == [7];
  }

  lemma {:induction false} DrainIdempotent(r: Receiver, wire: Wire)
    ensures Drain(Drain(r, wire), wire) == Drain(r, wire)
    decreases |r.buf|
  {
    if r.end.Going? {
      var d := Decode(r.buf, wire);
      if d.Ok? {
        DrainIdempotent(Receiver(r.msgs + [d.msg], r.buf[d.used..], Going), wire);
      }
    }
  }

  function EncodeAll(msgs: seq<Msg>, after: seq<Byte>): (b: seq<Byte>)
    requires HEAD_LEN <= |after|
  {
    if msgs == [] then [] else Encode(msgs[0], after) + EncodeAll(msgs[1..], after)
  }

  lemma {:induction false} DrainEncoded(done: seq<Msg>, msgs: seq<Msg>, after: seq<Byte>, wire: Wire)
    requires HEAD_LEN <= |after| && forall m :: m in msgs ==> WellFormed(m, wire)
    ensures Drain(Receiver(done, EncodeAll(msgs, after), Going), wire) == Receiver(done + msgs, [], Going)
    decreases |msgs|
  {
    if msgs == [] {
      assert done + msgs == done;
    } else {
      var b := EncodeAll(msgs, after);
      DecodeEncode(msgs[0], after, EncodeAll(msgs[1..], after), wire);
      assert b[|Encode(msgs[0], after)|..] == EncodeAll(msgs[1..], after);
      DrainEncoded(done + [msgs[0]], msgs[1..], after, wire);
      assert done + [msgs[0]] + msgs[1..] == done + msgs;
    }
  }

  /** Any list of well-formed messages, encoded in order and cut into reads in any way, is
      delivered as that list, with nothing left in the buffer. */
  lemma FramingRoundTrip(msgs: seq<Msg>, chunks: seq<seq<Byte>>, after: seq<Byte>, wire: Wire)
    requires HEAD_LEN <= |after| && forall m :: m in msgs ==> WellFormed(m, wire)
    requires Flatten(chunks) == EncodeAll(msgs, after)
    ensures FeedAll(Start, chunks, wire) == Receiver(msgs, [], Going)
  {
    DrainEncoded([], msgs, after, wire);
    assert Start.buf + Flatten(chunks) == Flatten(chunks);
    WildOverflows(Receiver([], Flatten(chunks), Going), 1, wire);
    CutsAgree(Start, chunks, wire);
  }

  // ------------------------------------------------------------- the codec

  class Codec {
    const wire: Wire

    constructor (wire: Wire)
      ensures this.wire == wire
    {
      this.wire := wire;
    }

    method EncodeTo(m: Msg, sbuf: Buffer, after: seq<Byte>)
      requires sbuf.Valid() && HEAD_LEN <= |after|
      modifies sbuf, sbuf.data
      ensures sbuf.Valid() && (sbuf.data == old(sbuf.data) || fresh(sbuf.data))
      ensures sbuf.Contents() == old(sbuf.Contents()) + Encode(m, after)
    {
      var text := SerializeHead(m.head);
      ghost var was := sbuf.Contents();
      var bytes := (text + [0] + after)[..HEAD_LEN];
      sbuf.Write(bytes);
      if m.head.len <= 0 {
        assert was + bytes == was + Encode(m, after);
        return;
      }
      sbuf.Write(m.body);
      assert was + bytes + m.body == was + Encode(m, after);
    }

    method DecodeFrom(sbuf: Buffer) returns (r: Outcome)
      requires sbuf.Valid()
      modifies sbuf`readIdx
      ensures sbuf.Valid() && r == Decode(old(sbuf.Contents()), wire)
      ensures sbuf.Contents() == old(sbuf.Contents())[if r.Ok? then r.used else 0..]
    {
      if sbuf.Readable() < HEAD_LEN {
        return Pause;
      }
      ghost var was := sbuf.Contents();
      var bytes := sbuf.CopyOut(HEAD_LEN);
      var head := ParseHead(bytes, NoHead, wire);
      if head.None? {
        return Err;
      }
      var len := head.value.len;
      if len <= 0 {
        sbuf.SkipBytes(HEAD_LEN);
        return Ok(Msg(head.value, []), HEAD_LEN);
      }
      if TooLong(head.value) {
        var seen := sbuf.CopyOut(sbuf.Readable());
        assert seen == was;
        return Overrun(seen[HEAD_LEN..]);
      }
      if sbuf.Readable() < HEAD_LEN + len {
        return Pause;
      }
      var all := sbuf.CopyOut(HEAD_LEN + len);
      var body := all[HEAD_LEN..];
      assert body == was[HEAD_LEN..HEAD_LEN + len];
      if !wire.parses(body) {
        return Err;
      }
      sbuf.SkipBytes(HEAD_LEN + len);
      r := Ok(Msg(head.value, body), HEAD_LEN + len);
    }
  }
}
