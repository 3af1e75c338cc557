/**
 The body states of the HTTP parser (src/core/util/http/http_parser.c): a body of known
 length, a body up to the end of the stream, and a chunked body (sections 3.6.1 and 4.4 of
 RFC 2616). The parser is built with its strict checks, and callbacks succeed.

 The reference machine takes one byte at a time and reports each body byte at once. The
 parser takes whole blocks, remembers where body bytes started, and reports them together,
 at the latest at the end of the block.
 */
module HttpBody {
  import opened Common

  const ULLONG_MAX := 0xFFFF_FFFF_FFFF_FFFF
  const HTTP_MAX_HEADER_SIZE := 81920
  const CR: Byte := 13
  const LF: Byte := 10

  datatype Error =
    | HEADER_OVERFLOW | INVALID_CHUNK_SIZE | INVALID_CONTENT_LENGTH | STRICT_FAILED

  /** The state of the parser between bytes. After Complete and Trailer the parser is outside
      the body again. */
  datatype State =
    | Identity(left: nat)
    | IdentityEof
    | ChunkStart
    | ChunkSize(len: nat)
    | ChunkParams(len: nat)
    | ChunkAlmost(len: nat)
    | ChunkData(left: nat)
    | ChunkDataAlmost
    | ChunkDataDone
    | Complete
    | Trailer
    | Failed(error: Error)

  datatype Parser = Parser(state: State, nread: nat)

  datatype Report = BodyByte(b: Byte) | ChunkHeader(len: nat) | ChunkComplete | MessageComplete

  // ----------------------------------------------------------------- lengths

  /** The largest length that may get another digit. */
  function Limit(base: nat): (n: nat)
    requires 0 < base < 100
  {
    (ULLONG_MAX - base) / base
  }

  function Value(base: nat, ds: seq<nat>): (n: nat) {
    if ds == [] then 0 else base * Value(base, DropLast(ds)) + Last(ds)
  }

  /** The length field after its digits, or none if the parser has refused one of them. */
  function Length(base: nat, ds: seq<nat>): (r: Option<nat>)
    requires 0 < base < 100 && ds != []
  {
    if |ds| == 1 then Some(ds[0])
    else
      match Length(base, DropLast(ds))
      case None => None
      case Some(n) => if Limit(base) < n then None else Some(base * n + Last(ds))
  }

  lemma LimitFits(base: nat, n: nat, d: nat)
    requires base in {10, 16} && n <= Limit(base) && d < base
    ensures base * n + d < ULLONG_MAX
  {
    assert base * Limit(base) <= ULLONG_MAX - base;
  }

  lemma {:induction false} ValueGrows(base: nat, ds: seq<nat>)
    requires base in {10, 16} && |ds| > 1
    ensures Value(base, DropLast(ds)) <= Value(base, ds)
  {
  }

  /** A length field that is accepted is the number written in the digits; it has not wrapped
      around, and it is not the value that stands for no length. It is accepted exactly if the
      digits before the last are small enough. */
  lemma {:induction false} LengthIsValue(base: nat, ds: seq<nat>)
    requires base in {10, 16} && ds != [] && forall k :: 0 <= k < |ds| ==> ds[k] < base
    ensures Length(base, ds).Some? ==> Length(base, ds).value == Value(base, ds) < ULLONG_MAX
    ensures Length(base, ds).Some? <==> |ds| == 1 || Value(base, DropLast(ds)) <= Limit(base)
  {
    if |ds| == 1 {
      assert DropLast(ds) == [] && Value(base, DropLast(ds)) == 0;
      assert Last(ds) == ds[0];
    } else {
      var before := DropLast(ds);
      LengthIsValue(base, before);
      if |before| > 1 {
        ValueGrows(base, before);
      } else {
        assert Value(base, DropLast(before)) == 0 && Value(base, before) == before[0];
      }
      if Length(base, ds).Some? {
        LimitFits(base, Value(base, before), Last(ds));
      }
    }
  }

  /** The accumulation as the parser does it, on 64-bit numbers: the limit is looked at after the
      product, which may have wrapped, but only a product that has not is kept. */
  method ReadLength(base: nat, ds: seq<nat>) returns (r: Option<nat>)
    requires base in {10, 16} && ds != [] && forall k :: 0 <= k < |ds| ==> ds[k] < base
    ensures r == Length(base, ds)
  {
    var len, i := ds[0], 1;
    assert ds[..1] == [ds[0]];
    while i < |ds|
      invariant 1 <= i <= |ds| && Length(base, ds[..i]) == Some(len)
    {
      assert DropLast(ds[..i + 1]) == ds[..i] && Last(ds[..i + 1]) == ds[i];
      var t := (len * base + ds[i]) % (ULLONG_MAX + 1);
      if Limit(base) < len {
        LengthStaysNone(base, ds, i + 1);
        return None;
      }
      LimitFits(base, len, ds[i]);
      assert t == base * len + ds[i];
      len := t;
      i := i + 1;
    }
    assert ds[..i] == ds;
    return Some(len);
  }

  lemma {:induction false} LengthStaysNone(base: nat, ds: seq<nat>, k: nat)
    requires 0 < base < 100 && 0 < k <= |ds| && Length(base, ds[..k]).None?
    ensures Length(base, ds).None?
    decreases |ds| - k
  {
    if k == |ds| {
      assert ds[..k] == ds;
    } else {
      assert DropLast(ds[..k + 1]) == ds[..k];
      LengthStaysNone(base, ds, k + 1);
    }
  }

  // ---------------------------------------------------- the reference machine

  function Unhex(b: Byte): (r: Option<nat>)
    ensures r.Some? ==> r.value < 16
  {
    if 48 <= b <= 57 then Some(b - 48)
    else if 97 <= b <= 102 then Some(b - 87)
    else if 65 <= b <= 70 then Some(b - 55)
    else None
  }

  predicate InHeader(s: State) {
    s.ChunkStart? || s.ChunkSize? || s.ChunkParams? || s.ChunkAlmost?
  }

  /** One byte of a chunk's size line. */
  function SizeStep(s: State, b: Byte): (r: (State, seq<Report>))
    requires InHeader(s)
  {
    match s
    case ChunkStart =>
      (if Unhex(b).None? then Failed(INVALID_CHUNK_SIZE) else ChunkSize(Unhex(b).value), [])
    case ChunkSize(len) =>
      (if b == CR then ChunkAlmost(len)
       else if Unhex(b).Some? then
         if Limit(16) < len then Failed(INVALID_CONTENT_LENGTH) else ChunkSize(16 * len + Unhex(b).value)
       else if b == 59 || b == 32 then ChunkParams(len)
       else Failed(INVALID_CHUNK_SIZE), [])
    case ChunkParams(len) => (if b == CR then ChunkAlmost(len) else s, [])
    case ChunkAlmost(len) =>
      if b != LF then (Failed(STRICT_FAILED), [])
      else (if len == 0 then Trailer else ChunkData(len), [ChunkHeader(len)])
  }

  function Step(p: Parser, b: Byte): (r: (Parser, seq<Report>)) {
    match p.state
    case Identity(n) =>
      if n <= 1 then (p.(state := Complete), [BodyByte(b), MessageComplete])
      else (p.(state := Identity(n - 1)), [BodyByte(b)])
    case IdentityEof => (p, [BodyByte(b)])
    case ChunkData(n) =>
      (p.(state := if n <= 1 then ChunkDataAlmost else ChunkData(n - 1)), [BodyByte(b)])
    case ChunkDataAlmost => (p.(state := if b == CR then ChunkDataDone else Failed(STRICT_FAILED)), [])
    case ChunkDataDone =>
      if b == LF then (Parser(ChunkStart, 0), [ChunkComplete]) else (p.(state := Failed(STRICT_FAILED)), [])
    case Complete => (p, [])
    case Trailer => (p, [])
    case Failed(_) => (p, [])
    case _ =>
      if p.nread + 1 > HTTP_MAX_HEADER_SIZE then (Parser(Failed(HEADER_OVERFLOW), p.nread + 1), [])
      else
        var r := SizeStep(p.state, b);
        (Parser(r.0, if p.state.ChunkAlmost? && !r.0.Failed? then 0 else p.nread + 1), r.1)
  }

  /** The reference: the state after some bytes, and all that was reported. */
  function Run(p: Parser, bs: seq<Byte>): (r: (Parser, seq<Report>)) {
    if bs == [] then (p, [])
    else
      var q := Run(p, DropLast(bs));
      var s := Step(q.0, Last(bs));
      (s.0, q.1 + s.1)
  }

  lemma {:induction false} RunConcat(p: Parser, a: seq<Byte>, b: seq<Byte>)
    ensures Run(p, a + b) == (Run(Run(p, a).0, b).0, Run(p, a).1 + Run(Run(p, a).0, b).1)
  {
    if b == [] {
      assert a + b == a && Run(p, a).1 + [] == Run(p, a).1;
    } else {
      assert DropLast(a + b) == a + DropLast(b) && Last(a + b) == Last(b);
      RunConcat(p, a, DropLast(b));
      var q := Run(Run(p, a).0, DropLast(b));
      var s := Step(q.0, Last(b));
      assert Run(p, a).1 + (q.1 + s.1) == Run(p, a).1 + q.1 + s.1;
    }
  }

  /** The values of hexadecimal digits. */
  predicate AreHex(bs: seq<Byte>, ds: seq<nat>) {
    |bs| == |ds| && forall k :: 0 <= k < |bs| ==> Unhex(bs[k]) == Some(ds[k])
  }

  /** The size line of a chunk: the length is the number its digits write, and a size that is
      refused is refused for good. */
  lemma {:induction false} ChunkSizeIsValue(bs: seq<Byte>, ds: seq<nat>)
    requires 0 < |bs| <= HTTP_MAX_HEADER_SIZE && AreHex(bs, ds)
    ensures var q := Run(Parser(ChunkStart, 0), bs).0;
            if Length(16, ds).Some? then q == Parser(ChunkSize(Value(16, ds)), |bs|)
            else q.state == Failed(INVALID_CONTENT_LENGTH)
    ensures Run(Parser(ChunkStart, 0), bs).1 == []
  {
    var p := Parser(ChunkStart, 0);
    if |bs| == 1 {
      assert DropLast(bs) == [] && Run(p, DropLast(bs)) == (p, []) && DropLast(ds) == [];
      assert Unhex(Last(bs)) == Some(ds[0]) && Last(ds) == ds[0];
    } else {
      ChunkSizeIsValue(DropLast(bs), DropLast(ds));
      LengthIsValue(16, DropLast(ds));
      assert Unhex(Last(bs)) == Some(Last(ds));
      HexIsNotCR(Last(bs));
    }
  }

  /** A digit may be written in either case. */
  lemma UnhexIsDigit(b: Byte, d: nat)
    ensures Unhex(b) == Some(d) <==>
            d < 16 && (b as char == "0123456789abcdef"[d] || b as char == "0123456789ABCDEF"[d])
  {
  }

  lemma HexIsNotCR(b: Byte)
    requires Unhex(b).Some?
    ensures b != CR
  {
  }

  // ------------------------------------------------------- blocks and marks

  /** A parser inside a block: `pending` are the body bytes behind the mark. */
  datatype Marked = Marked(parser: Parser, pending: seq<Byte>, reports: seq<Report>)

  function Bytes(bs: seq<Byte>): (r: seq<Report>) {
    seq(|bs|, k requires 0 <= k < |bs| => BodyByte(bs[k]))
  }

  /** One byte inside a block: body bytes are kept back until the body or the chunk ends, and
      an error drops them. */
  function MarkedStep(m: Marked, b: Byte): (r: Marked) {
    var s := Step(m.parser, b);
    match m.parser.state
    case Identity(n) =>
      if n <= 1 then Marked(s.0, [], m.reports + Bytes(m.pending + [b]) + [MessageComplete])
      else m.(parser := s.0, pending := m.pending + [b])
    case IdentityEof => m.(pending := m.pending + [b])
    case ChunkData(_) => m.(parser := s.0, pending := m.pending + [b])
    case ChunkDataAlmost =>
      if s.0.state.Failed? then m.(parser := s.0) else Marked(s.0, [], m.reports + Bytes(m.pending))
    case _ => m.(parser := s.0, reports := m.reports + s.1)
  }

  function MarkedRun(m: Marked, bs: seq<Byte>): (r: Marked) {
    if bs == [] then m else MarkedStep(MarkedRun(m, DropLast(bs)), Last(bs))
  }

  /** What a whole block reports: what is kept back comes out at its end, except after an error. */
  function Block(p: Parser, bs: seq<Byte>): (r: (Parser, seq<Report>)) {
    var m := MarkedRun(Marked(p, [], []), bs);
    (m.parser, m.reports + if m.parser.state.Failed? then [] else Bytes(m.pending))
  }

  /** Body bytes are kept back only inside a body, or after an error at the end of a chunk. */
  predicate MarkOk(m: Marked) {
    m.pending != [] ==>
      m.parser.state.Identity? || m.parser.state.IdentityEof? || m.parser.state.ChunkData?
      || m.parser.state.ChunkDataAlmost? || m.parser.state == Failed(STRICT_FAILED)
  }

  lemma BytesConcat(a: seq<Byte>, b: seq<Byte>)
    ensures Bytes(a + b) == Bytes(a) + Bytes(b)
  {
  }

  /** The marks lose nothing: what has been reported and what is kept back is what the
      reference has reported. */
  lemma {:induction false} MarkedFollows(p: Parser, bs: seq<Byte>)
    ensures var m := MarkedRun(Marked(p, [], []), bs);
            && m.parser == Run(p, bs).0 && MarkOk(m)
            && m.reports + Bytes(m.pending) == Run(p, bs).1
  {
    if bs != [] {
      MarkedFollows(p, DropLast(bs));
      var m, q := MarkedRun(Marked(p, [], []), DropLast(bs)), Run(p, DropLast(bs));
      StepFollows(m, q.1, Last(bs));
    }
  }

  lemma StepFollows(m: Marked, told: seq<Report>, b: Byte)
    requires MarkOk(m) && m.reports + Bytes(m.pending) == told
    ensures var r, s := MarkedStep(m, b), Step(m.parser, b);
            r.parser == s.0 && MarkOk(r) && r.reports + Bytes(r.pending) == told + s.1
  {
    BytesConcat(m.pending, [b]);
    assert Bytes([b]) == [BodyByte(b)];
    var s := Step(m.parser, b);
    assert m.reports + (Bytes(m.pending) + [BodyByte(b)]) == told + [BodyByte(b)];
    assert told + [BodyByte(b)] + [MessageComplete] == told + [BodyByte(b), MessageComplete];
    assert m.pending == [] ==> Bytes(m.pending) == [] && m.reports + s.1 == told + s.1;
    assert told + [] == told;
  }

  // ------------------------------------------------------ reports of blocks

  /** A block that ends in an error while body bytes are kept back: these are not reported. */
  predicate Loses(p: Parser, bs: seq<Byte>) {
    var m := MarkedRun(Marked(p, [], []), bs);
    m.parser.state.Failed? && m.pending != []
  }

  /** A block leaves the parser as its bytes one by one would, and reports the same if and only
      if it does not lose any. */
  lemma BlockReports(p: Parser, bs: seq<Byte>)
    ensures Block(p, bs).0 == Run(p, bs).0
    ensures Block(p, bs).1 == Run(p, bs).1 <==> !Loses(p, bs)
    ensures |Block(p, bs).1| <= |Run(p, bs).1|
    ensures Loses(p, bs) ==> |Block(p, bs).1| < |Run(p, bs).1|
  {
    var m := MarkedRun(Marked(p, [], []), bs);
    MarkedFollows(p, bs);
    assert m.reports + [] == m.reports;
    assert |Bytes(m.pending)| == |m.pending|;
  }

  lemma {:induction false} MarkedConcat(m: Marked, a: seq<Byte>, b: seq<Byte>)
    ensures MarkedRun(m, a + b) == MarkedRun(MarkedRun(m, a), b)
  {
    if b == [] {
      assert a + b == a;
    } else {
      assert DropLast(a + b) == a + DropLast(b) && Last(a + b) == Last(b);
      MarkedConcat(m, a, DropLast(b));
    }
  }

  lemma {:induction false} FailedStays(m: Marked, bs: seq<Byte>)
    requires m.parser.state.Failed?
    ensures MarkedRun(m, bs) == m
  {
    if bs != [] {
      FailedStays(m, DropLast(bs));
      assert m.reports + [] == m.reports;
    }
  }

  /** The byte after a chunk's data, at position k, is not the one that must follow. */
  predicate BadEnd(p: Parser, bs: seq<Byte>, k: nat) {
    0 < k < |bs| && Run(p, bs[..k]).0.state.ChunkDataAlmost? && bs[k] != CR
  }

  /** At the end of a chunk's data the last bytes are kept back. */
  lemma KeptAtEnd(p: Parser, a: seq<Byte>)
    requires a != [] && Run(p, a).0.state.ChunkDataAlmost?
    ensures var n := MarkedRun(Marked(p, [], []), a);
            n.parser.state.ChunkDataAlmost? && n.pending != []
  {
    var m := MarkedRun(Marked(p, [], []), DropLast(a));
    MarkedFollows(p, DropLast(a));
    MarkedFollows(p, a);
    assert m.parser.state.ChunkData?;
  }

  lemma MarkedCons(m: Marked, b: Byte, rest: seq<Byte>)
    ensures MarkedRun(m, [b] + rest) == MarkedRun(MarkedStep(m, b), rest)
  {
    MarkedConcat(m, [b], rest);
    assert DropLast([b]) == [] && MarkedRun(m, []) == m;
  }

  lemma BadEndLoses(p: Parser, bs: seq<Byte>, k: nat)
    requires BadEnd(p, bs, k)
    ensures Loses(p, bs)
  {
    var start, rest := Marked(p, [], []), bs[k + 1..];
    var n := MarkedRun(start, bs[..k]);
    KeptAtEnd(p, bs[..k]);
    assert bs == bs[..k] + ([bs[k]] + rest);
    MarkedConcat(start, bs[..k], [bs[k]] + rest);
    MarkedCons(n, bs[k], rest);
    FailedStays(MarkedStep(n, bs[k]), rest);
  }

  lemma {:induction false} LosesBadEnd(p: Parser, bs: seq<Byte>) returns (k: nat)
    requires Loses(p, bs)
    ensures BadEnd(p, bs, k)
  {
    var start, before := Marked(p, [], []), DropLast(bs);
    var m := MarkedRun(start, before);
    MarkedFollows(p, before);
    if m.parser.state.Failed? {
      FailedStays(m, [Last(bs)]);
      assert MarkedRun(m, []) == m && MarkedRun(m, [Last(bs)]) == MarkedStep(m, Last(bs));
      k := LosesBadEnd(p, before);
      assert before[..k] == bs[..k];
    } else {
      k := |before|;
      assert bs[..k] == before;
      assert before == [] ==> m == start;
    }
  }

  // ---------------------------------------------------------- cutting input

  /** The reports of a stream that comes in pieces. */
  function Pieces(p: Parser, cs: seq<seq<Byte>>): (r: (Parser, seq<Report>)) {
    if cs == [] then (p, [])
    else
      var q := Pieces(p, DropLast(cs));
      var b := Block(q.0, Last(cs));
      (b.0, q.1 + b.1)
  }

  function Flat(cs: seq<seq<Byte>>): (bs: seq<Byte>) {
    if cs == [] then [] else Flat(DropLast(cs)) + Last(cs)
  }

  /** The pieces of a stream; a piece without bytes would mean its end. */
  predicate IsCut(cs: seq<seq<Byte>>, bs: seq<Byte>) {
    Flat(cs) == bs && forall c :: c in cs ==> c != []
  }

  lemma {:induction false} PiecesState(p: Parser, cs: seq<seq<Byte>>)
    ensures Pieces(p, cs).0 == Run(p, Flat(cs)).0
  {
    if cs != [] {
      PiecesState(p, DropLast(cs));
      BlockReports(Pieces(p, DropLast(cs)).0, Last(cs));
      RunConcat(p, Flat(DropLast(cs)), Last(cs));
    }
  }

  /** If a piece ends a chunk badly, so does the stream. */
  lemma BadEndInStream(p: Parser, before: seq<Byte>, piece: seq<Byte>, k: nat)
    requires BadEnd(Run(p, before).0, piece, k)
    ensures BadEnd(p, before + piece, |before| + k)
  {
    RunConcat(p, before, piece[..k]);
    assert (before + piece)[..|before| + k] == before + piece[..k];
  }

  lemma BadEndStays(p: Parser, a: seq<Byte>, b: seq<Byte>, k: nat)
    requires BadEnd(p, a, k)
    ensures BadEnd(p, a + b, k)
  {
    assert (a + b)[..k] == a[..k];
  }

  /** A stream that does not end a chunk badly is reported the same however it is cut. */
  lemma {:induction false} CutsAgree(p: Parser, cs: seq<seq<Byte>>)
    requires !Loses(p, Flat(cs))
    ensures Pieces(p, cs) == Run(p, Flat(cs))
  {
    if cs != [] {
      var before, piece := Flat(DropLast(cs)), Last(cs);
      PartsLoseNothing(p, before, piece);
      CutsAgree(p, DropLast(cs));
      RunConcat(p, before, piece);
      BlockReports(Run(p, before).0, piece);
    }
  }

  lemma StartLoses(p: Parser, before: seq<Byte>, piece: seq<Byte>)
    requires Loses(p, before)
    ensures Loses(p, before + piece)
  {
    var k := LosesBadEnd(p, before);
    BadEndStays(p, before, piece, k);
    BadEndLoses(p, before + piece, k);
  }

  lemma PieceLoses(p: Parser, before: seq<Byte>, piece: seq<Byte>)
    requires Loses(Run(p, before).0, piece)
    ensures Loses(p, before + piece)
  {
    var k := LosesBadEnd(Run(p, before).0, piece);
    BadEndInStream(p, before, piece, k);
    BadEndLoses(p, before + piece, |before| + k);
  }

  lemma PartsLoseNothing(p: Parser, before: seq<Byte>, piece: seq<Byte>)
    requires !Loses(p, before + piece)
    ensures !Loses(p, before) && !Loses(Run(p, before).0, piece)
  {
    if Loses(p, before) {
      StartLoses(p, before, piece);
    }
    if Loses(Run(p, before).0, piece) {
      PieceLoses(p, before, piece);
    }
  }

  /** Cut just before the offending byte, a stream is reported in full. */
  lemma CutAtBadEnd(p: Parser, bs: seq<Byte>, k: nat)
    requires BadEnd(p, bs, k)
    ensures Pieces(p, [bs[..k], bs[k..]]).1 == Run(p, bs).1
  {
    var a, b := bs[..k], bs[k..];
    var q := Run(p, a).0;
    BlockReports(p, a);
    BlockReports(q, b);
    if Loses(p, a) {
      MarkedFollows(p, a);
    }
    if Loses(q, b) {
      FirstByteFails(q, b);
    }
    RunConcat(p, a, b);
    assert a + b == bs;
    assert DropLast([a, b]) == [a] && DropLast([a]) == [] && Last([a, b]) == b && Last([a]) == a;
    assert Pieces(p, []) == (p, []) && Pieces(p, [a]) == (Block(p, a).0, [] + Block(p, a).1);
    assert [] + Block(p, a).1 == Block(p, a).1;
  }

  /** A block that starts with the offending byte has nothing to lose. */
  lemma FirstByteFails(q: Parser, b: seq<Byte>)
    requires q.state.ChunkDataAlmost? && b != [] && b[0] != CR
    ensures !Loses(q, b)
  {
    var start := Marked(q, [], []);
    var f := MarkedStep(start, b[0]);
    assert b == [b[0]] + b[1..];
    MarkedConcat(start, [b[0]], b[1..]);
    assert MarkedRun(start, []) == start && MarkedRun(start, [b[0]]) == f;
    FailedStays(f, b[1..]);
  }

  /** What is reported is independent of how the stream is cut into reads if and only if no
      chunk's data is followed by a wrong byte. (If it is, the uncut stream loses the bytes of
      that chunk, while a cut in front of the wrong byte reports them.) The state in which the
      parser is left is the same for every cut in any case. */
  lemma CutIndependence(p: Parser, bs: seq<Byte>)
    requires bs != []
    ensures forall cs :: IsCut(cs, bs) ==> Pieces(p, cs).0 == Block(p, bs).0
    ensures (forall cs :: IsCut(cs, bs) ==> Pieces(p, cs).1 == Block(p, bs).1) <==> (forall k: nat :: !BadEnd(p, bs, k))
  {
    BlockReports(p, bs);
    forall cs | IsCut(cs, bs) ensures Pieces(p, cs).0 == Block(p, bs).0 {
      PiecesState(p, cs);
    }
    if k: nat :| BadEnd(p, bs, k) {
      var cs := SomeCutDiffers(p, bs, k);
      assert IsCut(cs, bs) && Pieces(p, cs).1 != Block(p, bs).1;
    } else {
      forall cs | IsCut(cs, bs) ensures Pieces(p, cs).1 == Block(p, bs).1 {
        AllCutsAgree(p, bs, cs);
      }
    }
  }

  lemma AllCutsAgree(p: Parser, bs: seq<Byte>, cs: seq<seq<Byte>>)
    requires (forall k: nat :: !BadEnd(p, bs, k)) && Flat(cs) == bs
    ensures Pieces(p, cs).1 == Block(p, bs).1
  {
    if Loses(p, bs) {
      var k := LosesBadEnd(p, bs);
    }
    BlockReports(p, bs);
    CutsAgree(p, cs);
  }

  lemma SomeCutDiffers(p: Parser, bs: seq<Byte>, k: nat) returns (cs: seq<seq<Byte>>)
    requires BadEnd(p, bs, k)
    ensures IsCut(cs, bs) && Pieces(p, cs).1 != Block(p, bs).1
  {
    BlockReports(p, bs);
    BadEndLoses(p, bs, k);
    CutAtBadEnd(p, bs, k);
    cs := [bs[..k], bs[k..]];
    FlatTwo(bs[..k], bs[k..]);
  }

  lemma FlatTwo(a: seq<Byte>, b: seq<Byte>)
    ensures Flat([a, b]) == a + b
  {
    assert DropLast([a, b]) == [a] && DropLast([a]) == [] && Flat([]) == [];
    assert Flat([a]) == [] + a == a;
  }

  /** A concrete case: a chunk of one byte that is followed by a letter. In one block the byte is
      lost, in two blocks it is reported. */
  lemma BadEndExample()
    ensures var p := Parser(ChunkData(1), 0);
            Block(p, [97, 88]).1 == [] && Pieces(p, [[97], [88]]).1 == [BodyByte(97)]
  {
    var p, bs: seq<Byte> := Parser(ChunkData(1), 0), [97, 88];
    var a: seq<Byte> := [97];
    var start := Marked(p, [], []);
    assert bs[..1] == a && bs[1..] == [88] && DropLast(bs) == a && DropLast(a) == [];
    assert Run(p, []) == (p, []) && Run(p, a) == (Parser(ChunkDataAlmost, 0), [] + [BodyByte(97)]);
    assert Run(p, bs).1 == [BodyByte(97)] + [];
    assert MarkedRun(start, []) == start && MarkedRun(start, a) == Marked(Parser(ChunkDataAlmost, 0), [] + a, []);
    assert BadEnd(p, bs, 1);
    CutAtBadEnd(p, bs, 1);
  }

  // ---------------------------------------------------------- encoded bodies

  /** A chunk as it is written: the digits of its size, what may follow them on the line, and
      its data. */
  datatype Chunk = Chunk(digits: seq<Byte>, params: seq<Byte>, data: seq<Byte>)

  function Line(c: Chunk): (r: seq<Byte>) {
    c.digits + c.params
  }

  /** The digits of a size that fits; parameters start with a semicolon or a space. */
  predicate IsSize(c: Chunk, ds: seq<nat>) {
    && c.digits != [] && AreHex(c.digits, ds) && Length(16, ds).Some?
    && (c.params != [] ==> c.params[0] == 59 || c.params[0] == 32) && CR !in c.params
  }

  /** The size is the length of the data, and the line stays within the limit for headers. */
  ghost predicate IsChunk(c: Chunk) {
    |Line(c)| + 2 <= HTTP_MAX_HEADER_SIZE && exists ds :: IsSize(c, ds) && Value(16, ds) == |c.data|
  }

  function Head(c: Chunk): (r: seq<Byte>) {
    Line(c) + [CR, LF]
  }

  function Wire(c: Chunk): (r: seq<Byte>) {
    Head(c) + c.data + [CR, LF]
  }

  function Told(c: Chunk): (r: seq<Report>) {
    [ChunkHeader(|c.data|)] + Bytes(c.data) + [ChunkComplete]
  }

  function Wires(cs: seq<Chunk>): (r: seq<Byte>) {
    if cs == [] then [] else Wires(DropLast(cs)) + Wire(Last(cs))
  }

  function AllTold(cs: seq<Chunk>): (r: seq<Report>) {
    if cs == [] then [] else AllTold(DropLast(cs)) + Told(Last(cs))
  }

  /** Chunks with data, and the one without that ends the body. */
  ghost predicate IsBody(cs: seq<Chunk>, end: Chunk) {
    AreChunks(cs) && IsChunk(end) && end.data == []
  }

  ghost predicate AreChunks(cs: seq<Chunk>) {
    forall k :: 0 <= k < |cs| ==> IsChunk(cs[k]) && cs[k].data != []
  }

  const Fresh := Parser(ChunkStart, 0)

  lemma RunOne(p: Parser, b: Byte)
    ensures Run(p, [b]) == Step(p, b)
  {
    assert DropLast([b]) == [] && Run(p, []) == (p, []);
    assert [] + Step(p, b).1 == Step(p, b).1;
  }

  lemma {:induction false} ParamsRun(c: Chunk, ds: seq<nat>)
    requires IsSize(c, ds) && |Line(c)| <= HTTP_MAX_HEADER_SIZE
    ensures var v := Value(16, ds);
            Run(Fresh, Line(c)) == (Parser(if c.params == [] then ChunkSize(v) else ChunkParams(v), |Line(c)|), [])
    decreases |c.params|
  {
    if c.params == [] {
      assert Line(c) == c.digits;
      ChunkSizeIsValue(c.digits, ds);
    } else {
      var before := c.(params := DropLast(c.params));
      ParamsRun(before, ds);
      assert Line(c) == Line(before) + [Last(c.params)];
      assert DropLast(Line(c)) == Line(before) && Last(Line(c)) == Last(c.params);
      assert before.params == [] ==> Last(c.params) == c.params[0];
      assert Last(c.params) != CR;
    }
  }

  /** The end of the size line: the length that was read is the length of the data. */
  lemma HeadRun(c: Chunk, ds: seq<nat>)
    requires IsSize(c, ds) && |Line(c)| + 2 <= HTTP_MAX_HEADER_SIZE
    ensures var v := Value(16, ds);
            Run(Fresh, Head(c)) == (Parser(if v == 0 then Trailer else ChunkData(v), 0), [ChunkHeader(v)])
  {
    var v, q := Value(16, ds), Run(Fresh, Line(c)).0;
    ParamsRun(c, ds);
    RunConcat(Fresh, Line(c), [CR]);
    RunOne(q, CR);
    var p := Parser(ChunkAlmost(v), |Line(c)| + 1);
    assert Run(Fresh, Line(c) + [CR]) == (p, []);
    RunConcat(Fresh, Line(c) + [CR], [LF]);
    RunOne(p, LF);
    assert Line(c) + [CR] + [LF] == Head(c);
  }

  /** The bytes of a chunk's data, as many as were announced. */
  lemma {:induction false} DataBytes(n: nat, bs: seq<Byte>)
    requires 0 < |bs| <= n
    ensures Run(Parser(ChunkData(n), 0), bs)
         == (Parser(if |bs| == n then ChunkDataAlmost else ChunkData(n - |bs|), 0), Bytes(bs))
  {
    BytesConcat(DropLast(bs), [Last(bs)]);
    assert DropLast(bs) + [Last(bs)] == bs && Bytes([Last(bs)]) == [BodyByte(Last(bs))];
    if |bs| > 1 {
      DataBytes(n, DropLast(bs));
    } else {
      assert DropLast(bs) == [] && Bytes(DropLast(bs)) == [];
    }
  }

  /** A body of known length: its bytes are reported, and the message is complete with the last. */
  lemma {:induction false} IdentityBytes(n: nat, r: nat, bs: seq<Byte>)
    requires 0 < |bs| <= n
    ensures Run(Parser(Identity(n), r), bs)
         == if |bs| == n then (Parser(Complete, r), Bytes(bs) + [MessageComplete])
            else (Parser(Identity(n - |bs|), r), Bytes(bs))
  {
    BytesConcat(DropLast(bs), [Last(bs)]);
    assert DropLast(bs) + [Last(bs)] == bs && Bytes([Last(bs)]) == [BodyByte(Last(bs))];
    if |bs| > 1 {
      IdentityBytes(n, r, DropLast(bs));
    } else {
      assert DropLast(bs) == [] && Bytes(DropLast(bs)) == [];
    }
    var told := Bytes(DropLast(bs));
    assert told + [BodyByte(Last(bs)), MessageComplete] == told + [BodyByte(Last(bs))] + [MessageComplete];
  }

  /** A body that ends with the stream: all its bytes are reported. */
  lemma {:induction false} EofBytes(r: nat, bs: seq<Byte>)
    ensures Run(Parser(IdentityEof, r), bs) == (Parser(IdentityEof, r), Bytes(bs))
  {
    if bs == [] {
      assert Bytes(bs) == [];
    } else {
      EofBytes(r, DropLast(bs));
      BytesConcat(DropLast(bs), [Last(bs)]);
      assert DropLast(bs) + [Last(bs)] == bs && Bytes([Last(bs)]) == [BodyByte(Last(bs))];
    }
  }

  /** One chunk: its size, its data and its end are reported, and the next one may start. */
  lemma ChunkRuns(c: Chunk)
    requires IsChunk(c) && c.data != []
    ensures Run(Fresh, Wire(c)) == (Fresh, Told(c))
  {
    var ds :| IsSize(c, ds) && Value(16, ds) == |c.data|;
    var n := |c.data|;
    HeadRun(c, ds);
    DataBytes(n, c.data);
    RunConcat(Fresh, Head(c), c.data);
    var p, told := Parser(ChunkDataAlmost, 0), [ChunkHeader(n)] + Bytes(c.data);
    assert Run(Fresh, Head(c) + c.data) == (p, told);
    RunOne(p, CR);
    RunOne(Parser(ChunkDataDone, 0), LF);
    RunConcat(p, [CR], [LF]);
    assert Run(p, [CR] + [LF]).1 == [ChunkComplete];
    assert [CR] + [LF] == [CR, LF];
    RunConcat(Fresh, Head(c) + c.data, [CR, LF]);
  }

  lemma {:induction false} ChunksRun(cs: seq<Chunk>)
    requires AreChunks(cs)
    ensures Run(Fresh, Wires(cs)) == (Fresh, AllTold(cs))
  {
    if cs != [] {
      ChunksRun(DropLast(cs));
      ChunkRuns(Last(cs));
      RunConcat(Fresh, Wires(DropLast(cs)), Wire(Last(cs)));
    }
  }

  lemma {:induction false} TrailerStays(p: Parser, bs: seq<Byte>)
    requires p.state.Trailer?
    ensures Run(p, bs) == (p, [])
  {
    if bs != [] {
      TrailerStays(p, DropLast(bs));
      assert Step(p, Last(bs)) == (p, []) && Run(p, bs).1 == [] + [];
    }
  }

  /** A chunked body: the data of all its chunks is reported, in order and nothing else, and the
      parser is in the trailer after the chunk of size zero, whatever follows. */
  lemma BodyRuns(cs: seq<Chunk>, end: Chunk, rest: seq<Byte>)
    requires IsBody(cs, end)
    ensures Run(Fresh, Wires(cs) + Head(end) + rest) == (Parser(Trailer, 0), AllTold(cs) + [ChunkHeader(0)])
  {
    var ds :| IsSize(end, ds) && Value(16, ds) == |end.data|;
    ChunksRun(cs);
    HeadRun(end, ds);
    RunConcat(Fresh, Wires(cs), Head(end));
    TrailerStays(Parser(Trailer, 0), rest);
    RunConcat(Fresh, Wires(cs) + Head(end), rest);
    assert AllTold(cs) + [ChunkHeader(0)] + [] == AllTold(cs) + [ChunkHeader(0)];
  }

  /** The same, however the stream is cut into reads. */
  lemma BodyArrives(cs: seq<Chunk>, end: Chunk, rest: seq<Byte>, pieces: seq<seq<Byte>>)
    requires IsBody(cs, end) && Flat(pieces) == Wires(cs) + Head(end) + rest
    ensures Pieces(Fresh, pieces) == (Parser(Trailer, 0), AllTold(cs) + [ChunkHeader(0)])
  {
    BodyRuns(cs, end, rest);
    MarkedFollows(Fresh, Flat(pieces));
    CutsAgree(Fresh, pieces);
  }

  /** The bytes among the reports. */
  function Payload(told: seq<Report>): (r: seq<Byte>) {
    if told == [] then []
    else Payload(DropLast(told)) + if Last(told).BodyByte? then [Last(told).b] else []
  }

  lemma {:induction false} PayloadConcat(a: seq<Report>, b: seq<Report>)
    ensures Payload(a + b) == Payload(a) + Payload(b)
  {
    if b == [] {
      assert a + b == a;
    } else {
      PayloadConcat(a, DropLast(b));
      assert DropLast(a + b) == a + DropLast(b) && Last(a + b) == Last(b);
    }
  }

  lemma {:induction false} PayloadBytes(bs: seq<Byte>)
    ensures Payload(Bytes(bs)) == bs
  {
    if bs != [] {
      PayloadBytes(DropLast(bs));
      assert DropLast(Bytes(bs)) == Bytes(DropLast(bs)) && Last(Bytes(bs)) == BodyByte(Last(bs));
    }
  }

  function Data(cs: seq<Chunk>): (r: seq<Byte>) {
    if cs == [] then [] else Data(DropLast(cs)) + Last(cs).data
  }

  lemma OnePayload(r: Report)
    ensures Payload([r]) == if r.BodyByte? then [r.b] else []
  {
    assert DropLast([r]) == [] && Payload([]) == [];
  }

  /** The reported bytes are the data of the chunks, one after the other. */
  lemma {:induction false} PayloadIsData(cs: seq<Chunk>)
    ensures Payload(AllTold(cs)) == Data(cs)
  {
    if cs != [] {
      var c := Last(cs);
      PayloadIsData(DropLast(cs));
      PayloadBytes(c.data);
      OnePayload(ChunkHeader(|c.data|));
      OnePayload(ChunkComplete);
      PayloadConcat([ChunkHeader(|c.data|)], Bytes(c.data));
      PayloadConcat([ChunkHeader(|c.data|)] + Bytes(c.data), [ChunkComplete]);
      PayloadConcat(AllTold(DropLast(cs)), Told(c));
    }
  }

  /** Where a parser stands that has read `part` of a chunk: `c` is the chunk as far as it is
      there, with the values `ds` of its digits. In the trailer, `c.data` is what has followed. */
  predicate Partly(p: Parser, c: Chunk, ds: seq<nat>, part: seq<Byte>) {
    match p.state
    case ChunkStart => part == [] && p.nread == 0
    case ChunkSize(len) => InSize(p, c, ds, part, len) && part == Line(c) && c.params == []
    case ChunkParams(len) => InSize(p, c, ds, part, len) && part == Line(c) && c.params != []
    case ChunkAlmost(len) => InSize(p, c, ds, part, len) && part == Line(c) + [CR]
    case ChunkData(n) => InData(p, c, ds) && part == Head(c) + c.data && 0 < n == Value(16, ds) - |c.data|
    case ChunkDataAlmost => InData(p, c, ds) && part == Head(c) + c.data && Whole(c, ds)
    case ChunkDataDone => InData(p, c, ds) && part == Head(c) + c.data + [CR] && Whole(c, ds)
    case Trailer => InData(p, c, ds) && part == Head(c) + c.data && Value(16, ds) == 0
    case Failed(_) => true
    case _ => false
  }

  predicate InSize(p: Parser, c: Chunk, ds: seq<nat>, part: seq<Byte>, len: nat) {
    IsSize(c, ds) && Value(16, ds) == len && p.nread == |part| <= HTTP_MAX_HEADER_SIZE
  }

  predicate InData(p: Parser, c: Chunk, ds: seq<nat>) {
    IsSize(c, ds) && |Line(c)| + 2 <= HTTP_MAX_HEADER_SIZE && p.nread == 0
  }

  predicate Whole(c: Chunk, ds: seq<nat>) {
    c.data != [] && Value(16, ds) == |c.data|
  }

  lemma FirstDigit(b: Byte) returns (c: Chunk, ds: seq<nat>)
    ensures Partly(Step(Fresh, b).0, c, ds, [b])
  {
    c, ds := Chunk([b], [], []), [if Unhex(b).Some? then Unhex(b).value else 0];
    assert Line(c) == [b];
    if Unhex(b).Some? {
      assert DropLast(ds) == [] && Last(ds) == ds[0] && Value(16, []) == 0;
    }
  }

  lemma NextDigit(c: Chunk, ds: seq<nat>, b: Byte)
    requires IsSize(c, ds) && c.params == [] && Unhex(b).Some? && Value(16, ds) <= Limit(16)
    ensures var d := Unhex(b).value;
            && IsSize(c.(digits := c.digits + [b]), ds + [d])
            && Value(16, ds + [d]) == 16 * Value(16, ds) + d
  {
    var d := Unhex(b).value;
    assert DropLast(ds + [d]) == ds && Last(ds + [d]) == d;
    LengthIsValue(16, ds);
  }

  /** Another byte of the size line. */
  lemma SizePartly(p: Parser, c: Chunk, ds: seq<nat>, part: seq<Byte>, b: Byte)
    returns (c1: Chunk, ds1: seq<nat>)
    requires Partly(p, c, ds, part) && (p.state.ChunkSize? || p.state.ChunkParams?)
    ensures Partly(Step(p, b).0, c1, ds1, part + [b]) && Step(p, b).1 == []
  {
    c1, ds1 := c, ds;
    if b == CR || Step(p, b).0.state.Failed? {
    } else if p.state.ChunkSize? && Unhex(b).Some? {
      NextDigit(c, ds, b);
      c1, ds1 := c.(digits := c.digits + [b]), ds + [Unhex(b).value];
      assert Line(c1) == part + [b];
    } else {
      c1 := c.(params := c.params + [b]);
      assert Line(c1) == part + [b];
    }
  }

  /** The end of the size line, and the data. */
  lemma DataPartly(p: Parser, c: Chunk, ds: seq<nat>, part: seq<Byte>, b: Byte) returns (c1: Chunk)
    requires Partly(p, c, ds, part)
    requires p.state.ChunkAlmost? || p.state.ChunkData? || p.state.ChunkDataAlmost? || p.state.Trailer?
    ensures Partly(Step(p, b).0, c1, ds, part + [b])
    ensures c1.digits == c.digits
    ensures p.state.ChunkAlmost? ==> c1.data == []
    ensures c1.data == if p.state.ChunkAlmost? then [] else if p.state.ChunkDataAlmost? then c.data else c.data + [b]
  {
    if p.state.ChunkAlmost? {
      c1 := c.(data := []);
      assert Line(c) + [CR] + [LF] == Head(c1) + c1.data;
    } else if p.state.ChunkDataAlmost? {
      c1 := c;
    } else {
      c1 := c.(data := c.data + [b]);
      assert Head(c) + c.data + [b] == Head(c1) + c1.data;
    }
  }

  lemma NextPartly(p: Parser, c: Chunk, ds: seq<nat>, part: seq<Byte>, b: Byte)
    returns (c1: Chunk, ds1: seq<nat>)
    requires Partly(p, c, ds, part) && !(p.state.ChunkDataDone? && b == LF)
    ensures Partly(Step(p, b).0, c1, ds1, part + [b])
  {
    c1, ds1 := c, ds;
    if p.state.ChunkStart? {
      c1, ds1 := FirstDigit(b);
      assert p == Fresh && part + [b] == [b];
    } else if p.state.ChunkSize? || p.state.ChunkParams? {
      c1, ds1 := SizePartly(p, c, ds, part, b);
    } else if !p.state.ChunkDataDone? && !p.state.Failed? {
      c1 := DataPartly(p, c, ds, part, b);
    }
  }

  lemma LastPartly(p: Parser, c: Chunk, ds: seq<nat>, part: seq<Byte>)
    requires Partly(p, c, ds, part) && p.state.ChunkDataDone?
    ensures Step(p, LF).0 == Fresh && part + [LF] == Wire(c) && IsChunk(c) && c.data != []
  {
    assert Head(c) + c.data + [CR] + [LF] == Wire(c);
  }

  lemma WiresNext(cs: seq<Chunk>, c: Chunk)
    ensures Wires(cs + [c]) == Wires(cs) + Wire(c) + []
  {
    assert DropLast(cs + [c]) == cs && Last(cs + [c]) == c;
  }

  /** The other direction: what the parser has accepted are chunks with data, and a part of the
      next one. */
  lemma {:induction false} ChunksOf(bs: seq<Byte>)
    returns (cs: seq<Chunk>, c: Chunk, ds: seq<nat>, part: seq<Byte>)
    ensures var p := Run(Fresh, bs).0;
            bs == Wires(cs) + part && Partly(p, c, ds, part) && AreChunks(cs)
  {
    if bs == [] {
      cs, c, ds, part := [], Chunk([], [], []), [], [];
    } else {
      var b, q := Last(bs), Run(Fresh, DropLast(bs)).0;
      cs, c, ds, part := ChunksOf(DropLast(bs));
      assert bs == DropLast(bs) + [b] && bs == Wires(cs) + (part + [b]);
      if q.state.ChunkDataDone? && b == LF {
        LastPartly(q, c, ds, part);
        WiresNext(cs, c);
        cs, part := cs + [c], [];
      } else {
        c, ds := NextPartly(q, c, ds, part, b);
        part := part + [b];
      }
    }
  }

  /** What is wrong with a byte after `part` of a chunk: the size line is too long; its number is
      too large; it is not a number; or a line end is not where it must be. */
  predicate Wrong(e: Error, c: Chunk, ds: seq<nat>, part: seq<Byte>, b: Byte) {
    match e
    case HEADER_OVERFLOW => |part| == HTTP_MAX_HEADER_SIZE && (part == Line(c) || part == Line(c) + [CR])
    case INVALID_CONTENT_LENGTH => part == c.digits && Unhex(b).Some? && Length(16, ds + [Unhex(b).value]).None?
    case INVALID_CHUNK_SIZE => Unhex(b).None? && (part == [] || (part == c.digits && b !in {CR, 59, 32}))
    case STRICT_FAILED =>
      || (part == Line(c) + [CR] && b != LF)
      || (part == Head(c) + c.data && Whole(c, ds) && b != CR)
      || (part == Head(c) + c.data + [CR] && Whole(c, ds) && b != LF)
  }

  /** The error names what is wrong. */
  lemma RefusedBecause(p: Parser, c: Chunk, ds: seq<nat>, part: seq<Byte>, b: Byte)
    requires Partly(p, c, ds, part) && !p.state.Failed? && Step(p, b).0.state.Failed?
    ensures Wrong(Step(p, b).0.state.error, c, ds, part, b)
  {
    if p.state.ChunkSize? && Unhex(b).Some? {
      var d := Unhex(b).value;
      assert DropLast(ds + [d]) == ds && Last(ds + [d]) == d;
      LengthIsValue(16, ds);
    }
  }

  /** A chunked body is accepted if and only if it is one: chunks with data, each with its length
      in front, and one of size zero. */
  lemma AcceptsBodies(bs: seq<Byte>)
    ensures Run(Fresh, bs).0.state.Trailer? <==>
            exists cs, end, rest :: IsBody(cs, end) && bs == Wires(cs) + Head(end) + rest
  {
    if Run(Fresh, bs).0.state.Trailer? {
      var cs, c, ds, part := ChunksOf(bs);
      var end := c.(data := []);
      assert IsSize(end, ds) && Value(16, ds) == |end.data|;
      assert IsBody(cs, end) && bs == Wires(cs) + Head(end) + c.data;
    } else if cs, end, rest :| IsBody(cs, end) && bs == Wires(cs) + Head(end) + rest {
      BodyRuns(cs, end, rest);
    }
  }

  // ---------------------------------------------------------------- the loop

  /** The lengths are never zero where the parser counts them down. */
  predicate Sane(p: Parser) {
    (p.state.Identity? ==> p.state.left > 0) && (p.state.ChunkData? ==> p.state.left > 0)
  }

  lemma StepSane(p: Parser, b: Byte)
    requires Sane(p)
    ensures Sane(Step(p, b).0)
  {
  }

  /** Taking several bytes of a chunk, or of a body, at once. */
  lemma {:induction false} DataRun(m: Marked, bs: seq<Byte>)
    requires m.parser.state.ChunkData? && 0 < |bs| <= m.parser.state.left
    ensures var n := m.parser.state.left - |bs|;
            MarkedRun(m, bs) == m.(parser := m.parser.(state := if n == 0 then ChunkDataAlmost else ChunkData(n)),
                                   pending := m.pending + bs)
  {
    if |bs| > 1 {
      DataRun(m, DropLast(bs));
      assert m.pending + DropLast(bs) + [Last(bs)] == m.pending + bs;
    } else {
      assert DropLast(bs) == [] && [Last(bs)] == bs;
    }
  }

  lemma {:induction false} IdentityRun(m: Marked, bs: seq<Byte>)
    requires m.parser.state.Identity? && 0 < |bs| <= m.parser.state.left
    ensures var n := m.parser.state.left - |bs|;
            MarkedRun(m, bs) ==
              if n == 0
              then Marked(m.parser.(state := Complete), [], m.reports + Bytes(m.pending + bs) + [MessageComplete])
              else m.(parser := m.parser.(state := Identity(n)), pending := m.pending + bs)
  {
    if |bs| > 1 {
      IdentityRun(m, DropLast(bs));
      assert m.pending + DropLast(bs) + [Last(bs)] == m.pending + bs;
    } else {
      assert DropLast(bs) == [] && [Last(bs)] == bs;
    }
  }

  lemma {:induction false} EofRun(m: Marked, bs: seq<Byte>)
    requires m.parser.state.IdentityEof?
    ensures MarkedRun(m, bs) == m.(pending := m.pending + bs)
  {
    if bs == [] {
      assert m.pending + bs == m.pending;
    } else {
      EofRun(m, DropLast(bs));
      assert m.pending + DropLast(bs) + [Last(bs)] == m.pending + bs;
    }
  }

  /** Outside the body the remaining bytes are not this model's. */
  lemma {:induction false} OutsideRun(m: Marked, bs: seq<Byte>)
    requires m.parser.state.Complete? || m.parser.state.Trailer? || m.parser.state.Failed?
    ensures MarkedRun(m, bs) == m
  {
    if bs != [] {
      OutsideRun(m, DropLast(bs));
      assert m.reports + [] == m.reports;
    }
  }

  /** The position of the loop: the mark is behind it, if it is set. */
  datatype Cursor = Cursor(parser: Parser, i: nat, mark: Option<nat>, log: seq<Report>)

  predicate Placed(c: Cursor, data: seq<Byte>) {
    c.i <= |data| && (c.mark.Some? ==> c.mark.value < c.i) && Sane(c.parser)
  }

  function Behind(c: Cursor, data: seq<Byte>): (bs: seq<Byte>)
    requires Placed(c, data)
  {
    if c.mark.None? then [] else data[c.mark.value..c.i]
  }

  /** The loop is where the marks say; after an error the mark does not matter any more. */
  predicate AtMark(c: Cursor, data: seq<Byte>, m: Marked)
    requires Placed(c, data)
  {
    c.parser == m.parser && c.log == m.reports && (!c.parser.state.Failed? ==> Behind(c, data) == m.pending)
  }

  /** The body states take as many bytes as there are. */
  function Taken(c: Cursor, data: seq<Byte>): (n: nat)
    requires Placed(c, data) && c.i < |data|
    requires c.parser.state.Identity? || c.parser.state.ChunkData?
    ensures 0 < n <= |data| - c.i && n <= c.parser.state.left
  {
    Min(c.parser.state.left, |data| - c.i)
  }

  function From(c: Cursor): (k: nat) {
    if c.mark.Some? then c.mark.value else c.i
  }

  lemma BehindGrows(c: Cursor, data: seq<Byte>, j: nat)
    requires Placed(c, data) && c.i < j <= |data|
    ensures From(c) < j && Behind(c, data) + data[c.i..j] == data[From(c)..j]
  {
  }

  method TakeChunkData(c: Cursor, data: seq<Byte>, ghost m: Marked) returns (r: Cursor)
    requires Placed(c, data) && c.i < |data| && AtMark(c, data, m) && c.parser.state.ChunkData?
    ensures c.i < r.i && Placed(r, data) && AtMark(r, data, MarkedRun(m, data[c.i..r.i]))
  {
    var n := Taken(c, data);
    var left, j := c.parser.state.left - n, c.i + n;
    DataRun(m, data[c.i..j]);
    BehindGrows(c, data, j);
    r := Cursor(c.parser.(state := if left == 0 then ChunkDataAlmost else ChunkData(left)), j, Some(From(c)), c.log);
    KeptBack(c, r, data, m, MarkedRun(m, data[c.i..j]));
  }

  /** Some bytes have been taken and are kept back. */
  lemma KeptBack(c: Cursor, r: Cursor, data: seq<Byte>, m: Marked, n: Marked)
    requires Placed(c, data) && Placed(r, data) && AtMark(c, data, m) && c.i < r.i && !c.parser.state.Failed?
    requires r.mark == Some(From(c)) && r.log == c.log && r.parser == n.parser
    requires n.reports == m.reports && n.pending == m.pending + data[c.i..r.i]
    ensures AtMark(r, data, n)
  {
    BehindGrows(c, data, r.i);
  }

  method TakeIdentity(c: Cursor, data: seq<Byte>, ghost m: Marked) returns (r: Cursor)
    requires Placed(c, data) && c.i < |data| && AtMark(c, data, m) && c.parser.state.Identity?
    ensures c.i < r.i && Placed(r, data) && AtMark(r, data, MarkedRun(m, data[c.i..r.i]))
  {
    var n := Taken(c, data);
    var left, j := c.parser.state.left - n, c.i + n;
    IdentityRun(m, data[c.i..j]);
    BehindGrows(c, data, j);
    if left == 0 {
      r := Cursor(c.parser.(state := Complete), j, None, c.log + Bytes(data[From(c)..j]) + [MessageComplete]);
    } else {
      r := Cursor(c.parser.(state := Identity(left)), j, Some(From(c)), c.log);
      KeptBack(c, r, data, m, MarkedRun(m, data[c.i..j]));
    }
  }

  method TakeRest(c: Cursor, data: seq<Byte>, ghost m: Marked) returns (r: Cursor)
    requires Placed(c, data) && c.i < |data| && AtMark(c, data, m) && c.parser.state.IdentityEof?
    ensures c.i < r.i && Placed(r, data) && AtMark(r, data, MarkedRun(m, data[c.i..r.i]))
  {
    EofRun(m, data[c.i..|data|]);
    BehindGrows(c, data, |data|);
    r := Cursor(c.parser, |data|, Some(From(c)), c.log);
    KeptBack(c, r, data, m, MarkedRun(m, data[c.i..|data|]));
  }

  predicate InBody(s: State) {
    s.Identity? || s.IdentityEof? || s.ChunkData?
  }

  /** One byte in any other state. */
  method TakeByte(c: Cursor, data: seq<Byte>, ghost m: Marked) returns (r: Cursor)
    requires Placed(c, data) && c.i < |data| && AtMark(c, data, m) && MarkOk(m)
    requires !InBody(c.parser.state) && !c.parser.state.Failed?
    ensures c.i < r.i && Placed(r, data) && AtMark(r, data, MarkedRun(m, data[c.i..r.i]))
  {
    var b := data[c.i];
    var s := Step(c.parser, b);
    StepSane(c.parser, b);
    assert data[c.i..c.i + 1] == [b] && DropLast([b]) == [] && MarkedRun(m, []) == m;
    if c.parser.state.ChunkDataAlmost? && !s.0.state.Failed? {
      r := Cursor(s.0, c.i + 1, None, c.log + Bytes(Behind(c, data)));
    } else {
      r := Cursor(s.0, c.i + 1, if s.0.state.Failed? then c.mark else None, c.log + s.1);
      assert c.log + [] == c.log;
    }
  }

  /** One turn of the loop. */
  method Turn(c: Cursor, data: seq<Byte>, ghost m: Marked) returns (r: Cursor)
    requires Placed(c, data) && c.i < |data| && AtMark(c, data, m) && MarkOk(m) && !c.parser.state.Failed?
    ensures c.i < r.i && Placed(r, data) && AtMark(r, data, MarkedRun(m, data[c.i..r.i]))
  {
    if c.parser.state.ChunkData? {
      r := TakeChunkData(c, data, m);
    } else if c.parser.state.Identity? {
      r := TakeIdentity(c, data, m);
    } else if c.parser.state.IdentityEof? {
      r := TakeRest(c, data, m);
    } else {
      r := TakeByte(c, data, m);
    }
  }

  lemma Further(start: Marked, data: seq<Byte>, k: nat, i: nat)
    requires k <= i <= |data|
    ensures MarkedRun(MarkedRun(start, data[..k]), data[k..i]) == MarkedRun(start, data[..i])
  {
    assert data[..i] == data[..k] + data[k..i];
    MarkedConcat(start, data[..k], data[k..i]);
  }

  /** `http_parser_execute` in the body states, on a block that is not empty. */
  method Execute(p: Parser, data: seq<Byte>) returns (q: Parser, log: seq<Report>)
    requires data != [] && Sane(p)
    ensures (q, log) == Block(p, data)
  {
    ghost var start := Marked(p, [], []);
    var c := Cursor(p, 0, None, []);
    assert data[..0] == [];
    while c.i < |data| && !Outside(c.parser.state)
      invariant Placed(c, data) && AtMark(c, data, MarkedRun(start, data[..c.i]))
      decreases |data| - c.i
    {
      ghost var k := c.i;
      MarkedFollows(p, data[..k]);
      c := Turn(c, data, MarkedRun(start, data[..k]));
      Further(start, data, k, c.i);
    }
    Leaves(p, data, c.i);
    q := c.parser;
    log := Leftover(c, data, MarkedRun(start, data));
  }

  /** The callback for the bytes that are still behind the mark when the block ends. */
  method Leftover(c: Cursor, data: seq<Byte>, ghost m: Marked) returns (log: seq<Report>)
    requires Placed(c, data) && AtMark(c, data, m)
    ensures log == m.reports + if m.parser.state.Failed? then [] else Bytes(m.pending)
  {
    log := c.log;
    assert c.log + [] == c.log && Bytes([]) == [];
    if !c.parser.state.Failed? && c.mark.Some? {
      log := log + Bytes(data[c.mark.value..c.i]);
    }
  }

  predicate Outside(s: State) {
    s.Complete? || s.Trailer? || s.Failed?
  }

  lemma Leaves(p: Parser, data: seq<Byte>, i: nat)
    requires i <= |data| && (i == |data| || Outside(MarkedRun(Marked(p, [], []), data[..i]).parser.state))
    ensures MarkedRun(Marked(p, [], []), data) == MarkedRun(Marked(p, [], []), data[..i])
  {
    var start := Marked(p, [], []);
    if i == |data| {
      assert data[..i] == data;
    } else {
      assert data == data[..i] + data[i..];
      MarkedConcat(start, data[..i], data[i..]);
      OutsideRun(MarkedRun(start, data[..i]), data[i..]);
    }
  }
}
