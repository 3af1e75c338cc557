/**
 How a worker A1 of one node reaches a worker B1 of another node through that node's
 manager B0 (src/core/sys_cmd.cpp, src/core/node_connection.cpp, src/core/network.cpp).

 A1 connects to B0 and asks for a worker by index. B0 acknowledges and hands the descriptor
 of the connection to that worker, which then reads the same byte stream where B0 stopped.
 A1 introduces itself and is connected when the worker's answer arrives. The model follows
 the bytes of one such connection: every send and every read may move any part of them, the
 workers come and go, and each party may give up at any time.
 */
module Handshake {
  import opened Common
  import opened ProtoCodec
  import opened ServerLoop

  const CMD_REQ_CONNECT_TO_WORKER := 21
  const CMD_RSP_CONNECT_TO_WORKER := 22
  const CMD_REQ_TELL_WORKER := 23
  const CMD_RSP_TELL_WORKER := 24

  /** The messages of one handshake, and what protobuf makes of message bodies: the worker
      index a request asks for, whether a message has a result, and whether its data parses
      as a node description. */
  datatype Config = Config(
    wire: Wire, after: seq<Byte>,
    connect: Msg, accept: Msg, reject: Msg, tell: Msg, answer: Msg, refusal: Msg -> Msg,
    index: Msg -> int, hasResult: Msg -> bool, isNode: Msg -> bool)

  predicate Sendable(m: Msg, cmd: int, c: Config) {
    m.head.cmd == cmd && WellFormed(m, c.wire)
  }

  predicate ConfigOk(c: Config) {
    && HEAD_LEN <= |c.after|
    && Sendable(c.connect, CMD_REQ_CONNECT_TO_WORKER, c)
    && Sendable(c.accept, CMD_RSP_CONNECT_TO_WORKER, c) && c.hasResult(c.accept)
    && Sendable(c.reject, CMD_RSP_CONNECT_TO_WORKER, c) && c.hasResult(c.reject)
    && Sendable(c.tell, CMD_REQ_TELL_WORKER, c) && c.isNode(c.tell)
    && Sendable(c.answer, CMD_RSP_TELL_WORKER, c) && c.hasResult(c.answer) && c.isNode(c.answer)
  }

  function Frame(m: Msg, c: Config): (b: seq<Byte>) {
    if HEAD_LEN <= |c.after| then Encode(m, c.after) else []
  }

  /** The manager's side: reading requests, acknowledging one, handing the descriptor over to a
      channel that it has looked up, which is gone when the worker is not `live` any more, or
      done with the connection. */
  datatype Manager =
    | Reading(conn: Conn)
    | Acking(pending: seq<Byte>, dest: Option<int>)
    | Sending(index: int, live: bool)
    | Gone

  datatype Worker = Nobody | Holding(index: int, conn: Conn, pending: seq<Byte>)

  /** `toB` and `toA` are the bytes inside the socket. Each live worker has a channel from the
      manager; an entry is true if it carries this connection's descriptor. Four fields record
      what has happened: the bytes the manager has read, the acknowledgements A1 has handled, and
      the workers that received the descriptor or handled the TELL. `infos` is the size of the
      manager's table of workers. */
  datatype World = World(
    a: Conn, aPending: seq<Byte>, toB: seq<Byte>, toA: seq<Byte>,
    m: Manager, channels: map<int, seq<bool>>, w: Worker,
    mRead: seq<Byte>, heard: nat, took: seq<int>, told: seq<int>, infos: nat)

  datatype Event =
    | AFlush(n: nat) | ARead(n: nat) | AStop
    | MRead(n: nat) | MFlush(n: nat) | MSend(full: bool, ok: bool) | MStop
    | WTake(i: int, room: bool) | WRead(n: nat) | WFlush(n: nat) | WStop
    | Spawn(i: int) | Die(i: int) | Other(i: int)

  /** After `send_connect_req_to_worker` has queued the request. */
  function Begin(c: Config, channels: map<int, seq<bool>>): (s: World) {
    World(Conn(CONNECTING, None), Frame(c.connect, c), [], [],
          Reading(Conn(CONNECTED, None)), channels, Nobody, [], 0, [], [], |channels|)
  }

  function Available(n: nat, q: seq<Byte>): (input: Input) {
    var k := Min(n, |q|);
    if k == 0 then Again else Bytes(q[..k])
  }

  // ------------------------------------------------------------------- A1

  function AfterAFlush(s: World, n: nat): (t: World) {
    var k := Min(n, |s.aPending|);
    if IsInvalid(s.a.state) then s
    else s.(aPending := s.aPending[k..], toB := s.toB + s.aPending[..k])
  }

  /** `handle_sys_message` and the handlers `on_rsp_connect_to_worker`, `on_rsp_tell_worker`;
      `check_rsp` asks only for a result, not for a successful one. */
  function AfterReply(s: World, m: Msg, c: Config): (t: World) {
    var stopped := s.(a := s.a.(state := SHUT));
    if m.head.cmd == CMD_RSP_CONNECT_TO_WORKER then
      if c.hasResult(m) then s.(aPending := s.aPending + Frame(c.tell, c), heard := s.heard + 1) else stopped
    else if m.head.cmd == CMD_RSP_TELL_WORKER then
      if c.hasResult(m) && c.isNode(m) then s.(a := s.a.(state := CONNECTED)) else stopped
    else stopped
  }

  function AfterARead(s: World, n: nat, c: Config): (t: World) {
    if s.a.state != CONNECTING || s.aPending != [] then s
    else
      var input := Available(n, s.toA);
      var r := ConnRead(s.a, input, c.wire);
      var read := s.(a := r.conn, toA := s.toA[Min(|Incoming(s.a, input, c.wire)|, |s.toA|)..]);
      if r.status == OK then AfterReply(read, r.msg.value, c)
      else if r.status == PAUSE then read
      else read.(a := r.conn.(state := SHUT))
  }

  // ------------------------------------------------------------------- B0

  /** `on_req_connect_to_worker` up to the acknowledgement; any other command is refused. */
  function AfterRequest(s: World, m: Msg, c: Config): (t: World) {
    if m.head.cmd == CMD_REQ_CONNECT_TO_WORKER then
      var i := c.index(m);
      if i == 0 || i > s.infos then s.(m := Acking(Frame(c.reject, c), None))
      else s.(m := Acking(Frame(c.accept, c), Some(i)))
    else s.(m := Acking(Frame(c.refusal(m), c), None))
  }

  function AfterMRead(s: World, n: nat, c: Config): (t: World) {
    if !s.m.Reading? then s
    else
      var input := Available(n, s.toB);
      var r, more := ConnRead(s.m.conn, input, c.wire), Incoming(s.m.conn, input, c.wire);
      var read := s.(toB := s.toB[Min(|more|, |s.toB|)..], mRead := s.mRead + more, m := Reading(r.conn));
      if r.status == OK then AfterRequest(read, r.msg.value, c)
      else if r.status == PAUSE then read
      else read.(m := Gone)
  }

  /** When the acknowledgement is sent, `get_worker_data_fd` finds the channel, or nothing. */
  function AfterMFlush(s: World, n: nat): (t: World) {
    if !s.m.Acking? then s
    else
      var k := Min(n, |s.m.pending|);
      var rest := s.m.pending[k..];
      var m := if rest != [] then Acking(rest, s.m.dest)
               else if s.m.dest.Some? && s.m.dest.value in s.channels then Sending(s.m.dest.value, true) else Gone;
      s.(m := m, toA := s.toA + s.m.pending[..k])
  }

  /** The transfer loop: `write_channel` until it is not full, or the channel is broken. */
  function AfterMSend(s: World, full: bool, ok: bool): (t: World) {
    if !s.m.Sending? then s
    else if !s.m.live || s.m.index !in s.channels then s.(m := Gone)
    else if full then s
    else if !ok then s.(m := Gone)
    else s.(m := Gone, channels := s.channels[s.m.index := s.channels[s.m.index] + [true]])
  }

  // ------------------------------------------------------------------- B1

  /** `on_handle_read_transfer_fd`. */
  function AfterWTake(s: World, i: int, room: bool): (t: World) {
    if i !in s.channels || s.channels[i] == [] then s
    else
      var popped := s.(channels := s.channels[i := s.channels[i][1..]]);
      if s.channels[i][0] && room then
        popped.(w := Holding(i, Conn(CONNECTED, None), []), took := s.took + [i])
      else popped
  }

  /** `on_req_tell_worker`. */
  function AfterTell(s: World, m: Msg, c: Config): (t: World)
    requires s.w.Holding?
  {
    if m.head.cmd == CMD_REQ_TELL_WORKER && c.isNode(m) then
      s.(w := s.w.(pending := Frame(c.answer, c)), told := s.told + [s.w.index])
    else s.(w := Nobody)
  }

  function AfterWRead(s: World, n: nat, c: Config): (t: World) {
    if !s.w.Holding? || s.w.pending != [] then s
    else
      var input := Available(n, s.toB);
      var r, more := ConnRead(s.w.conn, input, c.wire), Incoming(s.w.conn, input, c.wire);
      var read := s.(toB := s.toB[Min(|more|, |s.toB|)..], w := s.w.(conn := r.conn));
      if r.status == OK then AfterTell(read, r.msg.value, c)
      else if r.status == PAUSE then read
      else read.(w := Nobody)
  }

  function AfterWFlush(s: World, n: nat): (t: World) {
    if !s.w.Holding? then s
    else
      var k := Min(n, |s.w.pending|);
      s.(w := s.w.(pending := s.w.pending[k..]), toA := s.toA + s.w.pending[..k])
  }

  function Apply(s: World, e: Event, c: Config): (t: World) {
    match e
    case AFlush(n) => AfterAFlush(s, n)
    case ARead(n) => AfterARead(s, n, c)
    case AStop => if s.a.state == CONNECTING then s.(a := s.a.(state := SHUT)) else s
    case MRead(n) => AfterMRead(s, n, c)
    case MFlush(n) => AfterMFlush(s, n)
    case MSend(full, ok) => AfterMSend(s, full, ok)
    case MStop => s.(m := Gone)
    case WTake(i, room) => AfterWTake(s, i, room)
    case WRead(n) => AfterWRead(s, n, c)
    case WFlush(n) => AfterWFlush(s, n)
    case WStop => s.(w := Nobody)
    case Spawn(i) =>
      if 0 < i && i !in s.channels then s.(channels := s.channels[i := []], infos := s.infos + 1) else s
    case Die(i) => AfterDie(s, i)
    case Other(i) =>
      if i in s.channels then s.(channels := s.channels[i := s.channels[i] + [false]]) else s
  }

  /** A worker dies with its channel and the connections it holds; the manager's table of workers
      keeps it. */
  function AfterDie(s: World, i: int): (t: World) {
    s.(channels := s.channels - {i}, w := if s.w.Holding? && s.w.index == i then Nobody else s.w,
       m := if s.m.Sending? && s.m.index == i then Sending(i, false) else s.m)
  }

  // --------------------------------------------------------- the invariant

  /** The number of entries of a channel that carry the descriptor. */
  function Ours(q: seq<bool>): (n: nat) {
    if q == [] then 0 else (if q[0] then 1 else 0) + Ours(q[1..])
  }

  lemma {:induction false} OursAppend(q: seq<bool>, x: bool)
    ensures Ours(q + [x]) == Ours(q) + if x then 1 else 0
  {
    if q != [] {
      OursAppend(q[1..], x);
      assert (q + [x])[1..] == q[1..] + [x];
    } else {
      assert q + [x] == [x];
    }
  }

  /** An entry with the descriptor is in the channel of the requested worker, alone, and the
      descriptor is nowhere else. */
  predicate ChannelOk(s: World, i: int, c: Config)
    requires i in s.channels
  {
    && 0 < i
    && (Ours(s.channels[i]) != 0 ==>
          i == c.index(c.connect) && Ours(s.channels[i]) == 1 && s.m.Gone? && s.w.Nobody? && s.took == [])
  }

  predicate Custody(s: World, c: Config) {
    && (forall i :: i in s.channels ==> ChannelOk(s, i, c))
    && (s.m.Acking? && s.m.dest.Some? ==> s.m.dest.value == c.index(c.connect))
    && (s.m.Sending? ==> s.m.index == c.index(c.connect) && (s.m.live ==> s.m.index in s.channels))
    && (!s.m.Gone? ==> s.w.Nobody? && s.took == [])
    && (s.took == [] || (s.took == [c.index(c.connect)] && 0 < c.index(c.connect)))
    && (s.w.Holding? ==> s.w.index == c.index(c.connect) && s.took == [s.w.index] && s.w.conn.state == CONNECTED)
  }

  function MPending(m: Manager): (b: seq<Byte>) {
    if m.Acking? then m.pending else []
  }

  function WBuffer(w: Worker): (b: seq<Byte>) {
    if w.Holding? then Buffered(w.conn) else []
  }

  function WPending(w: Worker): (b: seq<Byte>) {
    if w.Holding? then w.pending else []
  }

  /** `b` is an unfinished read of frame `f`, and `rest` may follow. */
  predicate Partial(b: seq<Byte>, rest: seq<Byte>, f: seq<Byte>) {
    b + rest <= f && |b| < |f|
  }

  /** Nothing has been acknowledged: the request is on its way to the manager. */
  predicate Asking(s: World, c: Config) {
    && s.m.Reading? && s.m.conn.state == CONNECTED
    && s.heard == 0 && s.told == [] && s.toA == [] && Buffered(s.a) == []
    && Buffered(s.m.conn) == s.mRead
    && s.mRead + s.toB + s.aPending == Frame(c.connect, c) && |s.mRead| < |Frame(c.connect, c)|
  }

  predicate Hearing(b: seq<Byte>, rest: seq<Byte>, c: Config) {
    Partial(b, rest, Frame(c.accept, c)) || Partial(b, rest, Frame(c.reject, c))
  }

  /** The manager is done reading, and A1 has not seen the whole acknowledgement. */
  predicate Acked(s: World, c: Config) {
    && s.heard == 0 && s.told == [] && WPending(s.w) == [] && WBuffer(s.w) == []
    && s.toB + s.aPending == []
    && Hearing(Buffered(s.a), s.toA + MPending(s.m), c)
  }

  /** A1 has sent the TELL; the manager has no more bytes to send. */
  predicate Telling(s: World, c: Config) {
    && s.heard == 1 && s.told == [] && MPending(s.m) == [] && WPending(s.w) == []
    && s.toA == [] && Buffered(s.a) == []
    && (s.w.Holding? || s.took == [] ==>
          Partial(WBuffer(s.w), s.toB + s.aPending, Frame(c.tell, c)))
  }

  /** The worker has handled the TELL. */
  predicate Answered(s: World, c: Config) {
    && s.heard == 1 && s.told == s.took == [c.index(c.connect)] && MPending(s.m) == []
    && s.toB == [] && s.aPending == [] && WBuffer(s.w) == []
    && (s.a.state == CONNECTING ==>
          Partial(Buffered(s.a), s.toA + WPending(s.w), Frame(c.answer, c)))
  }

  predicate Stage(s: World, c: Config) {
    if s.m.Reading? then Asking(s, c)
    else if s.mRead != Frame(c.connect, c) then Abandoned(s, c)
    else if s.heard == 0 then Acked(s, c)
    else if s.told == [] then Telling(s, c)
    else Answered(s, c)
  }

  /** The manager dropped the connection before it had read the request. */
  predicate Abandoned(s: World, c: Config) {
    s.m.Gone? && s.heard == 0 && s.told == [] && s.toA == [] && Buffered(s.a) == [] && s.took == [] && s.w.Nobody?
    && (forall i :: i in s.channels ==> Ours(s.channels[i]) == 0)
  }

  predicate Inv(s: World, c: Config) {
    && s.a.state in {CONNECTING, CONNECTED, SHUT}
    && (s.a.state == CONNECTED ==> s.told != [])
    && s.mRead <= Frame(c.connect, c)
    && Custody(s, c)
    && Stage(s, c)
  }

  // ----------------------------------------------------------------- steps

  lemma DecodeUnfinished(m: Msg, after: seq<Byte>, k: nat, wire: Wire)
    requires HEAD_LEN <= |after| && WellFormed(m, wire) && k < |Encode(m, after)|
    ensures Decode(Encode(m, after)[..k], wire) == Pause
  {
    var e := Encode(m, after);
    HeadRoundTrip(m.head, after, wire);
    if HEAD_LEN <= k {
      assert e[..k][..HEAD_LEN] == HeadBytes(m.head, after);
    }
  }

  /** Reading part of a frame: the message comes out with its last byte. */
  lemma ReadsFrame(conn: Conn, n: nat, q: seq<Byte>, m: Msg, c: Config)
    requires HEAD_LEN <= |c.after| && WellFormed(m, c.wire)
    requires !IsInvalid(conn.state) && Partial(Buffered(conn), q, Frame(m, c))
    ensures var input := Available(n, q);
            var r, k := ConnRead(conn, input, c.wire), Min(n, |q|);
            && Incoming(conn, input, c.wire) == q[..k]
            && r.conn.state == conn.state
            && if Buffered(conn) + q[..k] == Frame(m, c)
               then r.status == OK && r.msg == Some(m) && Buffered(r.conn) == []
               else r.status == PAUSE && Buffered(r.conn) == Buffered(conn) + q[..k]
                    && Partial(Buffered(r.conn), q[k..], Frame(m, c))
  {
    var k, e, b := Min(n, |q|), Frame(m, c), Buffered(conn);
    var got := b + q[..k];
    DecodeUnfinished(m, c.after, |b|, c.wire);
    assert b == e[..|b|] by { assert b <= b + q; }
    assert got + q[k..] == b + q;
    assert got == e[..|got|];
    if got == e {
      DecodeEncode(m, c.after, [], c.wire);
      assert e + [] == e && e[|e|..] == [];
    } else {
      DecodeUnfinished(m, c.after, |got|, c.wire);
      if k == 0 {
        assert got == b;
      }
    }
  }

  lemma Shorter(b: seq<Byte>, rest: seq<Byte>, f: seq<Byte>, k: nat)
    requires Partial(b, rest, f) && k <= |rest|
    ensures Partial(b, rest[..k], f)
  {
    assert b + rest[..k] <= b + rest;
  }

  /** Moving the front of a send buffer into the socket. */
  lemma Moves(q: seq<Byte>, p: seq<Byte>, k: nat)
    requires k <= |p|
    ensures q + p[..k] + p[k..] == q + p
  {
    assert p == p[..k] + p[k..];
    assert q + p[..k] + p[k..] == q + (p[..k] + p[k..]);
  }

  lemma AFlushKeeps(s: World, n: nat, c: Config)
    requires ConfigOk(c) && Inv(s, c)
    ensures Inv(AfterAFlush(s, n), c)
  {
    var t, k := AfterAFlush(s, n), Min(n, |s.aPending|);
    forall i | i in t.channels ensures ChannelOk(t, i, c) {
      assert ChannelOk(s, i, c);
    }
    if !IsInvalid(s.a.state) {
      Moves(s.toB, s.aPending, k);
      assert s.mRead + t.toB + t.aPending == s.mRead + (t.toB + t.aPending);
      assert s.mRead + s.toB + s.aPending == s.mRead + (s.toB + s.aPending);
    }
  }

  /** A1 reads part of a frame, or all the rest of it. */
  lemma AReads(s: World, n: nat, m: Msg, c: Config)
    requires ConfigOk(c) && WellFormed(m, c.wire) && s.a.state == CONNECTING && s.aPending == []
    requires Partial(Buffered(s.a), s.toA, Frame(m, c))
    ensures var k, t := Min(n, |s.toA|), AfterARead(s, n, c);
            var conn := ConnRead(s.a, Available(n, s.toA), c.wire).conn;
            && conn.state == CONNECTING
            && if Buffered(s.a) + s.toA[..k] == Frame(m, c)
               then Buffered(conn) == [] && t == AfterReply(s.(a := conn, toA := s.toA[k..]), m, c)
               else && Buffered(conn) == Buffered(s.a) + s.toA[..k] && t == s.(a := conn, toA := s.toA[k..])
                    && Partial(Buffered(conn), s.toA[k..], Frame(m, c))
  {
    ReadsFrame(s.a, n, s.toA, m, c);
  }

  /** A1 gets the rest of a frame that `later` completes: it is the end of what is on the way. */
  lemma PartialStep(b: seq<Byte>, q: seq<Byte>, later: seq<Byte>, k: nat, f: seq<Byte>)
    requires Partial(b, q + later, f) && k <= |q|
    ensures Partial(b, q, f)
    ensures b + q[..k] == f ==> q[k..] == [] && later == []
    ensures b + q[..k] != f ==> Partial(b + q[..k], q[k..] + later, f)
  {
    assert (b + q[..k]) + (q[k..] + later) == b + (q + later) by {
      assert q == q[..k] + q[k..];
    }
    assert b + q <= b + (q + later);
  }

  lemma ChannelsSame(s: World, t: World, c: Config)
    requires Custody(s, c) && t.channels == s.channels && t.m == s.m && t.w == s.w && t.took == s.took
    ensures Custody(t, c)
  {
    forall i | i in t.channels ensures ChannelOk(t, i, c) {
      assert ChannelOk(s, i, c);
    }
  }

  /** Nothing is on its way to A1. */
  lemma AReadsNothing(s: World, n: nat, c: Config)
    requires ConfigOk(c) && s.a.state == CONNECTING && s.aPending == [] && s.toA == [] && Buffered(s.a) == []
    ensures exists conn: Conn {:trigger Buffered(conn)} ::
              conn.state == CONNECTING && Buffered(conn) == [] && AfterARead(s, n, c) == s.(a := conn)
  {
    AReads(s, n, c.answer, c);
    var conn := ConnRead(s.a, Available(n, s.toA), c.wire).conn;
    assert s.toA[0..] == s.toA;
  }

  lemma AReadKeepsAcked(s: World, n: nat, ack: Msg, c: Config)
    requires ConfigOk(c) && s.a.state == CONNECTING && s.aPending == []
    requires Custody(s, c) && !s.m.Reading? && s.mRead == Frame(c.connect, c) && Acked(s, c)
    requires ack in {c.accept, c.reject} && Partial(Buffered(s.a), s.toA + MPending(s.m), Frame(ack, c))
    ensures Inv(AfterARead(s, n, c), c)
  {
    var t, k := AfterARead(s, n, c), Min(n, |s.toA|);
    PartialStep(Buffered(s.a), s.toA, MPending(s.m), k, Frame(ack, c));
    AReads(s, n, ack, c);
    ChannelsSame(s, t, c);
    if Buffered(s.a) + s.toA[..k] == Frame(ack, c) {
      assert t.aPending == [] + Frame(c.tell, c) == Frame(c.tell, c);
      assert t.toB + t.aPending == Frame(c.tell, c);
    }
  }

  lemma AReadKeepsAnswered(s: World, n: nat, c: Config)
    requires ConfigOk(c) && s.a.state == CONNECTING && s.aPending == []
    requires Custody(s, c) && !s.m.Reading? && s.mRead == Frame(c.connect, c) && Answered(s, c)
    ensures Inv(AfterARead(s, n, c), c)
  {
    var t, k := AfterARead(s, n, c), Min(n, |s.toA|);
    PartialStep(Buffered(s.a), s.toA, WPending(s.w), k, Frame(c.answer, c));
    AReads(s, n, c.answer, c);
    ChannelsSame(s, t, c);
  }

  lemma AReadKeeps(s: World, n: nat, c: Config)
    requires ConfigOk(c) && Inv(s, c)
    ensures Inv(AfterARead(s, n, c), c)
  {
    if s.a.state == CONNECTING && s.aPending == [] {
      if s.toA == [] && Buffered(s.a) == [] {
        AReadsNothing(s, n, c);
        ChannelsSame(s, AfterARead(s, n, c), c);
      } else if s.heard == 0 {
        var ack := if Partial(Buffered(s.a), s.toA + MPending(s.m), Frame(c.accept, c)) then c.accept else c.reject;
        AReadKeepsAcked(s, n, ack, c);
      } else {
        AReadKeepsAnswered(s, n, c);
      }
    }
  }

  /** The manager reads part of the request, or the rest of it. */
  lemma MReads(s: World, n: nat, c: Config)
    requires ConfigOk(c) && s.m.Reading? && Asking(s, c)
    ensures var k, t := Min(n, |s.toB|), AfterMRead(s, n, c);
            var conn := ConnRead(s.m.conn, Available(n, s.toB), c.wire).conn;
            var read := s.(toB := s.toB[k..], mRead := s.mRead + s.toB[..k], m := Reading(conn));
            && conn.state == CONNECTED
            && if s.mRead + s.toB[..k] == Frame(c.connect, c)
               then t == AfterRequest(read, c.connect, c) && s.toB[k..] == [] && s.aPending == []
               else t == read && Buffered(conn) == s.mRead + s.toB[..k]
                    && |s.mRead + s.toB[..k]| < |Frame(c.connect, c)|
  {
    var k, f := Min(n, |s.toB|), Frame(c.connect, c);
    assert s.mRead + (s.toB + s.aPending) == s.mRead + s.toB + s.aPending;
    PartialStep(s.mRead, s.toB, s.aPending, k, f);
    ReadsFrame(s.m.conn, n, s.toB, c.connect, c);
  }

  lemma RequestKeeps(s: World, c: Config)
    requires ConfigOk(c) && s.m.Reading? && s.heard == 0 && s.told == [] && s.toA == [] && Buffered(s.a) == []
    requires s.toB == [] && s.aPending == [] && s.mRead == Frame(c.connect, c) && Custody(s, c)
    requires s.a.state in {CONNECTING, SHUT}
    ensures Inv(AfterRequest(s, c.connect, c), c)
  {
    var t := AfterRequest(s, c.connect, c);
    MReadCustody(s, t, c);
    var ack := if t.m.dest.Some? then c.accept else c.reject;
    assert [] + ([] + MPending(t.m)) == MPending(t.m);
    assert Partial(Buffered(t.a), t.toA + MPending(t.m), Frame(ack, c));
  }

  lemma MoreKeeps(s: World, k: nat, conn: Conn, c: Config)
    requires Inv(s, c) && s.m.Reading? && k <= |s.toB| && conn.state == CONNECTED
    requires Buffered(conn) == s.mRead + s.toB[..k] && |Buffered(conn)| < |Frame(c.connect, c)|
    ensures Inv(s.(toB := s.toB[k..], mRead := s.mRead + s.toB[..k], m := Reading(conn)), c)
  {
    var t := s.(toB := s.toB[k..], mRead := s.mRead + s.toB[..k], m := Reading(conn));
    MReadCustody(s, t, c);
    assert s.toB == s.toB[..k] + s.toB[k..];
    assert t.mRead + t.toB + t.aPending == s.mRead + s.toB + s.aPending;
    assert t.mRead <= t.mRead + t.toB + t.aPending;
  }

  lemma MReadKeeps(s: World, n: nat, c: Config)
    requires ConfigOk(c) && Inv(s, c)
    ensures Inv(AfterMRead(s, n, c), c)
  {
    if s.m.Reading? {
      var k := Min(n, |s.toB|);
      var conn := ConnRead(s.m.conn, Available(n, s.toB), c.wire).conn;
      MReads(s, n, c);
      if s.mRead + s.toB[..k] == Frame(c.connect, c) {
        var read := s.(toB := s.toB[k..], mRead := s.mRead + s.toB[..k], m := Reading(conn));
        MReadCustody(s, read, c);
        RequestKeeps(read, c);
      } else {
        MoreKeeps(s, k, conn, c);
      }
    }
  }

  lemma MReadCustody(s: World, t: World, c: Config)
    requires Custody(s, c) && s.m.Reading? && t.channels == s.channels && t.w == s.w && t.took == s.took
    requires t.m.Reading? || (t.m.Acking? && (t.m.dest.Some? ==> t.m.dest.value == c.index(c.connect)))
    ensures Custody(t, c)
  {
    forall i | i in t.channels ensures ChannelOk(t, i, c) {
      assert ChannelOk(s, i, c);
    }
  }

  lemma MFlushKeeps(s: World, n: nat, c: Config)
    requires ConfigOk(c) && Inv(s, c)
    ensures Inv(AfterMFlush(s, n), c)
  {
    if s.m.Acking? {
      var t, k := AfterMFlush(s, n), Min(n, |s.m.pending|);
      MFlushCustody(s, t, c);
      if s.heard == 0 {
        Moves(s.toA, s.m.pending, k);
      } else {
        assert s.m.pending == [];
        assert t.toA == s.toA;
      }
    }
  }

  lemma MFlushCustody(s: World, t: World, c: Config)
    requires Custody(s, c) && s.m.Acking? && t.channels == s.channels && t.w == s.w && t.took == s.took
    requires (t.m.Acking? && t.m.dest == s.m.dest) || t.m.Gone?
          || (t.m.Sending? && s.m.dest == Some(t.m.index) && t.m.index in s.channels)
    ensures Custody(t, c)
  {
    forall i | i in t.channels ensures ChannelOk(t, i, c) {
      assert ChannelOk(s, i, c);
    }
  }

  lemma MSendKeeps(s: World, full: bool, ok: bool, c: Config)
    requires ConfigOk(c) && Inv(s, c)
    ensures Inv(AfterMSend(s, full, ok), c)
  {
    if s.m.Sending? {
      var t := AfterMSend(s, full, ok);
      forall i | i in t.channels ensures ChannelOk(t, i, c) {
        assert ChannelOk(s, i, c);
        if s.m.index in s.channels {
          OursAppend(s.channels[s.m.index], true);
        }
      }
    }
  }

  lemma MStopKeeps(s: World, c: Config)
    requires ConfigOk(c) && Inv(s, c)
    ensures Inv(s.(m := Gone), c)
  {
    var t := s.(m := Gone);
    forall i | i in t.channels ensures ChannelOk(t, i, c) {
      assert ChannelOk(s, i, c);
    }
    assert s.toA + [] == (s.toA + MPending(s.m))[..|s.toA|];
    if !s.m.Reading? && s.mRead == Frame(c.connect, c) && s.heard == 0 {
      var ack := if Partial(Buffered(s.a), s.toA + MPending(s.m), Frame(c.accept, c)) then c.accept else c.reject;
      Shorter(Buffered(s.a), s.toA + MPending(s.m), Frame(ack, c), |s.toA|);
    }
  }

  lemma WTakeKeeps(s: World, i: int, room: bool, c: Config)
    requires ConfigOk(c) && Inv(s, c)
    ensures Inv(AfterWTake(s, i, room), c)
  {
    if i in s.channels && s.channels[i] != [] {
      var t := AfterWTake(s, i, room);
      assert ChannelOk(s, i, c);
      forall j | j in t.channels ensures ChannelOk(t, j, c) {
        assert ChannelOk(s, j, c);
      }
    }
  }

  lemma WReadKeeps(s: World, n: nat, c: Config)
    requires ConfigOk(c) && Inv(s, c)
    ensures Inv(AfterWRead(s, n, c), c)
  {
    if s.w.Holding? && s.w.pending == [] {
      var t, k, f := AfterWRead(s, n, c), Min(n, |s.toB|), Frame(c.tell, c);
      var later := if s.told == [] then s.aPending else [];
      assert Partial(WBuffer(s.w), s.toB + later, f);
      PartialStep(WBuffer(s.w), s.toB, later, k, f);
      ReadsFrame(s.w.conn, n, s.toB, c.tell, c);
      forall i | i in t.channels ensures ChannelOk(t, i, c) {
        assert ChannelOk(s, i, c);
      }
      if WBuffer(s.w) + s.toB[..k] == f {
        assert [] + ([] + Frame(c.answer, c)) == Frame(c.answer, c);
      }
    }
  }

  lemma WFlushKeeps(s: World, n: nat, c: Config)
    requires ConfigOk(c) && Inv(s, c)
    ensures Inv(AfterWFlush(s, n), c)
  {
    if s.w.Holding? {
      var t, k := AfterWFlush(s, n), Min(n, |s.w.pending|);
      forall i | i in t.channels ensures ChannelOk(t, i, c) {
        assert ChannelOk(s, i, c);
      }
      Moves(s.toA, s.w.pending, k);
      if s.w.pending == [] {
        assert t.toA == s.toA;
      }
    }
  }

  /** The worker lets go of the connection, or dies. */
  lemma WStopKeeps(s: World, c: Config)
    requires ConfigOk(c) && Inv(s, c)
    ensures Inv(s.(w := Nobody), c)
  {
    var t := s.(w := Nobody);
    forall i | i in t.channels ensures ChannelOk(t, i, c) {
      assert ChannelOk(s, i, c);
    }
    assert s.toA + [] == (s.toA + WPending(s.w))[..|s.toA|];
    if s.told != [] && s.a.state == CONNECTING {
      Shorter(Buffered(s.a), s.toA + WPending(s.w), Frame(c.answer, c), |s.toA|);
    }
  }

  /** Workers come and go, and other descriptors travel through their channels. */
  lemma ChannelsKeep(s: World, channels: map<int, seq<bool>>, c: Config)
    requires ConfigOk(c) && Inv(s, c)
    requires forall i :: i in channels ==>
               0 < i && Ours(channels[i]) == if i in s.channels then Ours(s.channels[i]) else 0
    requires s.m.Sending? && s.m.live ==> s.m.index in channels
    ensures Inv(s.(channels := channels), c)
  {
    var t := s.(channels := channels);
    forall i | i in t.channels ensures ChannelOk(t, i, c) {
      assert i in s.channels ==> ChannelOk(s, i, c);
    }
  }

  lemma OtherKeeps(s: World, i: int, c: Config)
    requires ConfigOk(c) && Inv(s, c) && i in s.channels
    ensures Inv(s.(channels := s.channels[i := s.channels[i] + [false]]), c)
  {
    OursAppend(s.channels[i], false);
    forall j | j in s.channels ensures 0 < j {
      assert ChannelOk(s, j, c);
    }
    ChannelsKeep(s, s.channels[i := s.channels[i] + [false]], c);
  }

  lemma InfosKeep(s: World, t: World, c: Config)
    requires Inv(s, c) && t == s.(infos := t.infos)
    ensures Inv(t, c)
  {
    forall i | i in t.channels ensures ChannelOk(t, i, c) {
      assert ChannelOk(s, i, c);
    }
  }

  lemma SpawnKeeps(s: World, i: int, c: Config)
    requires ConfigOk(c) && Inv(s, c) && 0 < i && i !in s.channels
    ensures Inv(s.(channels := s.channels[i := []], infos := s.infos + 1), c)
  {
    forall j | j in s.channels ensures 0 < j {
      assert ChannelOk(s, j, c);
    }
    var t := s.(infos := s.infos + 1);
    InfosKeep(s, t, c);
    ChannelsKeep(t, t.channels[i := []], c);
  }

  lemma LossKeeps(s: World, c: Config)
    requires Inv(s, c) && s.m.Sending?
    ensures Inv(s.(m := s.m.(live := false)), c)
  {
    var t := s.(m := s.m.(live := false));
    forall i | i in t.channels ensures ChannelOk(t, i, c) {
      assert ChannelOk(s, i, c);
    }
  }

  lemma DieKeeps(s: World, i: int, c: Config)
    requires ConfigOk(c) && Inv(s, c)
    ensures Inv(AfterDie(s, i), c)
  {
    var r := if s.m.Sending? && s.m.index == i then s.(m := s.m.(live := false)) else s;
    if s.m.Sending? {
      LossKeeps(s, c);
    }
    var t := if r.w.Holding? && r.w.index == i then r.(w := Nobody) else r;
    WStopKeeps(r, c);
    forall j | j in t.channels ensures 0 < j {
      assert ChannelOk(t, j, c);
    }
    ChannelsKeep(t, t.channels - {i}, c);
  }

  lemma AStopKeeps(s: World, c: Config)
    requires ConfigOk(c) && Inv(s, c) && s.a.state == CONNECTING
    ensures Inv(s.(a := s.a.(state := SHUT)), c)
  {
    var t := s.(a := s.a.(state := SHUT));
    assert Buffered(t.a) == Buffered(s.a);
    ChannelsSame(s, t, c);
  }

  lemma WorkerStepKeeps(s: World, e: Event, c: Config)
    requires ConfigOk(c) && Inv(s, c)
    requires e.WTake? || e.WRead? || e.WFlush? || e.WStop? || e.Spawn? || e.Die? || e.Other?
    ensures Inv(Apply(s, e, c), c)
  {
    if e.WTake? {
      WTakeKeeps(s, e.i, e.room, c);
    } else if e.WRead? {
      WReadKeeps(s, e.n, c);
    } else if e.WFlush? {
      WFlushKeeps(s, e.n, c);
    } else if e.WStop? {
      WStopKeeps(s, c);
    } else if e.Die? {
      DieKeeps(s, e.i, c);
    } else if e.Spawn? && 0 < e.i && e.i !in s.channels {
      SpawnKeeps(s, e.i, c);
    } else if e.Other? && e.i in s.channels {
      OtherKeeps(s, e.i, c);
    }
  }

  lemma StepKeepsInv(s: World, e: Event, c: Config)
    requires ConfigOk(c) && Inv(s, c)
    ensures Inv(Apply(s, e, c), c)
  {
    if e.AFlush? {
      AFlushKeeps(s, e.n, c);
    } else if e.ARead? {
      AReadKeeps(s, e.n, c);
    } else if e.AStop? {
      if s.a.state == CONNECTING {
        AStopKeeps(s, c);
      }
    } else if e.MRead? {
      MReadKeeps(s, e.n, c);
    } else if e.MFlush? {
      MFlushKeeps(s, e.n, c);
    } else if e.MSend? {
      MSendKeeps(s, e.full, e.ok, c);
    } else if e.MStop? {
      MStopKeeps(s, c);
    } else {
      WorkerStepKeeps(s, e, c);
    }
  }

  // ------------------------------------------------------------ whole runs

  function Run(s: World, es: seq<Event>, c: Config): (t: World)
    decreases |es|
  {
    if es == [] then s else Run(Apply(s, es[0], c), es[1..], c)
  }

  /** The workers of B when A1 connects: indices from 1, and nothing of A1's in any channel. */
  predicate Fresh(channels: map<int, seq<bool>>) {
    forall i :: i in channels ==> 0 < i && Ours(channels[i]) == 0
  }

  lemma BeginInv(c: Config, channels: map<int, seq<bool>>)
    requires ConfigOk(c) && Fresh(channels)
    ensures Inv(Begin(c, channels), c)
  {
    var s := Begin(c, channels);
    assert [] + [] + s.aPending == s.aPending;
    forall i | i in s.channels ensures ChannelOk(s, i, c) {
    }
  }

  lemma {:induction false} RunKeepsInv(s: World, es: seq<Event>, c: Config)
    requires ConfigOk(c) && Inv(s, c)
    ensures Inv(Run(s, es, c), c)
    decreases |es|
  {
    if es != [] {
      StepKeepsInv(s, es[0], c);
      RunKeepsInv(Apply(s, es[0], c), es[1..], c);
    }
  }

  /** Safety, over every run. A1 is connected only if the descriptor went to the worker with the
      requested index, to no other and only once, and that worker handled A1's TELL. The
      manager has read bytes of the request only. */
  lemma ConnectedOnlyThroughWorker(c: Config, channels: map<int, seq<bool>>, es: seq<Event>)
    requires ConfigOk(c) && Fresh(channels)
    ensures var s, i := Run(Begin(c, channels), es, c), c.index(c.connect);
            && (s.a.state == CONNECTED ==> s.took == [i] && s.told == [i] && 0 < i)
            && (s.took == [] || s.took == [i]) && (s.told == [] || s.told == [i])
            && s.mRead <= Frame(c.connect, c)
  {
    BeginInv(c, channels);
    RunKeepsInv(Begin(c, channels), es, c);
  }

  // ------------------------------------------------- who leaves, and when

  /** A reply counts if it is one of the two that A1 waits for and holds what that one must hold;
      on any other A1 gives up. */
  lemma ReplyCounts(s: World, m: Msg, c: Config)
    requires s.a.state == CONNECTING
    ensures var t := AfterReply(s, m, c);
            var acked := m.head.cmd == CMD_RSP_CONNECT_TO_WORKER && c.hasResult(m);
            var told := m.head.cmd == CMD_RSP_TELL_WORKER && c.hasResult(m) && c.isNode(m);
            && (t.heard == s.heard + 1 <==> acked) && (t.a.state == CONNECTED <==> told)
            && (t.a.state == SHUT <==> !acked && !told)
            && t.aPending == s.aPending + (if acked then Frame(c.tell, c) else [])
  {
    assert s.aPending + [] == s.aPending;
  }

  /** A worker answers the TELL of a node, and lets go of a connection that says anything else. */
  lemma TellCounts(s: World, m: Msg, c: Config)
    requires s.w.Holding?
    ensures var t := AfterTell(s, m, c);
            var told := m.head.cmd == CMD_REQ_TELL_WORKER && c.isNode(m);
            && (told <==> t.told == s.told + [s.w.index]) && (told <==> t.w.Holding?)
            && (told ==> t.w.pending == Frame(c.answer, c))
  {
    assert |s.told + [s.w.index]| == |s.told| + 1;
  }

  /** A party that reads goes on if it has a message or waits for more, and leaves otherwise. */
  lemma LeavesOnError(s: World, n: nat, c: Config)
    ensures s.a.state == CONNECTING && s.aPending == [] ==>
              var r := ConnRead(s.a, Available(n, s.toA), c.wire);
              && (r.status == PAUSE ==> AfterARead(s, n, c).a == r.conn)
              && (r.status !in {OK, PAUSE} ==> AfterARead(s, n, c).a.state == SHUT)
    ensures s.m.Reading? ==>
              var r := ConnRead(s.m.conn, Available(n, s.toB), c.wire);
              && (r.status == PAUSE ==> AfterMRead(s, n, c).m == Reading(r.conn))
              && (r.status !in {OK, PAUSE} ==> AfterMRead(s, n, c).m == Gone)
    ensures s.w.Holding? && s.w.pending == [] ==>
              var r := ConnRead(s.w.conn, Available(n, s.toB), c.wire);
              && (r.status == PAUSE ==> AfterWRead(s, n, c).w == s.w.(conn := r.conn))
              && (r.status !in {OK, PAUSE} ==> AfterWRead(s, n, c).w == Nobody)
  {
  }

  /** The manager tries again exactly if the channel is full and its worker is there; it is done
      with the connection otherwise, and the descriptor is in the channel exactly if the write
      succeeded. */
  lemma TransferEnds(s: World, full: bool, ok: bool)
    requires s.m.Sending?
    ensures var t, there := AfterMSend(s, full, ok), s.m.live && s.m.index in s.channels;
            && (t.m == s.m <==> there && full) && (t.m != s.m ==> t.m.Gone?)
            && (t.channels != s.channels <==> there && !full && ok)
            && (there && !full && ok ==> t.channels == s.channels[s.m.index := s.channels[s.m.index] + [true]])
  {
    if s.m.index in s.channels {
      assert |s.channels[s.m.index] + [true]| > |s.channels[s.m.index]|;
    }
  }

  /** Each party can leave at any time. Workers start with an empty channel and a place in the
      manager's table, and die with their channel and their connections, but not their place;
      other descriptors come through the channels as well. */
  lemma PartiesComeAndGo(s: World, i: int, c: Config)
    ensures Apply(s, AStop, c).a.state != CONNECTING && Apply(s, MStop, c).m.Gone? && Apply(s, WStop, c).w.Nobody?
    ensures var t := Apply(s, Spawn(i), c);
            t == if 0 < i && i !in s.channels
                 then s.(channels := s.channels + map[i := []], infos := s.infos + 1) else s
    ensures var t := Apply(s, Die(i), c);
            && t.channels.Keys == s.channels.Keys - {i} && t.infos == s.infos
            && t.w == (if s.w.Holding? && s.w.index == i then Nobody else s.w)
            && (t.m.Sending? && t.m.index == i ==> !t.m.live) && (t.m != s.m ==> s.m.Sending? && s.m.index == i)
    ensures var t := Apply(s, Other(i), c);
            i in s.channels ==> i in t.channels && t.channels[i] == s.channels[i] + [false]
  {
    assert s.channels[i := []] == s.channels + map[i := []];
  }

  // ------------------------------------------------------------ the verdict

  /** The manager's table has no worker with the requested index. */
  predicate OutOfRange(s: World, c: Config) {
    c.index(c.connect) == 0 || c.index(c.connect) > s.infos
  }

  function Verdict(s: World, c: Config): (m: Msg) {
    if OutOfRange(s, c) then c.reject else c.accept
  }

  /** The request has been read, and what A1 has of an acknowledgement is of this one. */
  predicate AckIs(s: World, ack: Msg, c: Config) {
    && !s.m.Reading? && s.mRead == Frame(c.connect, c)
    && (s.heard == 0 ==> Partial(Buffered(s.a), s.toA + MPending(s.m), Frame(ack, c)))
  }

  /** The descriptor is with the manager only, which is not going to pass it on. */
  ghost predicate Kept(s: World) {
    && (s.m.Gone? || (s.m.Acking? && s.m.dest.None?)) && s.took == []
    && forall i :: i in s.channels ==> Ours(s.channels[i]) == 0
  }

  /** The verdict is given with the last byte of the request. */
  lemma RequestDecides(s: World, n: nat, c: Config)
    requires ConfigOk(c) && Inv(s, c) && s.m.Reading?
    ensures var t := AfterMRead(s, n, c);
            !t.m.Reading? ==> AckIs(t, Verdict(s, c), c) && (OutOfRange(s, c) ==> Kept(t))
  {
    var k := Min(n, |s.toB|);
    MReads(s, n, c);
    if s.mRead + s.toB[..k] == Frame(c.connect, c) {
      var conn := ConnRead(s.m.conn, Available(n, s.toB), c.wire).conn;
      var read := s.(toB := s.toB[k..], mRead := s.mRead + s.toB[..k], m := Reading(conn));
      forall i | i in s.channels ensures Ours(s.channels[i]) == 0 {
        assert ChannelOk(s, i, c);
      }
      RequestVerdict(read, c);
    }
  }

  lemma RequestVerdict(s: World, c: Config)
    requires ConfigOk(c) && s.mRead == Frame(c.connect, c) && s.toA == [] && Buffered(s.a) == [] && s.took == []
    requires forall i :: i in s.channels ==> Ours(s.channels[i]) == 0
    ensures var t := AfterRequest(s, c.connect, c);
            AckIs(t, Verdict(s, c), c) && (OutOfRange(s, c) ==> Kept(t))
  {
    var t := AfterRequest(s, c.connect, c);
    assert [] + ([] + MPending(t.m)) == MPending(t.m);
  }

  lemma ReadKeepsAck(s: World, n: nat, ack: Msg, c: Config)
    requires ConfigOk(c) && Inv(s, c) && AckIs(s, ack, c) && ack in {c.accept, c.reject}
    ensures AckIs(AfterARead(s, n, c), ack, c)
  {
    if s.a.state == CONNECTING && s.aPending == [] && s.heard == 0 {
      PartialStep(Buffered(s.a), s.toA, MPending(s.m), Min(n, |s.toA|), Frame(ack, c));
      AReads(s, n, ack, c);
    }
  }

  lemma ManagerKeepsAck(s: World, e: Event, ack: Msg, c: Config)
    requires ConfigOk(c) && AckIs(s, ack, c)
    requires e.MRead? || e.MFlush? || e.MSend? || e.MStop?
    ensures AckIs(Apply(s, e, c), ack, c)
  {
    if s.heard == 0 {
      if e.MFlush? && s.m.Acking? {
        Moves(s.toA, s.m.pending, Min(e.n, |s.m.pending|));
      } else if e.MStop? {
        var all := s.toA + MPending(s.m);
        Shorter(Buffered(s.a), all, Frame(ack, c), |s.toA|);
        assert all[..|s.toA|] == s.toA + [];
      }
    }
  }

  lemma StepKeepsAck(s: World, e: Event, ack: Msg, c: Config)
    requires ConfigOk(c) && Inv(s, c) && AckIs(s, ack, c) && ack in {c.accept, c.reject}
    ensures AckIs(Apply(s, e, c), ack, c)
  {
    if e.ARead? {
      ReadKeepsAck(s, e.n, ack, c);
    } else if e.MRead? || e.MFlush? || e.MSend? || e.MStop? {
      ManagerKeepsAck(s, e, ack, c);
    } else if e.WTake? || e.WRead? || e.WFlush? || e.WStop? {
      WorkerKeepsAck(s, e, ack, c);
    } else {
      RestKeepsAck(s, e, ack, c);
    }
  }

  /** Nobody else adds to what A1 is to hear before it has heard it. */
  lemma WorkerKeepsAck(s: World, e: Event, ack: Msg, c: Config)
    requires AckIs(s, ack, c) && (s.heard == 0 ==> WPending(s.w) == [])
    requires e.WTake? || e.WRead? || e.WFlush? || e.WStop?
    ensures AckIs(Apply(s, e, c), ack, c)
  {
    assert s.toA + [] == s.toA;
    if e.WRead? {
      WReadMoves(s, e.n, c);
    }
  }

  lemma RestKeepsAck(s: World, e: Event, ack: Msg, c: Config)
    requires AckIs(s, ack, c)
    requires e.AFlush? || e.AStop? || e.Spawn? || e.Die? || e.Other?
    ensures AckIs(Apply(s, e, c), ack, c)
  {
  }

  lemma StepKeepsKept(s: World, e: Event, c: Config)
    requires Kept(s)
    ensures Kept(Apply(s, e, c))
  {
    if e.Other? && e.i in s.channels {
      OursAppend(s.channels[e.i], false);
    } else if e.WTake? {
      TakeKeepsKept(s, e.i, e.room);
    } else if e.ARead? {
      AReadMoves(s, e.n, c);
    } else if e.WRead? {
      WReadMoves(s, e.n, c);
    }
  }

  /** Reads do not move the descriptor. */
  lemma AReadMoves(s: World, n: nat, c: Config)
    ensures var t := AfterARead(s, n, c);
            t.m == s.m && t.took == s.took && t.channels == s.channels && t.mRead == s.mRead
  {
    if s.a.state == CONNECTING && s.aPending == [] {
      var r := ConnRead(s.a, Available(n, s.toA), c.wire);
      var k := Min(|Incoming(s.a, Available(n, s.toA), c.wire)|, |s.toA|);
      if r.status == OK {
        ReplyMoves(s.(a := r.conn, toA := s.toA[k..]), r.msg.value, c);
      }
    }
  }

  lemma ReplyMoves(s: World, m: Msg, c: Config)
    ensures var t := AfterReply(s, m, c);
            t.m == s.m && t.took == s.took && t.channels == s.channels && t.mRead == s.mRead
  {
  }

  lemma WReadMoves(s: World, n: nat, c: Config)
    ensures var t := AfterWRead(s, n, c);
            && t.m == s.m && t.took == s.took && t.channels == s.channels && t.mRead == s.mRead
            && t.a == s.a && t.toA == s.toA && t.heard == s.heard
  {
    if s.w.Holding? && s.w.pending == [] {
      var r := ConnRead(s.w.conn, Available(n, s.toB), c.wire);
      var k := Min(|Incoming(s.w.conn, Available(n, s.toB), c.wire)|, |s.toB|);
      if r.status == OK {
        TellMoves(s.(toB := s.toB[k..], w := s.w.(conn := r.conn)), r.msg.value, c);
      }
    }
  }

  lemma TellMoves(s: World, m: Msg, c: Config)
    requires s.w.Holding?
    ensures var t := AfterTell(s, m, c);
            && t.m == s.m && t.took == s.took && t.channels == s.channels && t.mRead == s.mRead
            && t.a == s.a && t.toA == s.toA && t.heard == s.heard
  {
  }

  lemma TakeKeepsKept(s: World, i: int, room: bool)
    requires Kept(s)
    ensures Kept(AfterWTake(s, i, room))
  {
    if i in s.channels && s.channels[i] != [] {
      assert !s.channels[i][0] && Ours(s.channels[i][1..]) == 0;
    }
  }

  lemma RunLast(s: World, es: seq<Event>, c: Config)
    requires es != []
    ensures Run(s, es, c) == Apply(Run(s, DropLast(es), c), Last(es), c)
  {
    var t := Run(s, DropLast(es), c);
    RunConcat(s, DropLast(es), [Last(es)], c);
    assert DropLast(es) + [Last(es)] == es && [Last(es)][1..] == [];
    assert Run(t, [Last(es)], c) == Run(Apply(t, Last(es), c), [], c);
  }

  /** What a read of the request in state `past` has settled for `s`. */
  ghost predicate Settled(s: World, past: World, c: Config) {
    AckIs(s, Verdict(past, c), c) && (OutOfRange(past, c) ==> Kept(s))
  }

  lemma ReadingEnds(s: World, e: Event, c: Config)
    requires ConfigOk(c) && Inv(s, c) && s.m.Reading?
    requires !Apply(s, e, c).m.Reading? && Apply(s, e, c).mRead == Frame(c.connect, c)
    ensures e.MRead? && Settled(Apply(s, e, c), s, c)
  {
    if e.MRead? {
      RequestDecides(s, e.n, c);
    }
  }

  lemma StaysSettled(s: World, e: Event, past: World, c: Config)
    requires ConfigOk(c) && Inv(s, c) && Settled(s, past, c)
    ensures Settled(Apply(s, e, c), past, c)
  {
    StepKeepsAck(s, e, Verdict(past, c), c);
    if OutOfRange(past, c) {
      StepKeepsKept(s, e, c);
    }
  }

  lemma RequestStays(s: World, e: Event, c: Config)
    requires !s.m.Reading?
    ensures Apply(s, e, c).mRead == s.mRead
  {
    if e.ARead? {
      AReadMoves(s, e.n, c);
    } else if e.WRead? {
      WReadMoves(s, e.n, c);
    }
  }

  /** Every acknowledgement was decided by a read of the request, on the table of that moment. */
  lemma {:induction false} AckDecided(c: Config, channels: map<int, seq<bool>>, es: seq<Event>) returns (j: nat)
    requires ConfigOk(c) && Fresh(channels)
    requires var s := Run(Begin(c, channels), es, c); !s.m.Reading? && s.mRead == Frame(c.connect, c)
    ensures j < |es| && es[j].MRead?
    ensures var s, past := Run(Begin(c, channels), es, c), Run(Begin(c, channels), es[..j], c);
            past.m.Reading? && Settled(s, past, c)
  {
    var start := Begin(c, channels);
    if es != [] {
      var before := Run(start, DropLast(es), c);
      BeginInv(c, channels);
      RunKeepsInv(start, DropLast(es), c);
      RunLast(start, es, c);
      if before.m.Reading? {
        ReadingEnds(before, Last(es), c);
        j := |es| - 1;
      } else {
        RequestStays(before, Last(es), c);
        j := AckDecided(c, channels, DropLast(es));
        assert DropLast(es)[..j] == es[..j];
        StaysSettled(before, Last(es), Run(start, es[..j], c), c);
      }
    }
  }

  /** Over every run: the acknowledgement that A1 gets is the rejection exactly if the manager's
      table had no worker with the requested index when the request was read; and then the
      descriptor has gone to no worker. */
  lemma HearsVerdict(c: Config, channels: map<int, seq<bool>>, es: seq<Event>, n: nat) returns (j: nat)
    requires ConfigOk(c) && Fresh(channels)
    requires var s := Run(Begin(c, channels), es, c); s.heard == 0 && AfterARead(s, n, c).heard == 1
    ensures j < |es| && es[j].MRead?
    ensures var s, past := Run(Begin(c, channels), es, c), Run(Begin(c, channels), es[..j], c);
            && ConnRead(s.a, Available(n, s.toA), c.wire).msg == Some(Verdict(past, c))
            && (OutOfRange(past, c) ==> s.took == [] && s.told == [] && s.a.state != CONNECTED)
  {
    var s := Run(Begin(c, channels), es, c);
    BeginInv(c, channels);
    RunKeepsInv(Begin(c, channels), es, c);
    if s.toA == [] && Buffered(s.a) == [] {
      AReadsNothing(s, n, c);
    }
    j := AckDecided(c, channels, es);
    var past := Run(Begin(c, channels), es[..j], c);
    PartialStep(Buffered(s.a), s.toA, MPending(s.m), Min(n, |s.toA|), Frame(Verdict(past, c), c));
    ReadsFrame(s.a, n, s.toA, Verdict(past, c), c);
    AReads(s, n, Verdict(past, c), c);
  }

  // --------------------------------------------------------- and it can work

  lemma RunSplit(s: World, t: World, es: seq<Event>, fs: seq<Event>, c: Config)
    requires es != [] && t == Apply(s, es[0], c)
    ensures Run(s, es, c) == Run(t, es[1..], c)
    ensures Run(s, es + fs, c) == Run(t, es[1..] + fs, c)
  {
    assert (es + fs)[1..] == es[1..] + fs;
  }

  lemma {:induction false} RunConcat(s: World, es: seq<Event>, fs: seq<Event>, c: Config)
    ensures Run(s, es + fs, c) == Run(Run(s, es, c), fs, c)
    decreases |es|
  {
    if es == [] {
      assert es + fs == fs;
    } else {
      var t := Apply(s, es[0], c);
      RunSplit(s, t, es, fs, c);
      RunConcat(t, es[1..], fs, c);
    }
  }

  function Takes(i: int, n: nat): (es: seq<Event>) {
    if n == 0 then [] else [WTake(i, true)] + Takes(i, n - 1)
  }

  /** The worker takes whatever else is in its channel first. */
  lemma {:induction false} TakesOthers(s: World, i: int, q: seq<bool>, c: Config)
    requires i in s.channels && s.channels[i] == q && Ours(q) == 0
    ensures Run(s, Takes(i, |q|), c) == s.(channels := s.channels[i := []])
    decreases |q|
  {
    if q == [] {
      assert s.channels == s.channels[i := []];
    } else {
      var t := AfterWTake(s, i, true);
      assert t == s.(channels := s.channels[i := q[1..]]);
      TakesOthers(t, i, q[1..], c);
      assert t.channels[i := []] == s.channels[i := []];
    }
  }

  lemma RunTwo(s: World, e: Event, f: Event, c: Config)
    ensures Run(s, [e, f], c) == Apply(Apply(s, e, c), f, c)
  {
    assert [e, f][1..] == [f] && [f][1..] == [];
    assert Run(Apply(s, e, c), [f], c) == Apply(Apply(s, e, c), f, c);
  }

  /** A whole frame in the socket, and an empty buffer, is one message. */
  lemma ReadsWhole(conn: Conn, m: Msg, c: Config)
    requires HEAD_LEN <= |c.after| && WellFormed(m, c.wire) && !IsInvalid(conn.state) && Buffered(conn) == []
    ensures var f := Frame(m, c);
            var input := Available(|f|, f);
            && ConnRead(conn, input, c.wire) == Result(OK, Some(m), conn.(recv := Some([])))
            && Incoming(conn, input, c.wire) == f && f[|f|..] == []
  {
    var f := Frame(m, c);
    assert [] + f == f && f[..|f|] == f;
    ReadsFrame(conn, |f|, f, m, c);
  }

  lemma Whole(f: seq<Byte>)
    ensures [] + f[..|f|] == f && f[|f|..] == []
  {
  }

  function Granted(s: World, i: int, c: Config): (t: World) {
    s.(aPending := [], m := Acking(Frame(c.accept, c), Some(i)), mRead := Frame(c.connect, c))
  }

  function Sent(s: World, i: int, c: Config): (t: World) {
    s.(m := Gone, toA := Frame(c.accept, c), channels := s.channels[i := [true]])
  }

  function Passed(s: World, i: int, c: Config): (t: World) {
    s.(channels := s.channels[i := []], w := Holding(i, Conn(CONNECTED, None), []), took := [i],
       a := Conn(CONNECTING, Some([])), toA := [], aPending := Frame(c.tell, c), heard := s.heard + 1)
  }

  function Told(s: World, i: int, c: Config): (t: World) {
    s.(aPending := [], w := Holding(i, Conn(CONNECTED, Some([])), Frame(c.answer, c)), told := [i])
  }

  lemma RunGrants(s: World, c: Config) returns (es: seq<Event>)
    requires ConfigOk(c) && s == Begin(c, s.channels) && 0 < c.index(c.connect) <= |s.channels|
    ensures Run(s, es, c) == Granted(s, c.index(c.connect), c)
  {
    var f := Frame(c.connect, c);
    Whole(f);
    var t := s.(aPending := [], toB := f);
    assert AfterAFlush(s, |f|) == t;
    ReadsWhole(t.m.conn, c.connect, c);
    es := [AFlush(|f|), MRead(|f|)];
    RunTwo(s, AFlush(|f|), MRead(|f|), c);
  }

  lemma RunSends(s: World, i: int, c: Config) returns (es: seq<Event>)
    requires ConfigOk(c) && s.m == Acking(Frame(c.accept, c), Some(i)) && s.toA == []
    requires i in s.channels && s.channels[i] == []
    ensures Run(s, es, c) == Sent(s, i, c)
  {
    var f := Frame(c.accept, c);
    Whole(f);
    var t := s.(m := Sending(i, true), toA := f);
    assert AfterMFlush(s, |f|) == t;
    assert [] + [true] == [true];
    es := [MFlush(|f|), MSend(false, true)];
    RunTwo(s, MFlush(|f|), MSend(false, true), c);
  }

  /** The world once the worker has taken the descriptor and before the sender reads the answer. */
  function Taken(s: World, i: int): (t: World) {
    s.(channels := s.channels[i := []], w := Holding(i, Conn(CONNECTED, None), []), took := [i])
  }

  lemma TakesOwn(s: World, i: int)
    requires i in s.channels && s.channels[i] == [true] && s.took == []
    ensures AfterWTake(s, i, true) == Taken(s, i)
  {
    assert [true][1..] == [] && [] + [i] == [i];
  }

  lemma ReadsAnswer(s: World, i: int, c: Config)
    requires ConfigOk(c) && i in s.channels
    requires s.a == Conn(CONNECTING, None) && s.aPending == [] && s.toA == Frame(c.accept, c)
    ensures AfterARead(Taken(s, i), |Frame(c.accept, c)|, c) == Passed(s, i, c)
  {
    ReadsWhole(s.a, c.accept, c);
    assert [] + Frame(c.tell, c) == Frame(c.tell, c);
  }

  lemma RunPasses(s: World, i: int, c: Config) returns (es: seq<Event>)
    requires ConfigOk(c) && i in s.channels && s.channels[i] == [true] && s.took == []
    requires s.a == Conn(CONNECTING, None) && s.aPending == [] && s.toA == Frame(c.accept, c)
    ensures Run(s, es, c) == Passed(s, i, c)
  {
    var n := |Frame(c.accept, c)|;
    TakesOwn(s, i);
    ReadsAnswer(s, i, c);
    es := [WTake(i, true), ARead(n)];
    RunTwo(s, WTake(i, true), ARead(n), c);
  }

  lemma RunTells(s: World, i: int, c: Config) returns (es: seq<Event>)
    requires ConfigOk(c) && s.a.state == CONNECTING && s.aPending == Frame(c.tell, c) && s.told == []
    requires s.toB == [] && s.w == Holding(i, Conn(CONNECTED, None), [])
    ensures Run(s, es, c) == Told(s, i, c)
  {
    var f := Frame(c.tell, c);
    Whole(f);
    var t := s.(aPending := [], toB := f);
    assert AfterAFlush(s, |f|) == t;
    ReadsWhole(t.w.conn, c.tell, c);
    assert [] + [i] == [i];
    es := [AFlush(|f|), WRead(|f|)];
    RunTwo(s, AFlush(|f|), WRead(|f|), c);
  }

  lemma RunAnswers(s: World, c: Config) returns (es: seq<Event>)
    requires ConfigOk(c) && s.a == Conn(CONNECTING, Some([])) && s.aPending == [] && s.toA == []
    requires s.w.Holding? && s.w.pending == Frame(c.answer, c)
    ensures Run(s, es, c).a.state == CONNECTED
  {
    var f := Frame(c.answer, c);
    Whole(f);
    var t := s.(toA := f, w := s.w.(pending := []));
    assert AfterWFlush(s, |f|) == t;
    ReadsWhole(t.a, c.answer, c);
    es := [WFlush(|f|), ARead(|f|)];
    RunTwo(s, WFlush(|f|), ARead(|f|), c);
  }

  lemma RunFromEmpty(s: World, c: Config) returns (es: seq<Event>)
    requires ConfigOk(c) && s == Begin(c, s.channels) && 0 < c.index(c.connect) <= |s.channels|
    requires c.index(c.connect) in s.channels && s.channels[c.index(c.connect)] == []
    ensures Run(s, es, c).a.state == CONNECTED
  {
    var i := c.index(c.connect);
    var s1 := Granted(s, i, c);
    var s2 := Sent(s1, i, c);
    var s3 := Passed(s2, i, c);
    var e1 := RunGrants(s, c);
    var e2 := RunSends(s1, i, c);
    var e3 := RunPasses(s2, i, c);
    var e4 := RunTells(s3, i, c);
    var e5 := RunAnswers(Told(s3, i, c), c);
    es := e1 + (e2 + (e3 + (e4 + e5)));
    RunConcat(s, e1, e2 + (e3 + (e4 + e5)), c);
    RunConcat(s1, e2, e3 + (e4 + e5), c);
    RunConcat(s2, e3, e4 + e5, c);
    RunConcat(s3, e4, e5, c);
  }

  /** If the requested worker is there, the handshake can be completed. */
  lemma ConnectedIsReachable(c: Config, channels: map<int, seq<bool>>) returns (es: seq<Event>)
    requires ConfigOk(c) && Fresh(channels)
    requires c.index(c.connect) in channels && c.index(c.connect) <= |channels|
    ensures Run(Begin(c, channels), es, c).a.state == CONNECTED
  {
    var i, s := c.index(c.connect), Begin(c, channels);
    var take, emptied := Takes(i, |channels[i]|), channels[i := []];
    TakesOthers(s, i, channels[i], c);
    assert emptied.Keys == channels.Keys;
    assert |emptied| == |emptied.Keys| == |channels|;
    var rest := RunFromEmpty(s.(channels := emptied), c);
    es := take + rest;
    RunConcat(s, take, rest, c);
  }

  // --------------------------------------------------- how the messages are made

  /** A message body, and the result that a reply carries. */
  datatype Rsp = Rsp(code: I32, text: seq<Byte>)
  datatype Body = Body(data: seq<Byte>, result: Option<Rsp>)

  /** What protobuf does with bodies, and how their data is read as a number or as the
      description of a node. */
  datatype Protobuf = Protobuf(
    wire: Wire, pack: Body -> seq<Byte>, unpack: seq<Byte> -> Body,
    number: seq<Byte> -> int, isNode: seq<Byte> -> bool)

  /** A body survives, takes room unless it is empty, and no data at all is the description of a
      node with nothing set. */
  ghost predicate ProtobufOk(p: Protobuf) {
    && p.isNode([])
    && forall b {:trigger p.pack(b)} ::
         p.unpack(p.pack(b)) == b && p.wire.parses(p.pack(b)) && (b != Body([], None) ==> p.pack(b) != [])
  }

  function Packed(cmd: U32, seqNo: U32, b: Body, p: Protobuf): (m: Msg) {
    Msg(Head(cmd, seqNo, ToI32(|p.pack(b)| % TWO_32)), p.pack(b))
  }

  function Ascii(text: string): (b: seq<Byte>)
    ensures |b| == |text|
  {
    seq(|text|, i requires 0 <= i < |text| => text[i] as int % 256)
  }

  /** `send_ack`: the command after the request's, its number, and a result. */
  function Ack(req: Msg, code: I32, text: string, data: seq<Byte>, p: Protobuf): (m: Msg) {
    Packed((req.head.cmd + 1) % TWO_32, req.head.seqNo, Body(data, Some(Rsp(code, Ascii(text)))), p)
  }

  const ERR_INVALID_WORKER_INDEX := 3

  /** What A1 asks for and says of itself, what B1 says of itself, and the numbers of A1's two
      requests. */
  datatype Talk = Talk(first: U32, second: U32, wanted: seq<Byte>, mine: seq<Byte>, theirs: seq<Byte>, after: seq<Byte>)

  /** The messages of a handshake as the parties build and read them. */
  function Conversation(k: Talk, p: Protobuf): (c: Config) {
    var connect := Packed(CMD_REQ_CONNECT_TO_WORKER, k.first, Body(k.wanted, None), p);
    var tell := Packed(CMD_REQ_TELL_WORKER, k.second, Body(k.mine, None), p);
    Config(p.wire, k.after, connect,
           Ack(connect, ERR_OK, "ok", [], p),
           Ack(connect, ERR_INVALID_WORKER_INDEX, "invalid worker index!", [], p),
           tell,
           Ack(tell, ERR_OK, "ok", k.theirs, p),
           (m: Msg) => Ack(m, ERR_UNKNOWN_CMD, "invalid cmd!", [], p),
           (m: Msg) => p.number(p.unpack(m.body).data),
           (m: Msg) => p.unpack(m.body).result.Some?,
           (m: Msg) => p.isNode(p.unpack(m.body).data))
  }

  predicate Sized(m: Msg) {
    HEAD_LEN + |m.body| < TWO_31
  }

  /** The requests are numbered and not empty, the descriptions can be read, and no message is
      too long for the codec. */
  predicate TalkOk(k: Talk, p: Protobuf) {
    var c := Conversation(k, p);
    && HEAD_LEN <= |k.after| && k.first != 0 && k.second != 0 && k.wanted != [] && k.mine != []
    && p.isNode(k.mine) && p.isNode(k.theirs)
    && Sized(c.connect) && Sized(c.accept) && Sized(c.reject) && Sized(c.tell) && Sized(c.answer)
    && Sized(c.refusal(c.tell))
  }

  lemma PackedIs(cmd: U32, seqNo: U32, b: Body, p: Protobuf)
    requires ProtobufOk(p) && cmd != 0 && seqNo != 0 && b != Body([], None) && Sized(Packed(cmd, seqNo, b, p))
    ensures WellFormed(Packed(cmd, seqNo, b, p), p.wire) && p.unpack(Packed(cmd, seqNo, b, p).body) == b
  {
  }

  /** Such messages are what the theorems about the handshake ask for. */
  lemma ConversationOk(k: Talk, p: Protobuf)
    requires ProtobufOk(p) && TalkOk(k, p)
    ensures ConfigOk(Conversation(k, p))
  {
    var c := Conversation(k, p);
    PackedIs(CMD_REQ_CONNECT_TO_WORKER, k.first, Body(k.wanted, None), p);
    PackedIs(CMD_REQ_TELL_WORKER, k.second, Body(k.mine, None), p);
    PackedIs(CMD_RSP_CONNECT_TO_WORKER, k.first, Body([], Some(Rsp(ERR_OK, Ascii("ok")))), p);
    var invalid := Rsp(ERR_INVALID_WORKER_INDEX, Ascii("invalid worker index!"));
    PackedIs(CMD_RSP_CONNECT_TO_WORKER, k.first, Body([], Some(invalid)), p);
    PackedIs(CMD_RSP_TELL_WORKER, k.second, Body(k.theirs, Some(Rsp(ERR_OK, Ascii("ok")))), p);
  }

  /** A refusal of the TELL is a well-formed answer to it, with a result and, since no data is the
      description of a node, one that reads as a node. */
  lemma RefusalReads(k: Talk, p: Protobuf)
    requires ProtobufOk(p) && TalkOk(k, p)
    ensures var c := Conversation(k, p);
            var m := c.refusal(c.tell);
            Sendable(m, CMD_RSP_TELL_WORKER, c) && c.hasResult(m) && c.isNode(m)
  {
    PackedIs(CMD_RSP_TELL_WORKER, k.second, Body([], Some(Rsp(ERR_UNKNOWN_CMD, Ascii("invalid cmd!")))), p);
  }

  /** Why it matters that the manager reads nothing but the request: wherever it were to read the
      TELL, its refusal would leave A1 connected, with no worker told. */
  lemma RefusalWouldConnect(s: World, k: Talk, p: Protobuf) returns (es: seq<Event>)
    requires ProtobufOk(p) && TalkOk(k, p)
    requires s.m == Reading(Conn(CONNECTED, None)) && s.toB == Frame(Conversation(k, p).tell, Conversation(k, p))
    requires s.a == Conn(CONNECTING, None) && s.aPending == [] && s.toA == []
    ensures var t := Run(s, es, Conversation(k, p));
            t.a.state == CONNECTED && t.told == s.told && t.took == s.took
  {
    var c := Conversation(k, p);
    var m := c.refusal(c.tell);
    ConversationOk(k, p);
    RefusalReads(k, p);
    es := Refuses(s, m, c);
  }

  lemma Refuses(s: World, m: Msg, c: Config) returns (es: seq<Event>)
    requires ConfigOk(c) && m == c.refusal(c.tell)
    requires Sendable(m, CMD_RSP_TELL_WORKER, c) && c.hasResult(m) && c.isNode(m)
    requires s.m == Reading(Conn(CONNECTED, None)) && s.toB == Frame(c.tell, c)
    requires s.a == Conn(CONNECTING, None) && s.aPending == [] && s.toA == []
    ensures var t := Run(s, es, c);
            t.a.state == CONNECTED && t.told == s.told && t.took == s.took
  {
    var f := Frame(c.tell, c);
    var t := ReadsTell(s, c);
    var rest := HearsRefusal(t, m, c);
    es := [MRead(|f|)] + rest;
    RunOne(s, MRead(|f|), c);
    RunConcat(s, [MRead(|f|)], rest, c);
  }

  lemma RunOne(s: World, e: Event, c: Config)
    ensures Run(s, [e], c) == Apply(s, e, c)
  {
    assert [e][1..] == [];
  }

  lemma HearsRefusal(s: World, m: Msg, c: Config) returns (es: seq<Event>)
    requires ConfigOk(c) && Sendable(m, CMD_RSP_TELL_WORKER, c) && c.hasResult(m) && c.isNode(m)
    requires s.m == Acking(Frame(m, c), None) && s.a == Conn(CONNECTING, None) && s.aPending == [] && s.toA == []
    ensures var t := Run(s, es, c);
            t.a.state == CONNECTED && t.told == s.told && t.took == s.took
  {
    var g := Frame(m, c);
    var t := s.(m := Gone, toA := g);
    Whole(g);
    assert AfterMFlush(s, |g|) == t;
    ReadsRefusal(t, m, c);
    es := [MFlush(|g|), ARead(|g|)];
    RunTwo(s, MFlush(|g|), ARead(|g|), c);
  }

  lemma ReadsTell(s: World, c: Config) returns (t: World)
    requires ConfigOk(c) && s.m == Reading(Conn(CONNECTED, None)) && s.toB == Frame(c.tell, c)
    ensures t == AfterMRead(s, |s.toB|, c)
    ensures t == s.(toB := [], mRead := t.mRead, m := Acking(Frame(c.refusal(c.tell), c), None))
  {
    ReadsWhole(s.m.conn, c.tell, c);
    t := AfterMRead(s, |s.toB|, c);
  }

  lemma ReadsRefusal(s: World, m: Msg, c: Config)
    requires ConfigOk(c) && Sendable(m, CMD_RSP_TELL_WORKER, c) && c.hasResult(m) && c.isNode(m)
    requires s.a == Conn(CONNECTING, None) && s.aPending == [] && s.toA == Frame(m, c)
    ensures var t := AfterARead(s, |s.toA|, c);
            t.a.state == CONNECTED && t.told == s.told && t.took == s.took
  {
    ReadsWhole(s.a, m, c);
  }

  // -------------------------------------------------------- a concrete handshake

  /** A packing that loses nothing: a mark, the code, the length of the text in ones, the text and
      the data. */
  function PackPlain(b: Body): (r: seq<Byte>) {
    match b.result
    case None => if b.data == [] then [] else [0] + b.data
    case Some(rsp) => [1] + LittleEndian(ToU32(rsp.code)) + Ones(|rsp.text|) + [0] + rsp.text + b.data
  }

  function Ones(n: nat): (r: seq<Byte>)
    ensures |r| == n
  {
    if n == 0 then [] else [1] + Ones(n - 1)
  }

  function CountOnes(b: seq<Byte>): (n: nat)
    ensures n <= |b|
  {
    if b == [] || b[0] != 1 then 0 else 1 + CountOnes(b[1..])
  }

  function UnpackPlain(b: seq<Byte>): (r: Body) {
    if |b| < 6 || b[0] != 1 then Body(if b == [] then [] else b[1..], None)
    else
      var n := CountOnes(b[5..]);
      if |b| < 6 + 2 * n then Body([], None)
      else Body(b[6 + 2 * n..], Some(Rsp(ToI32(FromLittleEndian(b[1..5])), b[6 + n..6 + 2 * n])))
  }

  lemma {:induction false} OnesCounted(n: nat, rest: seq<Byte>)
    ensures CountOnes(Ones(n) + ([0] + rest)) == n
  {
    var b := Ones(n) + ([0] + rest);
    if n > 0 {
      assert b[1..] == Ones(n - 1) + ([0] + rest);
      OnesCounted(n - 1, rest);
    }
  }

  lemma PlainResult(data: seq<Byte>, rsp: Rsp)
    ensures UnpackPlain(PackPlain(Body(data, Some(rsp)))) == Body(data, Some(rsp))
  {
    var code, n := LittleEndian(ToU32(rsp.code)), |rsp.text|;
    var b := PackPlain(Body(data, Some(rsp)));
    LittleEndianRoundTrip(ToU32(rsp.code));
    OnesCounted(n, rsp.text + data);
    assert b[1..5] == code && b[5..] == Ones(n) + ([0] + (rsp.text + data));
    assert b[6 + n..6 + 2 * n] == rsp.text && b[6 + 2 * n..] == data;
  }

  function Plain(): (p: Protobuf) {
    Protobuf(Wire((b, h) => None, b => true), PackPlain, UnpackPlain, b => 1, b => true)
  }

  lemma PlainOk()
    ensures ProtobufOk(Plain())
  {
    var p := Plain();
    forall b ensures p.unpack(p.pack(b)) == b && p.wire.parses(p.pack(b)) && (b != Body([], None) ==> p.pack(b) != []) {
      if b.result.Some? {
        PlainResult(b.data, b.result.value);
      } else if b.data != [] {
        assert ([0] + b.data)[1..] == b.data;
      }
    }
  }

  /** A request for worker 1, with descriptions of one byte. */
  function SampleTalk(): (k: Talk) {
    Talk(1, 2, [49], [7], [8], seq(HEAD_LEN, _ => 0))
  }

  lemma SampleOk()
    ensures ProtobufOk(Plain()) && TalkOk(SampleTalk(), Plain())
  {
    PlainOk();
  }

  lemma OneWorkerConnects(c: Config) returns (es: seq<Event>)
    requires ConfigOk(c) && c.index(c.connect) == 1
    ensures Run(Begin(c, map[1 := []]), es, c).a.state == CONNECTED
  {
    es := ConnectedIsReachable(c, map[1 := []]);
  }

  /** These messages satisfy what the theorems ask for, and the handshake can be completed. */
  lemma SampleConnects() returns (es: seq<Event>)
    ensures var c := Conversation(SampleTalk(), Plain());
            ConfigOk(c) && Run(Begin(c, map[1 := []]), es, c).a.state == CONNECTED
  {
    var c := Conversation(SampleTalk(), Plain());
    SampleOk();
    ConversationOk(SampleTalk(), Plain());
    es := OneWorkerConnects(c);
  }
}
