/**
 Reading messages off a connection and handing them to their handlers
 (src/core/connection.cpp, and the request loop of src/core/network.cpp).

 The socket and the handlers are parameters: a read delivers any bytes, a handler answers
 anything and may leave the connection in any state.
 */
module ServerLoop {
  import opened Common
  import opened SocketBuffer
  import opened ProtoCodec

  datatype State = UNKNOWN | TRY_CONNECT | CONNECTING | CONNECTED | SHUT | BROKEN

  /** `OVERRUN` is no status of the source: a decode has parsed memory behind the buffer, and what
      the process does from there on is not modelled. */
  datatype Status = OK | PAUSE | ERR | CLOSED | OVERRUN

  /** What `readv` gives: some bytes (none: the peer has closed), nothing yet, or a failure. */
  datatype Input = Bytes(data: seq<Byte>) | Again | Failed

  /** The receiving half of a connection; the buffer is allocated by the first read. */
  datatype Conn = Conn(state: State, recv: Option<seq<Byte>>)

  datatype Result = Result(status: Status, msg: Option<Msg>, conn: Conn)

  const ERR_OK := 0
  const ERR_UNKNOWN_CMD := 4
  const ERR_PACKET_DECODE_FAILED := 19

  predicate IsInvalid(s: State) {
    s == UNKNOWN || s == SHUT || s == BROKEN
  }

  function Buffered(c: Conn): (b: seq<Byte>) {
    if c.recv.Some? then c.recv.value else []
  }

  // ---------------------------------------------------------------- reading

  /** `decode_proto` into a message whose body is still `body`. */
  function DecodeProto(c: Conn, body: seq<Byte>, wire: Wire): (r: Result)
    ensures r.status == OK ==> r.msg.Some? && |Buffered(r.conn)| < |Buffered(c)|
    ensures r.status != OK ==> r.conn == c
    ensures r.status != CLOSED && r.conn.state == c.state && r.conn.recv.Some? == c.recv.Some?
  {
    match Decode(Buffered(c), wire)
    case Pause => Result(PAUSE, None, c)
    case Err => Result(ERR, None, c)
    case Overrun(_) => Result(OVERRUN, None, c)
    case Ok(m, n) =>
      var msg := if m.head.len <= 0 then m.(body := body) else m;
      if c.recv.None? then Result(PAUSE, None, c)
      else Result(OK, Some(msg), c.(recv := Some(c.recv.value[n..])))
  }

  function FetchData(c: Conn, wire: Wire): (r: Result)
    ensures r.status == OK ==> r.msg.Some? && |Buffered(r.conn)| < |Buffered(c)|
    ensures r.status != OK ==> r.conn == c
    ensures r.status != CLOSED && r.conn.state == c.state && r.conn.recv.Some? == c.recv.Some?
  {
    if c.state == UNKNOWN || c.state == BROKEN then Result(ERR, None, c) else DecodeProto(c, [], wire)
  }

  /** `conn_read()`: one read from the socket. */
  function ReadSome(c: Conn, input: Input): (r: Result) {
    if IsInvalid(c.state) then Result(ERR, None, c)
    else
      var d := c.(recv := Some(Buffered(c)));
      match input
      case Again => Result(PAUSE, None, d)
      case Failed => Result(ERR, None, d)
      case Bytes(data) =>
        if data == [] then Result(CLOSED, None, d) else Result(OK, None, d.(recv := Some(Buffered(c) + data)))
  }

  /** `conn_read(msg)`: fetches a buffered message or reads, and decodes after either. */
  function ConnRead(c: Conn, input: Input, wire: Wire): (r: Result)
    ensures r.status == OK ==> r.msg.Some?
  {
    var first := if c.recv.Some? then FetchData(c, wire) else Result(PAUSE, None, c);
    var next := if first.status == PAUSE then ReadSome(c, input) else first;
    if next.status != OK then Result(next.status, None, next.conn)
    else DecodeProto(next.conn, if first.msg.Some? then first.msg.value.body else [], wire)
  }

  /** The bytes this call takes from the socket. */
  function Incoming(c: Conn, input: Input, wire: Wire): (b: seq<Byte>) {
    if (c.recv.Some? ==> FetchData(c, wire).status == PAUSE) && !IsInvalid(c.state) && input.Bytes?
    then input.data else []
  }

  /** A complete message is waiting in the buffer of a connection that can be read. */
  predicate Complete(c: Conn, wire: Wire) {
    c.recv.Some? && FetchData(c, wire).status == OK
  }

  /** The messages that a stretch of the stream holds. */
  function Messages(b: seq<Byte>, wire: Wire): (ms: seq<Msg>) {
    Drain(Receiver([], b, Going), wire).msgs
  }

  lemma {:induction false} DrainAppends(ms: seq<Msg>, b: seq<Byte>, wire: Wire)
    ensures Drain(Receiver(ms, b, Going), wire)
         == Drain(Receiver([], b, Going), wire).(msgs := ms + Messages(b, wire))
    decreases |b|
  {
    var d := Decode(b, wire);
    if d.Ok? {
      DrainAppends(ms + [d.msg], b[d.used..], wire);
      DrainAppends([d.msg], b[d.used..], wire);
      assert ms + [d.msg] + Messages(b[d.used..], wire) == ms + ([d.msg] + Messages(b[d.used..], wire));
      assert [] + [d.msg] == [d.msg];
    } else {
      assert ms + [] == ms;
    }
  }

  lemma MessagesOk(b: seq<Byte>, wire: Wire)
    ensures var d := Decode(b, wire);
            Messages(b, wire) == if d.Ok? then [d.msg] + Messages(b[d.used..], wire) else []
  {
    var d := Decode(b, wire);
    if d.Ok? {
      DrainAppends([d.msg], b[d.used..], wire);
      assert [] + [d.msg] == [d.msg];
    }
  }

  function Delivered(r: Result): (ms: seq<Msg>) {
    if r.status == OK && r.msg.Some? then [r.msg.value] else []
  }

  /** What `conn_read(msg)` returns, followed by what is then buffered, is what was buffered
      followed by what arrived. */
  predicate KeepsMessages(c: Conn, input: Input, wire: Wire) {
    var r := ConnRead(c, input, wire);
    Delivered(r) + Messages(Buffered(r.conn), wire) == Messages(Buffered(c) + Incoming(c, input, wire), wire)
  }

  lemma CompleteLoses(c: Conn, input: Input, wire: Wire)
    requires Complete(c, wire)
    ensures !KeepsMessages(c, input, wire)
  {
    assert Buffered(c) + Incoming(c, input, wire) == Buffered(c);
    MessagesOk(Buffered(c), wire);
    MessagesOk(Buffered(FetchData(c, wire).conn), wire);
  }

  lemma IncompleteKeeps(c: Conn, input: Input, wire: Wire)
    requires !Complete(c, wire)
    ensures KeepsMessages(c, input, wire)
  {
    var all := Buffered(c) + Incoming(c, input, wire);
    MessagesOk(all, wire);
    MessagesOk(Buffered(c), wire);
    assert Incoming(c, input, wire) == [] ==> all == Buffered(c);
  }

  /** `conn_read(msg)` loses no message if and only if no complete message is buffered when
      it is called. */
  lemma ConnReadKeepsMessages(c: Conn, input: Input, wire: Wire)
    ensures KeepsMessages(c, input, wire) <==> !Complete(c, wire)
  {
    if Complete(c, wire) {
      CompleteLoses(c, input, wire);
    } else {
      IncompleteKeeps(c, input, wire);
    }
  }

  /** Two messages in one packet: the second call finds the second message buffered, takes it
      and drops it. */
  lemma SecondDecodeDrops(m1: Msg, m2: Msg, after: seq<Byte>, wire: Wire)
    requires HEAD_LEN <= |after| && WellFormed(m1, wire) && WellFormed(m2, wire)
    ensures var b := Encode(m1, after) + Encode(m2, after);
            var r1 := ConnRead(Conn(CONNECTED, None), Bytes(b), wire);
            var r2 := ConnRead(r1.conn, Again, wire);
            r1.msg == Some(m1) && r2 == Result(PAUSE, None, Conn(CONNECTED, Some([])))
  {
    var e1, e2 := Encode(m1, after), Encode(m2, after);
    DecodeEncode(m1, after, e2, wire);
    DecodeEncode(m2, after, [], wire);
    assert e2 + [] == e2 && [] + (e1 + e2) == e1 + e2 && (e1 + e2)[|e1|..] == e2;
    assert e2[|e2|..] == [];
  }

  /** Two messages buffered, the second without a body: the first is dropped, and the second is
      returned with its body. */
  lemma SecondDecodeMixes(c: Conn, m: Msg, h: Head, after: seq<Byte>, input: Input, wire: Wire)
    requires HEAD_LEN <= |after| && WellFormed(m, wire) && FullHead(h) && h.len < 0
    requires c == Conn(CONNECTED, Some(Encode(m, after) + Encode(Msg(h, []), after)))
    ensures ConnRead(c, input, wire) == Result(OK, Some(Msg(h, m.body)), Conn(CONNECTED, Some([])))
  {
    var e1, e2 := Encode(m, after), Encode(Msg(h, []), after);
    DecodeEncode(m, after, e2, wire);
    NoBodyRoundTrip(Msg(h, []), after, [], wire);
    assert e2 + [] == e2 && (e1 + e2)[|e1|..] == e2 && e2[HEAD_LEN..] == [];
  }

  // --------------------------------------------------------------- handling

  /** The handlers of a connection. Each answers the k-th message of the connection with an
      error code and leaves the connection in some state. */
  datatype Handlers = Handlers(
    system: bool, worker: bool,
    sys: (nat, Msg) -> int, app: (nat, Msg) -> int, fate: (nat, Msg) -> State)

  /** A call of a handler: which message of the connection it was given, and its answer. */
  datatype Call = Call(at: nat, msg: Msg, ret: int)

  /** What has been done about the messages: they are passed to the system's handler, to the
      application's, or refused with an answer to the peer. */
  datatype Calls = Calls(sys: seq<Call>, app: seq<Call>, refused: seq<Msg>)

  const NoCalls := Calls([], [], [])

  /** What the loop does with the k-th message. */
  function Ask(h: Handlers, k: nat, m: Msg, a: Calls): (r: (int, Calls)) {
    var first := if h.system then h.sys(k, m) else ERR_UNKNOWN_CMD;
    var b := if h.system then a.(sys := a.sys + [Call(k, m, first)]) else a;
    if first != ERR_UNKNOWN_CMD then (first, b)
    else if !h.worker then (ERR_UNKNOWN_CMD, b.(refused := b.refused + [m]))
    else
      var ret := h.app(k, m);
      (ret, b.(app := b.app + [Call(k, m, ret)],
               refused := if ret == ERR_UNKNOWN_CMD then b.refused + [m] else b.refused))
  }

  datatype Round = Round(ret: int, conn: Conn, handled: seq<Msg>, calls: Calls, overran: bool)

  /** The code of `process_tcp_msg` after a read without a message. */
  function Closing(f: Result, handled: seq<Msg>, a: Calls): (r: Round) {
    Round(if f.status == PAUSE then ERR_OK else ERR_PACKET_DECODE_FAILED, f.conn, handled, a, f.status == OVERRUN)
  }

  /** The loop of `process_tcp_msg`, from a message that has just been read. */
  function HandleFrom(c: Conn, m: Msg, handled: seq<Msg>, a: Calls, h: Handlers, wire: Wire): (r: Round)
    requires c.recv.Some?
    decreases |Buffered(c)|
  {
    var (ret, b) := Ask(h, |handled|, m, a);
    var d, done := c.(state := h.fate(|handled|, m)), handled + [m];
    if ret != ERR_OK then Round(ret, d, done, b, false)
    else
      var f := FetchData(d, wire);
      if f.status == OK then HandleFrom(f.conn, f.msg.value, done, b, h, wire)
      else Closing(f, done, b)
  }

  function ProcessTcp(c: Conn, input: Input, handled: seq<Msg>, a: Calls, h: Handlers, wire: Wire): (r: Round) {
    var q := ConnRead(c, input, wire);
    if q.status == OK && q.conn.recv.Some? then HandleFrom(q.conn, q.msg.value, handled, a, h, wire)
    else Closing(q, handled, a)
  }

  // ------------------------------------------------------ who is asked what

  /** The answer to the k-th message, when it is the last: that of the handler that was asked
      last about it. */
  function Answer(a: Calls, k: nat): (ret: int) {
    if a.app != [] && Last(a.app).at == k then Last(a.app).ret
    else if a.sys != [] && Last(a.sys).at == k then Last(a.sys).ret
    else ERR_UNKNOWN_CMD
  }

  /** The last message handled is the one that ended the round. */
  predicate Stopped(handled: seq<Msg>, a: Calls, h: Handlers) {
    && handled != []
    && var k := |handled| - 1;
       Answer(a, k) != ERR_OK || h.fate(k, Last(handled)) in {UNKNOWN, BROKEN}
  }

  /** The messages that were passed in some calls, with their places. */
  function Passed(cs: seq<Call>): (r: seq<(nat, Msg)>) {
    if cs == [] then [] else Passed(DropLast(cs)) + [(Last(cs).at, Last(cs).msg)]
  }

  function Numbered(ms: seq<Msg>): (r: seq<(nat, Msg)>) {
    seq(|ms|, k requires 0 <= k < |ms| => (k, ms[k]))
  }

  /** The calls that were answered with `ERR_UNKNOWN_CMD`. */
  function Unknown(cs: seq<Call>): (r: seq<Call>) {
    if cs == [] then []
    else Unknown(DropLast(cs)) + if Last(cs).ret == ERR_UNKNOWN_CMD then [Last(cs)] else []
  }

  predicate Before(cs: seq<Call>, n: nat) {
    cs != [] ==> Last(cs).at < n
  }

  /** No call yet about the n-th message. */
  predicate Fits(a: Calls, n: nat) {
    Before(a.sys, n) && Before(a.app, n)
  }

  /** On a system connection, the system's handler has been given each message once and in
      order. On a worker, the application's handler has been given, once and in order, exactly
      those that the former answered with `ERR_UNKNOWN_CMD`, or all of them if the connection
      is not a system one. Nobody else has been called, and the answers are the handlers'. */
  predicate Asked(a: Calls, handled: seq<Msg>, h: Handlers) {
    && Passed(a.sys) == (if h.system then Numbered(handled) else [])
    && Passed(a.app) == (if !h.worker then [] else if h.system then Passed(Unknown(a.sys)) else Numbered(handled))
    && (forall c :: c in a.sys ==> c.ret == h.sys(c.at, c.msg))
    && (forall c :: c in a.app ==> c.ret == h.app(c.at, c.msg))
    && Fits(a, |handled|)
  }

  /** Only the last message can have been refused, and it has been exactly if its answer is
      `ERR_UNKNOWN_CMD`. */
  predicate Refuses(a: Calls, handled: seq<Msg>) {
    a.refused ==
      if handled != [] && Answer(a, |handled| - 1) == ERR_UNKNOWN_CMD then [Last(handled)] else []
  }

  predicate Content(a: Calls, handled: seq<Msg>) {
    handled != [] ==> Answer(a, |handled| - 1) == ERR_OK
  }

  lemma PassedNext(cs: seq<Call>, c: Call)
    ensures Passed(cs + [c]) == Passed(cs) + [(c.at, c.msg)]
    ensures Unknown(cs + [c]) == Unknown(cs) + if c.ret == ERR_UNKNOWN_CMD then [c] else []
  {
    assert DropLast(cs + [c]) == cs && Last(cs + [c]) == c;
  }

  lemma AskSystem(h: Handlers, handled: seq<Msg>, m: Msg, a: Calls)
    requires Asked(a, handled, h)
    ensures var b := Ask(h, |handled|, m, a).1;
            && Passed(b.sys) == (if h.system then Numbered(handled + [m]) else [])
            && (forall c :: c in b.sys ==> c.ret == h.sys(c.at, c.msg))
            && Before(b.sys, |handled| + 1)
  {
    if h.system {
      PassedNext(a.sys, Call(|handled|, m, h.sys(|handled|, m)));
      assert Numbered(handled + [m]) == Numbered(handled) + [(|handled|, m)];
    }
  }

  lemma AskApp(h: Handlers, handled: seq<Msg>, m: Msg, a: Calls)
    requires Asked(a, handled, h)
    ensures var b := Ask(h, |handled|, m, a).1;
            && Passed(b.app) == (if !h.worker then []
                                 else if h.system then Passed(Unknown(b.sys)) else Numbered(handled + [m]))
            && (forall c :: c in b.app ==> c.ret == h.app(c.at, c.msg))
            && Before(b.app, |handled| + 1)
  {
    var k := |handled|;
    PassedNext(a.app, Call(k, m, h.app(k, m)));
    if h.system {
      var c := Call(k, m, h.sys(k, m));
      PassedNext(a.sys, c);
      PassedNext(Unknown(a.sys), c);
      assert Unknown(a.sys) + [] == Unknown(a.sys);
    } else {
      assert Numbered(handled + [m]) == Numbered(handled) + [(k, m)];
    }
  }

  lemma AskAnswers(h: Handlers, k: nat, m: Msg, a: Calls)
    requires Fits(a, k)
    ensures var r := Ask(h, k, m, a);
            r.0 == Answer(r.1, k) && Fits(r.1, k + 1)
  {
  }

  lemma AskKeeps(h: Handlers, handled: seq<Msg>, m: Msg, a: Calls)
    requires Asked(a, handled, h)
    ensures var r := Ask(h, |handled|, m, a);
            && Asked(r.1, handled + [m], h) && r.0 == Answer(r.1, |handled|)
            && (Refuses(a, handled) && Content(a, handled) ==> Refuses(r.1, handled + [m]))
  {
    AskSystem(h, handled, m, a);
    AskApp(h, handled, m, a);
    AskAnswers(h, |handled|, m, a);
    assert Last(handled + [m]) == m;
    assert a.refused == [] ==> a.refused + [m] == [m];
  }

  /** A round keeps all that, and its code is the answer to the last message, unless that is
      success: then it may also be that the next read or decode failed. */
  ghost predicate Accounts(r: Round, h: Handlers) {
    && Asked(r.calls, r.handled, h) && Refuses(r.calls, r.handled)
    && (Content(r.calls, r.handled) ==> r.ret == ERR_OK || r.ret == ERR_PACKET_DECODE_FAILED)
    && (!Content(r.calls, r.handled) ==> r.ret == Answer(r.calls, |r.handled| - 1) && !r.overran)
  }

  predicate Ready(a: Calls, handled: seq<Msg>, h: Handlers) {
    Asked(a, handled, h) && Refuses(a, handled) && Content(a, handled)
  }

  lemma AskAccounts(h: Handlers, handled: seq<Msg>, m: Msg, a: Calls, d: Conn)
    requires Ready(a, handled, h)
    ensures var r := Ask(h, |handled|, m, a);
            && (r.0 == ERR_OK ==> Ready(r.1, handled + [m], h))
            && (r.0 != ERR_OK ==> Accounts(Round(r.0, d, handled + [m], r.1, false), h))
  {
    AskKeeps(h, handled, m, a);
  }

  lemma ClosingAccounts(f: Result, handled: seq<Msg>, a: Calls, h: Handlers)
    requires Ready(a, handled, h)
    ensures Accounts(Closing(f, handled, a), h)
  {
  }

  lemma {:induction false} HandleFromAccounts(c: Conn, m: Msg, handled: seq<Msg>, a: Calls, h: Handlers, wire: Wire)
    requires c.recv.Some? && Ready(a, handled, h)
    ensures Accounts(HandleFrom(c, m, handled, a, h, wire), h)
    decreases |Buffered(c)|
  {
    var (ret, b) := Ask(h, |handled|, m, a);
    var d := c.(state := h.fate(|handled|, m));
    var f := FetchData(d, wire);
    AskAccounts(h, handled, m, a, d);
    if ret == ERR_OK {
      if f.status == OK {
        HandleFromAccounts(f.conn, f.msg.value, handled + [m], b, h, wire);
      } else {
        ClosingAccounts(f, handled + [m], b, h);
      }
    }
  }

  lemma ProcessAccounts(c: Conn, input: Input, handled: seq<Msg>, a: Calls, h: Handlers, wire: Wire)
    requires Ready(a, handled, h)
    ensures Accounts(ProcessTcp(c, input, handled, a, h, wire), h)
  {
    var q := ConnRead(c, input, wire);
    if q.status == OK && q.conn.recv.Some? {
      HandleFromAccounts(q.conn, q.msg.value, handled, a, h, wire);
    } else {
      ClosingAccounts(q, handled, a, h);
    }
  }

  // ---------------------------------------------------- rounds and the stream

  /** How a round relates to the receiver that just decodes everything: it hands over the same
      messages in the same order, all of them unless a handler stopped it, and when it reports
      success it has handed over every complete message. */
  ghost predicate Follows(r: Round, all: Receiver, h: Handlers, wire: Wire) {
    && r.handled <= all.msgs
    && (r.handled == all.msgs || Stopped(r.handled, r.calls, h))
    && (r.ret == ERR_OK ==> Receiver(r.handled, Buffered(r.conn), Going) == all)
    && (r.ret == ERR_OK ==> Decode(Buffered(r.conn), wire).Pause?)
    && (r.overran ==> r.ret != ERR_OK)
    && (r.overran <==> all.end.Wild? && !Stopped(r.handled, r.calls, h))
    && (r.ret == ERR_OK ==> !Stopped(r.handled, r.calls, h))
  }

  lemma DrainGrows(r: Receiver, wire: Wire)
    ensures r.msgs <= Drain(r, wire).msgs
  {
    if r.end.Going? {
      DrainAppends(r.msgs, r.buf, wire);
    }
  }

  lemma {:induction false} HandleFromFollows(c: Conn, m: Msg, handled: seq<Msg>, a: Calls, h: Handlers, wire: Wire)
    requires c.recv.Some? && Fits(a, |handled|)
    ensures Follows(HandleFrom(c, m, handled, a, h, wire),
                    Drain(Receiver(handled + [m], Buffered(c), Going), wire), h, wire)
    decreases |Buffered(c)|
  {
    var (ret, b) := Ask(h, |handled|, m, a);
    AskAnswers(h, |handled|, m, a);
    var d, done := c.(state := h.fate(|handled|, m)), handled + [m];
    var all := Drain(Receiver(done, Buffered(c), Going), wire);
    DrainGrows(Receiver(done, Buffered(c), Going), wire);
    assert Last(done) == m;
    if ret == ERR_OK {
      var f := FetchData(d, wire);
      if f.status == OK {
        HandleFromFollows(f.conn, f.msg.value, done, b, h, wire);
      }
    }
  }

  /** One round on a connection that holds no complete message. */
  lemma ProcessFollows(c: Conn, input: Input, handled: seq<Msg>, a: Calls, h: Handlers, wire: Wire)
    requires !Complete(c, wire) && Fits(a, |handled|) && !Stopped(handled, a, h)
    ensures var r := ProcessTcp(c, input, handled, a, h, wire);
            var all := Feed(Receiver(handled, Buffered(c), Going), Incoming(c, input, wire), wire);
            && (c.state !in {UNKNOWN, BROKEN} ==> Follows(r, all, h, wire))
            && r.handled <= all.msgs
            && (r.ret == ERR_OK ==> Follows(r, all, h, wire))
            && (c.state in {UNKNOWN, BROKEN} ==> !r.overran)
  {
    var q := ConnRead(c, input, wire);
    var more := Incoming(c, input, wire);
    var rx := Receiver(handled, Buffered(c) + more, Going);
    DrainGrows(rx, wire);
    if q.status == OK {
      HandleFromFollows(q.conn, q.msg.value, handled, a, h, wire);
    } else {
      assert more == [] ==> Buffered(c) + more == Buffered(c);
    }
  }

  // ---------------------------------------------------------- the whole run

  /** One turn of `on_handle_requests`: the state other coroutines left the connection in,
      whether it is still valid and alive, and what the socket gives. */
  datatype Turn = Turn(state: State, go: bool, input: Input)

  datatype Service = Service(
    conn: Conn, handled: seq<Msg>, calls: Calls, open: bool, stream: seq<Byte>, overran: bool)

  function Serve(s: Service, turns: seq<Turn>, h: Handlers, wire: Wire): (t: Service)
    decreases |turns|
  {
    if turns == [] || !s.open then s
    else Serve(AfterTurn(s, turns[0], h, wire), turns[1..], h, wire)
  }

  function AfterTurn(s: Service, t: Turn, h: Handlers, wire: Wire): (q: Service) {
    var c := s.conn.(state := t.state);
    if !t.go then s.(conn := c.(state := SHUT), open := false)
    else
      var r := ProcessTcp(c, t.input, s.handled, s.calls, h, wire);
      var stream := s.stream + Incoming(c, t.input, wire);
      if r.ret == ERR_OK then Service(r.conn, r.handled, r.calls, true, stream, false)
      else Service(r.conn.(state := SHUT), r.handled, r.calls, false, stream, r.overran)
  }

  const Accepted := Service(Conn(CONNECTED, None), [], NoCalls, true, [], false)

  /** What every reachable state of the service keeps. */
  ghost predicate Exact(s: Service, h: Handlers, wire: Wire) {
    var all := Feed(Start, s.stream, wire);
    && s.handled <= all.msgs
    && (s.open ==> all == Receiver(s.handled, Buffered(s.conn), Going) && !Stopped(s.handled, s.calls, h))
    && (s.overran <==> all.end.Wild? && !Stopped(s.handled, s.calls, h))
    && Asked(s.calls, s.handled, h) && Refuses(s.calls, s.handled)
    && (!s.open ==> s.conn.state == SHUT)
  }

  lemma FeedTwice(a: seq<Byte>, b: seq<Byte>, wire: Wire)
    requires b == [] || !Feed(Start, a, wire).end.Wild?
    ensures Feed(Feed(Start, a, wire), b, wire) == Feed(Start, a + b, wire)
  {
    DrainEarly(Start.(buf := Start.buf + a), b, wire);
    assert Start.buf + a + b == Start.buf + (a + b);
  }

  lemma AfterTurnExact(s: Service, t: Turn, h: Handlers, wire: Wire)
    requires Exact(s, h, wire) && s.open
    ensures Exact(AfterTurn(s, t, h, wire), h, wire)
    ensures !Complete(s.conn.(state := t.state), wire)
  {
    var c := s.conn.(state := t.state);
    assert Decode(Buffered(c), wire).Pause?;
    ProcessFollows(c, t.input, s.handled, s.calls, h, wire);
    ProcessAccounts(c, t.input, s.handled, s.calls, h, wire);
    assert s.stream + [] == s.stream;
    FeedTwice(s.stream, Incoming(c, t.input, wire), wire);
  }

  lemma {:induction false} ServeExact(s: Service, turns: seq<Turn>, h: Handlers, wire: Wire)
    requires Exact(s, h, wire)
    ensures Exact(Serve(s, turns, h, wire), h, wire)
    decreases |turns|
  {
    if turns != [] && s.open {
      AfterTurnExact(s, turns[0], h, wire);
      ServeExact(AfterTurn(s, turns[0], h, wire), turns[1..], h, wire);
    }
  }

  lemma AcceptedExact(h: Handlers, wire: Wire)
    ensures Exact(Accepted, h, wire)
  {
    assert Start.buf + [] == [];
  }

  /** Over every run of the request loop, each message that was handed over has been passed to
      the handlers that are to have it, once and in order, and with what they answered; as long
      as the connection is open, all of them have been answered with success, and it is left only
      by closing the connection. */
  lemma ServeAsksHandlers(turns: seq<Turn>, h: Handlers, wire: Wire)
    ensures var s := Serve(Accepted, turns, h, wire);
            && Asked(s.calls, s.handled, h) && Refuses(s.calls, s.handled)
            && (if s.open then Content(s.calls, s.handled) else s.conn.state == SHUT)
  {
    AcceptedExact(h, wire);
    ServeExact(Accepted, turns, h, wire);
  }

  /** The socket has given bytes, or has none yet. */
  predicate Readable(c: Conn, input: Input) {
    !IsInvalid(c.state) && (input.Again? || (input.Bytes? && input.data != []))
  }

  /** A round succeeds exactly if the socket could be read, nothing in the stream is broken, and
      no handler has stopped it. */
  lemma RoundSucceeds(c: Conn, input: Input, handled: seq<Msg>, a: Calls, h: Handlers, wire: Wire)
    requires !Complete(c, wire) && Fits(a, |handled|) && !Stopped(handled, a, h)
    ensures var r := ProcessTcp(c, input, handled, a, h, wire);
            var all := Feed(Receiver(handled, Buffered(c), Going), Incoming(c, input, wire), wire);
            r.ret == ERR_OK <==> Readable(c, input) && all.end.Going? && !Stopped(r.handled, r.calls, h)
  {
    var q := ConnRead(c, input, wire);
    ReadOutcome(c, input, handled, wire);
    if q.status == OK {
      HandleFromSucceeds(q.conn, q.msg.value, handled, a, h, wire);
    }
  }

  /** What the read at the start of a round finds. */
  lemma ReadOutcome(c: Conn, input: Input, handled: seq<Msg>, wire: Wire)
    requires !Complete(c, wire)
    ensures var q := ConnRead(c, input, wire);
            var all := Feed(Receiver(handled, Buffered(c), Going), Incoming(c, input, wire), wire);
            && (q.status == OK ==> Readable(c, input) && q.conn.recv.Some?
                                   && all == Drain(Receiver(handled + [q.msg.value], Buffered(q.conn), Going), wire))
            && (q.status != OK ==> (q.status == PAUSE <==> Readable(c, input) && all.end.Going?))
  {
    assert Incoming(c, input, wire) == [] ==> Buffered(c) + Incoming(c, input, wire) == Buffered(c);
  }

  lemma {:induction false} HandleFromSucceeds(c: Conn, m: Msg, handled: seq<Msg>, a: Calls, h: Handlers, wire: Wire)
    requires c.recv.Some? && Fits(a, |handled|)
    ensures var r := HandleFrom(c, m, handled, a, h, wire);
            var all := Drain(Receiver(handled + [m], Buffered(c), Going), wire);
            r.ret == ERR_OK <==> all.end.Going? && !Stopped(r.handled, r.calls, h)
    decreases |Buffered(c)|
  {
    AskAnswers(h, |handled|, m, a);
    var d, done := c.(state := h.fate(|handled|, m)), handled + [m];
    var (ret, b) := Ask(h, |handled|, m, a);
    assert Last(done) == m;
    if ret == ERR_OK {
      var f := FetchData(d, wire);
      FetchOutcome(d, done, wire);
      if f.status == OK {
        HandleFromSucceeds(f.conn, f.msg.value, done, b, h, wire);
      }
    }
  }

  lemma FetchOutcome(d: Conn, done: seq<Msg>, wire: Wire)
    requires d.recv.Some?
    ensures var f := FetchData(d, wire);
            var all := Drain(Receiver(done, Buffered(d), Going), wire);
            && (f.status == OK ==> all == Drain(Receiver(done + [f.msg.value], Buffered(f.conn), Going), wire))
            && (f.status != OK ==> (f.status == PAUSE <==> d.state !in {UNKNOWN, BROKEN} && all.end.Going?))
  {
  }

  /** When a turn leaves the connection open. */
  lemma StaysOpen(s: Service, t: Turn, h: Handlers, wire: Wire)
    requires Exact(s, h, wire) && s.open
    ensures var q := AfterTurn(s, t, h, wire);
            q.open <==> t.go && Readable(s.conn.(state := t.state), t.input)
                        && Feed(Start, q.stream, wire).end.Going? && !Stopped(q.handled, q.calls, h)
  {
    var c := s.conn.(state := t.state);
    AfterTurnExact(s, t, h, wire);
    RoundSucceeds(c, t.input, s.handled, s.calls, h, wire);
    FeedTwice(s.stream, Incoming(c, t.input, wire), wire);
  }

  /** No message is dropped, repeated or reordered: over every run of the request loop, the
      handlers have been given the messages of the byte stream in order, and every complete
      one of them as long as the connection is open. The loop never parses memory that it did
      not receive if and only if the stream comes to no header that is too long before a
      handler ends the connection. */
  lemma ServeExactlyOnce(turns: seq<Turn>, h: Handlers, wire: Wire)
    ensures var s := Serve(Accepted, turns, h, wire);
            && s.handled <= Messages(s.stream, wire)
            && (s.open ==> s.handled == Messages(s.stream, wire))
            && (s.overran <==> Overflows(s.stream, 0, wire) && !Stopped(s.handled, s.calls, h))
            && (s.open ==> !Overflows(s.stream, 0, wire))
  {
    var s := Serve(Accepted, turns, h, wire);
    AcceptedExact(h, wire);
    ServeExact(Accepted, turns, h, wire);
    assert Start.buf + s.stream == s.stream;
    WildOverflows(Receiver([], s.stream, Going), 0, wire);
  }

  // ------------------------------------------------------------ end to end

  /** The sending half: `out` has been accepted by the socket, `pending` is in the send buffer.
      A message is appended by `conn_append_message`; each `conn_write` moves some bytes. */
  datatype Sender = Sender(out: seq<Byte>, pending: seq<Byte>)
  datatype Send = Append(msg: Msg, after: seq<Byte>) | Write(accepted: nat)

  function AfterSend(s: Sender, e: Send): (t: Sender)
    requires e.Append? ==> HEAD_LEN <= |e.after|
  {
    match e
    case Append(m, after) => s.(pending := s.pending + Encode(m, after))
    case Write(k) =>
      var n := Min(k, |s.pending|);
      Sender(s.out + s.pending[..n], s.pending[n..])
  }

  ghost predicate SendsWell(es: seq<Send>, wire: Wire) {
    forall e :: e in es && e.Append? ==> HEAD_LEN <= |e.after| && WellFormed(e.msg, wire)
  }

  function SendAll(s: Sender, es: seq<Send>): (t: Sender)
    requires forall e :: e in es && e.Append? ==> HEAD_LEN <= |e.after|
    decreases |es|
  {
    if es == [] then s else SendAll(AfterSend(s, es[0]), es[1..])
  }

  function Appended(es: seq<Send>): (ms: seq<Msg>) {
    if es == [] then []
    else (if es[0].Append? then [es[0].msg] else []) + Appended(es[1..])
  }

  /** The bytes of a well-formed message do not depend on the memory behind its header. */
  lemma EncodeIsExact(m: Msg, a: seq<Byte>, b: seq<Byte>)
    requires HEAD_LEN <= |a| && HEAD_LEN <= |b| && FullHead(m.head)
    ensures Encode(m, a) == Encode(m, b)
  {
    assert HeadBytes(m.head, a) == SerializeHead(m.head) == HeadBytes(m.head, b);
  }

  lemma Regroup(a: seq<Byte>, b: seq<Byte>, c: seq<Byte>, d: seq<Byte>)
    ensures a + (b + c) + d == a + b + (c + d)
  {
    assert a + (b + c) + d == a + b + (c + d);
  }

  lemma WriteConserves(s: Sender, k: nat)
    ensures var t := AfterSend(s, Write(k));
            t.out + t.pending == s.out + s.pending
  {
    var n := Min(k, |s.pending|);
    Regroup(s.out, s.pending[..n], s.pending[n..], []);
    assert s.pending == s.pending[..n] + s.pending[n..];
    assert s.out + (s.pending[..n] + s.pending[n..]) + [] == s.out + s.pending;
    assert s.pending[n..] + [] == s.pending[n..];
    assert s.out + s.pending[..n] + s.pending[n..] == s.out + s.pending;
  }

  /** Whatever was appended is, in order, what the socket took and what is still pending. */
  lemma {:induction false} SendConserves(s: Sender, es: seq<Send>, after: seq<Byte>, wire: Wire)
    requires SendsWell(es, wire) && HEAD_LEN <= |after|
    ensures var t := SendAll(s, es);
            t.out + t.pending == s.out + s.pending + EncodeAll(Appended(es), after)
    decreases |es|
  {
    if es == [] {
      assert s.out + s.pending + [] == s.out + s.pending;
    } else {
      var e, ms := es[0], Appended(es[1..]);
      SendConserves(AfterSend(s, e), es[1..], after, wire);
      if e.Append? {
        var b := Encode(e.msg, after);
        EncodeIsExact(e.msg, e.after, after);
        assert Appended(es) == [e.msg] + ms && ([e.msg] + ms)[1..] == ms;
        Regroup(s.out, s.pending, b, EncodeAll(ms, after));
      } else {
        WriteConserves(s, e.accepted);
        assert Appended(es) == ms;
      }
    }
  }

  lemma {:induction false} AppendedWell(es: seq<Send>, wire: Wire)
    requires SendsWell(es, wire)
    ensures forall m :: m in Appended(es) ==> WellFormed(m, wire)
  {
    if es != [] {
      AppendedWell(es[1..], wire);
    }
  }

  /** Sender to handler: however the writes and the reads cut the bytes, the handlers are
      given the messages that were sent, in order; and all of them if the connection is open
      and every byte has been sent and read. */
  lemma SentIsHandled(es: seq<Send>, turns: seq<Turn>, h: Handlers, wire: Wire, after: seq<Byte>)
    requires SendsWell(es, wire) && HEAD_LEN <= |after|
    requires Serve(Accepted, turns, h, wire).stream <= SendAll(Sender([], []), es).out
    ensures var s := Serve(Accepted, turns, h, wire);
            var t := SendAll(Sender([], []), es);
            && s.handled <= Appended(es)
            && (s.open && t.pending == [] && s.stream == t.out ==> s.handled == Appended(es))
  {
    var s, t := Serve(Accepted, turns, h, wire), SendAll(Sender([], []), es);
    var total := EncodeAll(Appended(es), after);
    ServeExactlyOnce(turns, h, wire);
    SendConserves(Sender([], []), es, after, wire);
    assert t.out + t.pending == total;
    AppendedWell(es, wire);
    DrainEncoded([], Appended(es), after, wire);
    var left := total[|s.stream|..];
    assert total == s.stream + left;
    DrainEarly(Start.(buf := s.stream), left, wire);
    assert Start.buf + s.stream == s.stream;
    FeedTwice(s.stream, left, wire);
    assert Start.buf + total == total && [] + Appended(es) == Appended(es);
    var seen := Feed(Start, s.stream, wire);
    DrainGrows(seen.(buf := seen.buf + left), wire);
    if t.pending == [] && s.stream == t.out {
      assert s.stream == total;
    }
  }

  // ------------------------------------------------------------ the objects

  class Connection {
    var state: State
    var recv: Buffer?
    const codec: Codec

    ghost predicate Valid()
      reads this, recv
    {
      recv != null ==> recv.Valid()
    }

    ghost function Value(): (c: Conn)
      reads this, recv, if recv != null then {recv.data} else {}
      requires Valid()
    {
      Conn(state, if recv == null then None else Some(recv.Contents()))
    }

    ghost function Footprint(): (objects: set<object?>)
      reads this, recv
    {
      if recv == null then {this} else {this, recv, recv.data}
    }

    constructor (wire: Wire)
      ensures Valid() && Value() == Conn(UNKNOWN, None) && codec.wire == wire && fresh(Footprint())
    {
      state, recv := UNKNOWN, null;
      codec := new Codec(wire);
    }

    method Fetch() returns (status: Status, msg: Option<Msg>)
      requires Valid() && recv != null
      modifies recv`readIdx
      ensures Valid() && Result(status, msg, Value()) == FetchData(old(Value()), codec.wire)
    {
      if state == UNKNOWN || state == BROKEN {
        return ERR, None;
      }
      status, msg := DecodeInto([]);
    }

    method DecodeInto(body: seq<Byte>) returns (status: Status, msg: Option<Msg>)
      requires Valid() && recv != null
      modifies recv`readIdx
      ensures Valid() && Result(status, msg, Value()) == DecodeProto(old(Value()), body, codec.wire)
    {
      var r := codec.DecodeFrom(recv);
      match r {
        case Pause => return PAUSE, None;
        case Err => return ERR, None;
        case Overrun(_) => return OVERRUN, None;
        case Ok(m, _) => return OK, Some(if m.head.len <= 0 then m.(body := body) else m);
      }
    }

    /** The longest read that one `readv` can deliver. */
    function Limit(): (n: nat)
      reads this, recv
      requires Valid()
    {
      if recv == null then EXTRA_AREA else recv.ReadLimit()
    }

    method Receive(input: Input) returns (status: Status)
      requires Valid() && (input.Bytes? ==> |input.data| <= Limit())
      modifies Footprint()
      ensures Valid() && state == old(state) && fresh(Footprint() - old(Footprint()))
      ensures Result(status, None, Value()) == ReadSome(old(Value()), input)
      ensures status == OK ==> recv != null
    {
      if IsInvalid(state) {
        return ERR;
      }
      if recv == null {
        recv := new Buffer();
      }
      var got := if input.Bytes? then Some(input.data) else None;
      ghost var was := recv.Contents();
      var n := recv.ReadFd(got);
      assert was + [] == was;
      if n == 0 {
        return CLOSED;
      }
      if n < 0 {
        return if input.Again? then PAUSE else ERR;
      }
      if recv.cap > BUFFER_MAX_READ && recv.Readable() < recv.cap / 2 {
        var _ := recv.Compact(recv.Readable() * 2);
      }
      return OK;
    }

    method Read(input: Input) returns (status: Status, msg: Option<Msg>)
      requires Valid() && (input.Bytes? ==> |input.data| <= Limit())
      modifies Footprint()
      ensures Valid() && state == old(state) && fresh(Footprint() - old(Footprint()))
      ensures Result(status, msg, Value()) == ConnRead(old(Value()), input, codec.wire)
      ensures status == OK ==> recv != null
    {
      status, msg := PAUSE, None;
      if recv != null {
        status, msg := Fetch();
      }
      var body := if msg.Some? then msg.value.body else [];
      if status == PAUSE {
        status := Receive(input);
      }
      if status != OK {
        return status, None;
      }
      status, msg := DecodeInto(body);
    }
  }

  /** The sending half of a connection. `out` is what the socket has accepted. */
  class Outlet {
    var state: State
    var send: Buffer
    const codec: Codec
    ghost var out: seq<Byte>

    ghost predicate Valid()
      reads this, send
    {
      send.Valid()
    }

    ghost function Value(): (s: Sender)
      reads this, send, send.data
      requires Valid()
    {
      Sender(out, send.Contents())
    }

    constructor (state: State, wire: Wire)
      ensures Valid() && Value() == Sender([], []) && this.state == state
      ensures fresh(send) && fresh(send.data)
    {
      this.state, out := state, [];
      send := new Buffer();
      codec := new Codec(wire);
    }

    /** `conn_append_message`. */
    method AppendMessage(m: Msg, after: seq<Byte>) returns (status: Status)
      requires Valid() && HEAD_LEN <= |after|
      modifies send, send.data
      ensures Valid() && (send.data == old(send.data) || fresh(send.data))
      ensures status == if IsInvalid(state) then ERR else OK
      ensures Value() == if status == OK then AfterSend(old(Value()), Append(m, after)) else old(Value())
    {
      if IsInvalid(state) {
        return ERR;
      }
      codec.EncodeTo(m, send, after);
      return OK;
    }

    /** `conn_write()`; `sent` is what `send` returned, and `again` whether it would block. */
    method WriteSome(sent: int, again: bool) returns (status: Status)
      requires Valid() && sent <= |send.Contents()|
      modifies this`out, send
      ensures Valid() && (send.data == old(send.data) || fresh(send.data))
      ensures Value() == if IsInvalid(state) || sent < 0 then old(Value()) else AfterSend(old(Value()), Write(sent))
      ensures !IsInvalid(state) ==> (status == OK <==> Value().pending == [])
      ensures status != OK ==> (status == PAUSE <==> !IsInvalid(state) && (0 <= sent || again))
    {
      if IsInvalid(state) {
        return ERR;
      }
      if send.Readable() == 0 {
        assert Value().out + [] == Value().out;
        return OK;
      }
      ghost var was := send.Contents();
      var n, bytes := send.WriteFd(sent);
      if n < 0 {
        return if again then PAUSE else ERR;
      }
      out := out + bytes;
      assert bytes == was[..n] && send.Contents() == was[n..];
      if send.cap > BUFFER_MAX_READ && send.Readable() < send.cap / 2 {
        var _ := send.Compact(send.Readable() * 2);
      }
      assert send.Contents() == was[n..];
      return if send.Readable() > 0 then PAUSE else OK;
    }
  }

  /** The part of the loop that finds a handler for a message. */
  method Dispatch(h: Handlers, k: nat, m: Msg, before: Calls) returns (ret: int, calls: Calls)
    ensures (ret, calls) == Ask(h, k, m, before)
  {
    ret, calls := ERR_UNKNOWN_CMD, before;
    if h.system {
      ret := h.sys(k, m);
      calls := calls.(sys := calls.sys + [Call(k, m, ret)]);
    }
    if ret == ERR_UNKNOWN_CMD {
      if h.worker {
        ret := h.app(k, m);
        calls := calls.(app := calls.app + [Call(k, m, ret)]);
      }
      if ret == ERR_UNKNOWN_CMD {
        calls := calls.(refused := calls.refused + [m]);
      }
    }
  }

  /** `process_tcp_msg`; `log` and `before` are the messages and the calls so far. */
  method ProcessTcpMsg(c: Connection, input: Input, h: Handlers, log: seq<Msg>, before: Calls)
    returns (ret: int, handled: seq<Msg>, calls: Calls, overran: bool)
    requires c.Valid() && (input.Bytes? ==> |input.data| <= c.Limit())
    modifies c.Footprint()
    ensures c.Valid() && fresh(c.Footprint() - old(c.Footprint()))
    ensures Round(ret, c.Value(), handled, calls, overran)
         == ProcessTcp(old(c.Value()), input, log, before, h, c.codec.wire)
  {
    ret, handled, calls, overran := ERR_OK, log, before, false;
    var status, msg := c.Read(input);
    if status == OK {
      label Loop:
      ghost var goal := HandleFrom(c.Value(), msg.value, handled, calls, h, c.codec.wire);
      var buffer := c.recv;
      while status == OK
        invariant c.Valid() && c.recv == buffer && buffer != null && buffer.data == old@Loop(buffer.data)
        invariant status == OK ==>
                    msg.Some? && goal == HandleFrom(c.Value(), msg.value, handled, calls, h, c.codec.wire)
        invariant status != OK ==>
                    status != CLOSED && goal == Closing(Result(status, None, c.Value()), handled, calls)
        invariant status == PAUSE ==> ret == ERR_OK
        invariant c.recv == buffer
        decreases |c.recv.Contents()|, status == OK
      {
        ret, calls := Dispatch(h, |handled|, msg.value, calls);
        c.state := h.fate(|handled|, msg.value);
        handled := handled + [msg.value];
        if ret != ERR_OK {
          return;
        }
        status, msg := c.Fetch();
      }
    }
    if status == ERR || status == CLOSED || status == OVERRUN {
      ret, overran := ERR_PACKET_DECODE_FAILED, status == OVERRUN;
    }
  }
}
