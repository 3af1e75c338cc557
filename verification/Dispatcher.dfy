/**
 The dispatcher of one database node (src/core/mysql/mysql_mgr.cpp). Users put tasks into
 the node's queue and wait; a distributor coroutine hands them out to handler coroutines,
 each with its own queue and connection, which answer them one by one.

 Coroutines switch only where they wait, so that each step below is atomic. Tasks are
 numbered as they are sent. Database results and the clock are part of the events.
 */
module Dispatcher {
  import opened Common

  const DIST_CONN_TASKS_ONCE := 50
  const ERR_DB_CONNECT_FAILED := 12009
  const ERR_DB_TASKS_TIME_OUT := 12008

  type Task = nat

  /** Where a handler is in its loop: at the top, waiting for a signal, signalled, connecting,
      failing its tasks after a failed connect, sleeping after that, or executing a task. */
  datatype Phase = Ready | Waiting | Woken | Connecting | Clearing | Sleeping | Executing(task: Task)

  /** `conn` says whether there is a connection object; it is made before it connects. */
  datatype Handler = Handler(tasks: seq<Task>, phase: Phase, conn: bool)

  datatype DistPhase = Running | Idle | Signalled

  /** `free` and `busy` hold handler numbers. `answers` are tasks whose user coroutine has
      been resumed, with their results, in that order. `crashed`: a connection object has been
      taken away from under the call that is using it, and nothing is claimed from there on. */
  datatype State = State(
    max: nat, queue: seq<Task>, dist: DistPhase, handlers: seq<Handler>,
    busy: seq<nat>, free: seq<nat>, connCnt: nat,
    next: Task, answers: seq<(Task, int)>, crashed: bool)

  /** After the first use of the node: the distributor waits. */
  function Start(max: nat): (s: State) {
    State(max, [], Idle, [], [], [], 0, 0, [], false)
  }

  datatype Event =
    | Send
    | DistWake | DistStep
    | Wake(h: nat) | Top(h: nat, expired: bool) | Connected(h: nat, ok: bool, expired: bool)
    | Clear(h: nat) | SleepOver(h: nat) | Executed(h: nat, ret: int)
    | Recycle(h: nat)

  // ---------------------------------------------------------------- senders

  function AfterSend(s: State): (t: State) {
    s.(queue := s.queue + [s.next], next := s.next + 1,
       dist := if s.dist.Idle? then Signalled else s.dist)
  }

  // ------------------------------------------------------------ distributor

  /** `add_to_free_list`. */
  function Freed(s: State, h: nat): (t: State) {
    s.(busy := Without(s.busy, h), free := if h in s.free then s.free else [h] + s.free)
  }

  /** `get_co_data`: a free handler, or a busy one if there are as many as allowed, or a new
      one, which at once finds nothing to do and waits. */
  function Chosen(s: State): (r: (State, nat))
    requires s.free != [] || s.connCnt != s.max || s.busy != []
  {
    if s.free != [] then (s.(free := s.free[1..], busy := s.busy + [s.free[0]]), s.free[0])
    else if s.connCnt == s.max then (s.(busy := s.busy[1..] + [s.busy[0]]), s.busy[0])
    else
      var h := |s.handlers|;
      (Freed(s.(connCnt := s.connCnt + 1, busy := s.busy + [h],
                handlers := s.handlers + [Handler([], Waiting, false)]), h), h)
  }

  function Signal(h: Handler): (r: Handler) {
    if h.phase.Waiting? then h.(phase := Woken) else h
  }

  /** Hands the first tasks of the queue to a handler and signals it. */
  function Assigned(s: State, h: nat): (t: State)
    requires h < |s.handlers|
  {
    var k := Min(DIST_CONN_TASKS_ONCE, |s.queue|);
    var own := s.handlers[h];
    s.(queue := s.queue[k..],
       handlers := s.handlers[h := Signal(own.(tasks := own.tasks + s.queue[..k]))])
  }

  // --------------------------------------------------------------- handlers

  function SetHandler(s: State, h: nat, x: Handler): (t: State)
    requires h < |s.handlers|
  {
    s.(handlers := s.handlers[h := x])
  }

  function Answered(s: State, task: Task, ret: int): (t: State) {
    s.(answers := s.answers + [(task, ret)])
  }

  /** Takes the first task, and answers it at once if it has waited too long. */
  function Popped(s: State, h: nat, expired: bool): (t: State)
    requires h < |s.handlers| && s.handlers[h].tasks != []
  {
    var own := s.handlers[h];
    var task, rest := own.tasks[0], own.tasks[1..];
    if expired then Answered(SetHandler(s, h, Handler(rest, Ready, own.conn)), task, ERR_DB_TASKS_TIME_OUT)
    else SetHandler(s, h, Handler(rest, Executing(task), own.conn))
  }

  function AfterTop(s: State, h: nat, expired: bool): (t: State)
    requires h < |s.handlers|
  {
    var own := s.handlers[h];
    if own.tasks == [] then SetHandler(Freed(s, h), h, own.(phase := Waiting))
    else if !own.conn then SetHandler(s, h, own.(phase := Connecting, conn := true))
    else Popped(s, h, expired)
  }

  /** The connection object stays even if it could not connect. */
  function AfterConnect(s: State, h: nat, ok: bool, expired: bool): (t: State)
    requires h < |s.handlers| && s.handlers[h].tasks != []
  {
    if ok then Popped(s, h, expired) else SetHandler(s, h, s.handlers[h].(phase := Clearing))
  }

  /** One round of `clear_co_tasks`. */
  function AfterClear(s: State, h: nat): (t: State)
    requires h < |s.handlers|
  {
    var own := s.handlers[h];
    if own.tasks == [] then SetHandler(s, h, own.(phase := Sleeping))
    else Answered(SetHandler(s, h, own.(tasks := own.tasks[1..])), own.tasks[0], ERR_DB_CONNECT_FAILED)
  }

  /** The handler is inside a call on its connection object. */
  predicate InUse(h: Handler) {
    h.phase.Connecting? || h.phase.Executing?
  }

  /** The timer closes and drops the connection object of a handler on the free list. */
  function Recycled(s: State, h: nat): (t: State)
    requires h < |s.handlers|
  {
    if InUse(s.handlers[h]) then s.(crashed := true) else SetHandler(s, h, s.handlers[h].(conn := false))
  }

  predicate Enabled(s: State, e: Event) {
    && !s.crashed
    && match e
    case Send => true
    case DistWake => s.dist.Signalled?
    case DistStep => s.dist.Running?
    case Wake(h) => h < |s.handlers| && s.handlers[h].phase.Woken?
    case Top(h, _) => h < |s.handlers| && s.handlers[h].phase.Ready?
    case Connected(h, _, _) => h < |s.handlers| && s.handlers[h].phase.Connecting? && s.handlers[h].tasks != []
    case Clear(h) => h < |s.handlers| && s.handlers[h].phase.Clearing?
    case SleepOver(h) => h < |s.handlers| && s.handlers[h].phase.Sleeping?
    case Executed(h, _) => h < |s.handlers| && s.handlers[h].phase.Executing?
    case Recycle(h) => h < |s.handlers| && h in s.free && s.handlers[h].conn
  }

  /** One round of the distributor. The front of an empty busy list is where the code would go
      wrong; CanChoose shows that it never gets there. */
  function Distributed(s: State): (t: State) {
    if s.queue == [] then s.(dist := Idle)
    else if s.free == [] && s.connCnt == s.max && s.busy == [] then s
    else if Chosen(s).1 < |Chosen(s).0.handlers| then Assigned(Chosen(s).0, Chosen(s).1)
    else s
  }

  function Apply(s: State, e: Event): (t: State)
    requires Enabled(s, e)
  {
    match e
    case Send => AfterSend(s)
    case DistWake => s.(dist := Running)
    case DistStep => Distributed(s)
    case Wake(h) => SetHandler(s, h, s.handlers[h].(phase := Ready))
    case Top(h, expired) => AfterTop(s, h, expired)
    case Connected(h, ok, expired) => AfterConnect(s, h, ok, expired)
    case Clear(h) => AfterClear(s, h)
    case SleepOver(h) => SetHandler(s, h, s.handlers[h].(phase := Ready))
    case Executed(h, ret) =>
      Answered(SetHandler(s, h, s.handlers[h].(phase := Ready)), s.handlers[h].phase.task, ret)
    case Recycle(h) => Recycled(s, h)
  }

  // ---------------------------------------------------------- the invariant

  /** How often a task occurs. */
  function Occ(ts: seq<Task>, t: Task): (n: nat) {
    if ts == [] then 0 else Occ(DropLast(ts), t) + if Last(ts) == t then 1 else 0
  }

  /** How often a handler has a task, waiting or in its hands. */
  function Has(h: Handler, t: Task): (n: nat) {
    Occ(h.tasks, t) + if h.phase == Executing(t) then 1 else 0
  }

  function HasAll(hs: seq<Handler>, t: Task): (n: nat) {
    if hs == [] then 0 else HasAll(DropLast(hs), t) + Has(Last(hs), t)
  }

  /** How often the user of a task has been resumed. */
  function Resumed(done: seq<(Task, int)>, t: Task): (n: nat) {
    if done == [] then 0 else Resumed(DropLast(done), t) + if Last(done).0 == t then 1 else 0
  }

  function Tally(s: State, t: Task): (n: nat) {
    Occ(s.queue, t) + HasAll(s.handlers, t) + Resumed(s.answers, t)
  }

  /** Every task that was sent is in one place: the queue, a handler, or answered. */
  predicate InOnePlace(s: State, t: Task) {
    Tally(s, t) == if t < s.next then 1 else 0
  }

  ghost predicate Conserved(s: State) {
    forall t {:trigger InOnePlace(s, t)} :: InOnePlace(s, t)
  }

  /** A waiting handler has nothing to do and is on the free list; a connecting one has work; and
      the only handler on the free list that may not be waiting is the newest. */
  predicate HandlerOk(s: State, h: nat)
    requires h < |s.handlers|
  {
    && (s.handlers[h].phase.Waiting? ==> s.handlers[h].tasks == [] && h in s.free)
    && (s.handlers[h].phase.Connecting? ==> s.handlers[h].tasks != [])
    && (InUse(s.handlers[h]) ==> s.handlers[h].conn)
    && (h in s.free && !s.handlers[h].phase.Waiting? ==> h == |s.handlers| - 1)
    && (h in s.busy <==> h !in s.free)
  }

  /** The lists hold every handler once, and there are no more than allowed. */
  ghost predicate Pooled(s: State) {
    && Distinct(s.busy) && Distinct(s.free)
    && (forall h :: h in s.busy ==> h < |s.handlers|) && (forall h :: h in s.free ==> h < |s.handlers|)
    && s.connCnt == |s.handlers| == |s.busy| + |s.free| && s.connCnt <= s.max && 0 < s.max
  }

  ghost predicate Inv(s: State) {
    && Conserved(s) && Pooled(s)
    && (s.dist.Idle? ==> s.queue == [])
    && (forall h: nat {:trigger HandlerOk(s, h)} :: h < |s.handlers| ==> HandlerOk(s, h))
  }

  lemma ChosenExists(s: State)
    requires Pooled(s) && (s.free != [] || s.connCnt != s.max || s.busy != [])
    ensures Chosen(s).1 < |Chosen(s).0.handlers|
  {
    assert s.free != [] ==> s.free[0] in s.free;
    assert s.busy != [] ==> s.busy[0] in s.busy;
  }

  /** A handler can be chosen: the front of the busy list is never taken from an empty list. */
  lemma CanChoose(s: State)
    requires Inv(s)
    ensures s.free != [] || s.connCnt != s.max || s.busy != []
  {
    if |s.handlers| > 0 {
      assert HandlerOk(s, 0);
    }
  }

  // ------------------------------------------------------------ bookkeeping

  lemma {:induction false} OccConcat(a: seq<Task>, b: seq<Task>, t: Task)
    ensures Occ(a + b, t) == Occ(a, t) + Occ(b, t)
  {
    if b == [] {
      assert a + b == a;
    } else {
      assert DropLast(a + b) == a + DropLast(b) && Last(a + b) == Last(b);
      OccConcat(a, DropLast(b), t);
    }
  }

  lemma OccHead(ts: seq<Task>, t: Task)
    requires ts != []
    ensures Occ(ts, t) == (if ts[0] == t then 1 else 0) + Occ(ts[1..], t)
  {
    assert ts == [ts[0]] + ts[1..];
    OccConcat([ts[0]], ts[1..], t);
    assert DropLast([ts[0]]) == [] && Occ([], t) == 0;
  }

  lemma {:induction false} HasAllSet(hs: seq<Handler>, h: nat, x: Handler, t: Task)
    requires h < |hs|
    ensures HasAll(hs[h := x], t) + Has(hs[h], t) == HasAll(hs, t) + Has(x, t)
  {
    if h == |hs| - 1 {
      assert DropLast(hs[h := x]) == DropLast(hs);
    } else {
      HasAllSet(DropLast(hs), h, x, t);
      assert DropLast(hs[h := x]) == DropLast(hs)[h := x] && Last(hs[h := x]) == Last(hs);
    }
  }

  lemma HasAllAdd(hs: seq<Handler>, x: Handler, t: Task)
    ensures HasAll(hs + [x], t) == HasAll(hs, t) + Has(x, t)
  {
    assert DropLast(hs + [x]) == hs && Last(hs + [x]) == x;
  }

  lemma ResumedAdd(done: seq<(Task, int)>, a: (Task, int), t: Task)
    ensures Resumed(done + [a], t) == Resumed(done, t) + if a.0 == t then 1 else 0
  {
    assert DropLast(done + [a]) == done && Last(done + [a]) == a;
  }

  lemma SameConserved(s: State, t: State)
    requires Conserved(s) && t.queue == s.queue && t.handlers == s.handlers
    requires t.answers == s.answers && t.next == s.next
    ensures Conserved(t)
  {
    forall x ensures InOnePlace(t, x) {
      assert InOnePlace(s, x);
    }
  }

  /** A handler changes; what it had is what it has. */
  lemma SetConserves(s: State, h: nat, x: Handler)
    requires h < |s.handlers| && Conserved(s) && forall t :: Has(x, t) == Has(s.handlers[h], t)
    ensures Conserved(SetHandler(s, h, x))
  {
    forall t ensures InOnePlace(SetHandler(s, h, x), t) {
      assert InOnePlace(s, t) && Has(x, t) == Has(s.handlers[h], t);
      HasAllSet(s.handlers, h, x, t);
    }
  }

  /** A handler gives up one task, which is answered. */
  lemma AnswerConserves(s: State, h: nat, x: Handler, task: Task, ret: int)
    requires h < |s.handlers| && Conserved(s)
    requires forall t :: Has(x, t) + (if t == task then 1 else 0) == Has(s.handlers[h], t)
    ensures Conserved(Answered(SetHandler(s, h, x), task, ret))
  {
    forall t ensures InOnePlace(Answered(SetHandler(s, h, x), task, ret), t) {
      assert InOnePlace(s, t) && Has(x, t) + (if t == task then 1 else 0) == Has(s.handlers[h], t);
      HasAllSet(s.handlers, h, x, t);
      ResumedAdd(s.answers, (task, ret), t);
    }
  }

  /** A handler changes without leaving its lists. */
  lemma SetKeepsInv(s: State, t: State, h: nat, x: Handler)
    requires Inv(s) && h < |s.handlers| && Conserved(t)
    requires t == s.(handlers := s.handlers[h := x], answers := t.answers)
    requires !x.phase.Waiting? && !s.handlers[h].phase.Waiting?
    requires (x.phase.Connecting? ==> x.tasks != []) && (InUse(x) ==> x.conn)
    ensures Inv(t)
  {
    forall j: nat | j < |t.handlers| ensures HandlerOk(t, j) {
      assert HandlerOk(s, j);
    }
  }

  lemma HeadTail(ts: seq<Task>)
    requires ts != []
    ensures forall t :: Occ(ts, t) == (if ts[0] == t then 1 else 0) + Occ(ts[1..], t)
  {
    forall t ensures Occ(ts, t) == (if ts[0] == t then 1 else 0) + Occ(ts[1..], t) {
      OccHead(ts, t);
    }
  }

  lemma PoppedKeepsInv(s: State, h: nat, expired: bool)
    requires Inv(s) && h < |s.handlers| && s.handlers[h].tasks != [] && s.handlers[h].conn
    requires !s.handlers[h].phase.Executing? && !s.handlers[h].phase.Waiting?
    ensures Inv(Popped(s, h, expired))
  {
    var own, t := s.handlers[h], Popped(s, h, expired);
    HeadTail(own.tasks);
    if expired {
      AnswerConserves(s, h, t.handlers[h], own.tasks[0], ERR_DB_TASKS_TIME_OUT);
    } else {
      SetConserves(s, h, t.handlers[h]);
    }
    SetKeepsInv(s, t, h, t.handlers[h]);
  }

  lemma ClearKeepsInv(s: State, h: nat)
    requires Inv(s) && h < |s.handlers| && s.handlers[h].phase.Clearing?
    ensures Inv(AfterClear(s, h))
  {
    var own, t := s.handlers[h], AfterClear(s, h);
    if own.tasks == [] {
      SetConserves(s, h, t.handlers[h]);
    } else {
      HeadTail(own.tasks);
      AnswerConserves(s, h, t.handlers[h], own.tasks[0], ERR_DB_CONNECT_FAILED);
    }
    SetKeepsInv(s, t, h, t.handlers[h]);
  }

  lemma ConnectKeepsInv(s: State, h: nat, ok: bool, expired: bool)
    requires Inv(s) && h < |s.handlers| && s.handlers[h].phase.Connecting? && s.handlers[h].tasks != []
    ensures Inv(AfterConnect(s, h, ok, expired))
  {
    assert HandlerOk(s, h);
    if ok {
      PoppedKeepsInv(s, h, expired);
    } else {
      PhaseKeepsInv(s, h, s.handlers[h].(phase := Clearing));
    }
  }

  lemma ExecutedKeepsInv(s: State, h: nat, ret: int)
    requires Inv(s) && h < |s.handlers| && s.handlers[h].phase.Executing?
    ensures Inv(Answered(SetHandler(s, h, s.handlers[h].(phase := Ready)), s.handlers[h].phase.task, ret))
  {
    var x := s.handlers[h].(phase := Ready);
    AnswerConserves(s, h, x, s.handlers[h].phase.task, ret);
    SetKeepsInv(s, Answered(SetHandler(s, h, x), s.handlers[h].phase.task, ret), h, x);
  }

  /** A change of phase or connection only. */
  lemma PhaseKeepsInv(s: State, h: nat, x: Handler)
    requires Inv(s) && h < |s.handlers| && x.tasks == s.handlers[h].tasks
    requires !x.phase.Waiting? && !x.phase.Executing?
    requires !s.handlers[h].phase.Waiting? && !s.handlers[h].phase.Executing?
    requires x.phase.Connecting? ==> x.tasks != [] && x.conn
    ensures Inv(SetHandler(s, h, x))
  {
    SetConserves(s, h, x);
    SetKeepsInv(s, SetHandler(s, h, x), h, x);
  }

  lemma RecycleKeepsInv(s: State, h: nat)
    requires Inv(s) && h < |s.handlers|
    ensures Inv(Recycled(s, h))
  {
    var t := Recycled(s, h);
    if InUse(s.handlers[h]) {
      SameConserved(s, t);
    } else {
      SetConserves(s, h, s.handlers[h].(conn := false));
    }
    forall j: nat | j < |t.handlers| ensures HandlerOk(t, j) {
      assert HandlerOk(s, j);
    }
  }

  lemma FreedPools(s: State, h: nat)
    requires Pooled(s) && h < |s.handlers| && (h in s.busy <==> h !in s.free)
    ensures Pooled(Freed(s, h)) && h in Freed(s, h).free && h !in Freed(s, h).busy
    ensures forall j :: j != h ==> (j in Freed(s, h).busy <==> j in s.busy) && (j in Freed(s, h).free <==> j in s.free)
  {
    WithoutMembers(s.busy, h);
    if h in s.busy {
      WithoutAt(s.busy, h);
    } else {
      WithoutNone(s.busy, h);
    }
  }

  lemma IdleKeepsInv(s: State, h: nat)
    requires Inv(s) && h < |s.handlers| && s.handlers[h].tasks == [] && s.handlers[h].phase.Ready?
    ensures Inv(SetHandler(Freed(s, h), h, s.handlers[h].(phase := Waiting)))
  {
    var f := Freed(s, h);
    var t := SetHandler(f, h, s.handlers[h].(phase := Waiting));
    assert HandlerOk(s, h);
    FreedPools(s, h);
    SameConserved(s, f);
    SetConserves(f, h, t.handlers[h]);
    forall j: nat | j < |t.handlers| ensures HandlerOk(t, j) {
      assert HandlerOk(s, j);
    }
  }

  lemma SendKeepsInv(s: State)
    requires Inv(s)
    ensures Inv(AfterSend(s))
  {
    var t := AfterSend(s);
    forall x ensures InOnePlace(t, x) {
      assert InOnePlace(s, x);
      assert DropLast(s.queue + [s.next]) == s.queue && Last(s.queue + [s.next]) == s.next;
    }
    forall j: nat | j < |t.handlers| ensures HandlerOk(t, j) {
      assert HandlerOk(s, j);
    }
  }

  /** Some tasks move from the queue to a handler. */
  lemma AssignConserves(s: State, h: nat)
    requires Conserved(s) && h < |s.handlers|
    ensures Conserved(Assigned(s, h))
  {
    var t, k, own := Assigned(s, h), Min(DIST_CONN_TASKS_ONCE, |s.queue|), s.handlers[h];
    forall x ensures InOnePlace(t, x) {
      assert InOnePlace(s, x);
      HasAllSet(s.handlers, h, t.handlers[h], x);
      OccConcat(own.tasks, s.queue[..k], x);
      OccConcat(s.queue[..k], s.queue[k..], x);
      assert s.queue == s.queue[..k] + s.queue[k..];
    }
  }

  /** The chosen handler is one of the pool, and it is signalled with work to do. */
  lemma AssignKeepsInv(s: State, h: nat)
    requires Inv(s) && h < |s.handlers| && s.queue != [] && s.dist.Running?
    requires h in s.free ==> h == |s.handlers| - 1
    ensures Inv(Assigned(s, h))
  {
    var t := Assigned(s, h);
    AssignConserves(s, h);
    forall j: nat | j < |t.handlers| ensures HandlerOk(t, j) {
      assert HandlerOk(s, j);
    }
  }

  /** A free handler is moved to the busy list. */
  lemma TakeFree(s: State)
    requires Pooled(s) && s.free != [] && s.free[0] !in s.busy
    ensures var c := Chosen(s).0;
            Pooled(c) && s.free[0] < |s.handlers|
            && (forall j :: j in c.busy <==> j in s.busy || j == s.free[0])
            && (forall j :: j in c.free <==> j in s.free && j != s.free[0])
  {
    var h := s.free[0];
    assert h in s.free && s.free == [h] + s.free[1..];
    DistinctParts([h], s.free[1..]);
    DistinctConcat(s.busy, [h]);
    assert forall j :: j in s.free <==> j == h || j in s.free[1..];
  }

  /** It is about to be signalled, so that it may be off the free list. */
  lemma TakeFreeKeeps(s: State)
    requires Inv(s) && s.free != [] && s.queue != [] && s.dist.Running? && s.free[0] < |s.handlers|
    ensures Inv(Assigned(Chosen(s).0, Chosen(s).1))
  {
    var c, h := Chosen(s).0, s.free[0];
    var t := Assigned(c, h);
    assert h in s.free && HandlerOk(s, h);
    TakeFree(s);
    SameConserved(s, c);
    AssignConserves(c, h);
    forall j: nat | j < |t.handlers| ensures HandlerOk(t, j) {
      assert HandlerOk(s, j);
    }
  }

  /** The first busy handler goes to the end. */
  lemma Rotate(s: State)
    requires Pooled(s) && s.free == [] && s.connCnt == s.max && s.busy != []
    ensures var c := Chosen(s).0;
            Pooled(c) && s.busy[0] < |s.handlers| && c.free == [] && forall j :: j in c.busy <==> j in s.busy
  {
    var h := s.busy[0];
    assert h in s.busy && s.busy == [h] + s.busy[1..];
    DistinctParts([h], s.busy[1..]);
    DistinctConcat(s.busy[1..], [h]);
    assert forall j :: j in s.busy <==> j == h || j in s.busy[1..];
  }

  lemma RotateKeeps(s: State)
    requires Inv(s) && s.free == [] && s.connCnt == s.max && s.busy != [] && s.queue != [] && s.dist.Running?
    requires s.busy[0] < |s.handlers|
    ensures Inv(Assigned(Chosen(s).0, Chosen(s).1))
  {
    var c := Chosen(s).0;
    Rotate(s);
    SameConserved(s, c);
    forall j: nat | j < |c.handlers| ensures HandlerOk(c, j) {
      assert HandlerOk(s, j);
    }
    AssignKeepsInv(c, s.busy[0]);
  }

  lemma CreateKeeps(s: State)
    requires Inv(s) && s.free == [] && s.connCnt != s.max && s.queue != [] && s.dist.Running?
    ensures Inv(Chosen(s).0)
  {
    var h, x := |s.handlers|, Handler([], Waiting, false);
    var grown := s.(connCnt := s.connCnt + 1, busy := s.busy + [h], handlers := s.handlers + [x]);
    var c := Chosen(s).0;
    forall t ensures InOnePlace(c, t) {
      assert InOnePlace(s, t);
      HasAllAdd(s.handlers, x, t);
    }
    DistinctConcat(s.busy, [h]);
    FreedPools(grown, h);
    forall j: nat | j < |c.handlers| ensures HandlerOk(c, j) {
      assert j < |s.handlers| ==> HandlerOk(s, j);
    }
  }

  lemma DistributeKeepsInv(s: State)
    requires Inv(s) && s.queue != [] && s.dist.Running?
    requires s.free != [] || s.connCnt != s.max || s.busy != []
    ensures Chosen(s).1 < |Chosen(s).0.handlers| && Inv(Assigned(Chosen(s).0, Chosen(s).1))
  {
    ChosenExists(s);
    if s.free != [] {
      TakeFreeKeeps(s);
    } else if s.connCnt == s.max {
      RotateKeeps(s);
    } else {
      CreateKeeps(s);
      AssignKeepsInv(Chosen(s).0, |s.handlers|);
    }
  }

  lemma DistStepKeepsInv(s: State, phase: DistPhase)
    requires Inv(s) && (phase.Idle? ==> s.queue == [])
    ensures Inv(s.(dist := phase))
  {
    var t := s.(dist := phase);
    SameConserved(s, t);
    forall j: nat | j < |t.handlers| ensures HandlerOk(t, j) {
      assert HandlerOk(s, j);
    }
  }

  lemma DistributedKeepsInv(s: State)
    requires Inv(s) && s.dist.Running?
    ensures Inv(Distributed(s))
    ensures s.free != [] || s.connCnt != s.max || s.busy != []
    ensures s.queue != [] ==>
              Chosen(s).1 < |Chosen(s).0.handlers| && Distributed(s) == Assigned(Chosen(s).0, Chosen(s).1)
  {
    CanChoose(s);
    if s.queue == [] {
      DistStepKeepsInv(s, Idle);
    } else {
      DistributeKeepsInv(s);
    }
  }

  lemma TopKeepsInv(s: State, h: nat, expired: bool)
    requires Inv(s) && h < |s.handlers| && s.handlers[h].phase.Ready?
    ensures Inv(AfterTop(s, h, expired))
  {
    var own := s.handlers[h];
    if own.tasks == [] {
      IdleKeepsInv(s, h);
    } else if !own.conn {
      PhaseKeepsInv(s, h, own.(phase := Connecting, conn := true));
    } else {
      PoppedKeepsInv(s, h, expired);
    }
  }

  lemma StepKeepsInv(s: State, e: Event)
    requires Inv(s) && Enabled(s, e)
    ensures Inv(Apply(s, e))
  {
    match e
    case Send => SendKeepsInv(s);
    case DistWake => DistStepKeepsInv(s, Running);
    case DistStep => DistributedKeepsInv(s);
    case Wake(h) => PhaseKeepsInv(s, h, s.handlers[h].(phase := Ready));
    case Top(h, expired) => TopKeepsInv(s, h, expired);
    case Connected(h, ok, expired) => ConnectKeepsInv(s, h, ok, expired);
    case Clear(h) => ClearKeepsInv(s, h);
    case SleepOver(h) => PhaseKeepsInv(s, h, s.handlers[h].(phase := Ready));
    case Executed(h, ret) => ExecutedKeepsInv(s, h, ret);
    case Recycle(h) => RecycleKeepsInv(s, h);
  }

  // ------------------------------------------------------------- whole runs

  predicate IsRun(s: State, es: seq<Event>)
    decreases |es|
  {
    es != [] ==> Enabled(s, es[0]) && IsRun(Apply(s, es[0]), es[1..])
  }

  function Final(s: State, es: seq<Event>): (t: State)
    requires IsRun(s, es)
    decreases |es|
  {
    if es == [] then s else Final(Apply(s, es[0]), es[1..])
  }

  lemma StartInv(max: nat)
    requires 0 < max
    ensures Inv(Start(max))
  {
    forall t ensures InOnePlace(Start(max), t) {
    }
  }

  /** The last event of the run takes a connection object that is in use. */
  predicate EndsInCrash(s: State, es: seq<Event>)
    requires IsRun(s, es)
    decreases |es|
  {
    if es == [] then false
    else if |es| == 1 then es[0].Recycle? && InUse(s.handlers[es[0].h])
    else EndsInCrash(Apply(s, es[0]), es[1..])
  }

  lemma {:induction false} InvUntil(s: State, es: seq<Event>)
    requires Inv(s) && IsRun(s, es)
    ensures Inv(Final(s, es)) && (!s.crashed ==> (Final(s, es).crashed <==> EndsInCrash(s, es)))
    decreases |es|
  {
    if es != [] {
      var t := Apply(s, es[0]);
      StepKeepsInv(s, es[0]);
      CrashStep(s, es[0]);
      InvUntil(t, es[1..]);
    }
  }

  /** A step crashes exactly if it takes a connection object that is in use. */
  lemma CrashStep(s: State, e: Event)
    requires Enabled(s, e)
    ensures Apply(s, e).crashed <==> e.Recycle? && InUse(s.handlers[e.h])
  {
  }

  /** In every run: each task that was sent is in exactly one place, and answered at most once;
      a coroutine that waits unsignalled has an empty queue; and each handler is on exactly one
      of the two lists, of which there are no more than allowed. The run ends in a crash if and
      only if its last event is the timer's, on a connection object that is in use. */
  lemma RunKeepsInv(max: nat, es: seq<Event>)
    requires 0 < max && IsRun(Start(max), es)
    ensures Inv(Final(Start(max), es))
    ensures Final(Start(max), es).crashed <==> EndsInCrash(Start(max), es)
  {
    StartInv(max);
    InvUntil(Start(max), es);
  }

  /** Which connection objects can be taken in use: in every run, that of the newest handler, and
      only as long as it is on the free list, where every other handler waits. */
  lemma InUseOnFreeList(max: nat, es: seq<Event>, h: nat)
    requires 0 < max && IsRun(Start(max), es)
    ensures var s := Final(Start(max), es);
            h in s.free ==> h < |s.handlers| && (s.handlers[h].phase.Waiting? || h == |s.handlers| - 1)
  {
    RunKeepsInv(max, es);
    var s := Final(Start(max), es);
    if h in s.free {
      assert HandlerOk(s, h);
    }
  }

  lemma Crashes(s: State, e: Event, es: seq<Event>)
    requires Enabled(s, e) && IsRun(Apply(s, e), es) && es != [] && EndsInCrash(Apply(s, e), es)
    ensures IsRun(s, [e] + es) && EndsInCrash(s, [e] + es)
  {
    assert ([e] + es)[1..] == es;
  }

  /** One task is enough: its handler is new, so that it is still on the free list while it
      connects, and the timer takes its connection object. */
  lemma CrashExample(max: nat) returns (es: seq<Event>)
    requires 0 < max
    ensures IsRun(Start(max), es) && EndsInCrash(Start(max), es)
    ensures es == [Send, DistWake, DistStep, Wake(0), Top(0, false), Recycle(0)]
  {
    var s1 := Start(max).(queue := [0], next := 1, dist := Signalled);
    var s2 := s1.(dist := Running);
    var s3 := s2.(queue := [], handlers := [Handler([0], Woken, false)], free := [0], connCnt := 1);
    var s4 := s3.(handlers := [Handler([0], Ready, false)]);
    var s5 := s4.(handlers := [Handler([0], Connecting, true)]);
    FirstAssigned(s2, s3);
    es := [Recycle(0)];
    assert es[1..] == [] && IsRun(s5, es) && EndsInCrash(s5, es);
    Crashes(s4, Top(0, false), es);
    Crashes(s3, Wake(0), [Top(0, false)] + es);
    Crashes(s2, DistStep, [Wake(0)] + ([Top(0, false)] + es));
    Crashes(s1, DistWake, [DistStep] + ([Wake(0)] + ([Top(0, false)] + es)));
    assert Apply(Start(max), Send) == s1;
    Crashes(Start(max), Send, [DistWake] + ([DistStep] + ([Wake(0)] + ([Top(0, false)] + es))));
    es := [Send] + ([DistWake] + ([DistStep] + ([Wake(0)] + ([Top(0, false)] + es))));
  }

  /** The first task makes the first handler, and is its first work. */
  lemma FirstAssigned(s: State, t: State)
    requires s == Start(s.max).(queue := [0], next := 1, dist := Running) && 0 < s.max
    requires t == s.(queue := [], handlers := [Handler([0], Woken, false)], free := [0], connCnt := 1)
    ensures Distributed(s) == t
  {
    WithoutHead(0);
    var c := Chosen(s).0;
    assert c == s.(handlers := [Handler([], Waiting, false)], free := [0], connCnt := 1);
    assert s.queue[..1] == [0] && s.queue[1..] == [] && [] + [0] == [0];
  }

  lemma WithoutHead(h: nat)
    ensures Without([] + [h], h) == []
  {
    WithoutAt([h], h);
  }

  // --------------------------------------------------------------- progress

  /** A step of the dispatcher itself, not of a user or of the timer. */
  predicate Internal(e: Event) {
    !e.Send? && !e.Recycle?
  }

  function PhaseWork(p: Phase): (n: nat) {
    match p
    case Waiting => 0
    case Connecting => 24
    case Ready => 5
    case Woken => 6
    case Executing(_) => 6
    case Sleeping => 9
    case Clearing => 10
  }

  function Work(h: Handler): (n: nat) {
    10 * |h.tasks| + PhaseWork(h.phase) + if h.conn then 0 else 20
  }

  function WorkAll(hs: seq<Handler>): (n: nat) {
    if hs == [] then 0 else WorkAll(DropLast(hs)) + Work(Last(hs))
  }

  /** A bound on the steps that are left. */
  function Measure(s: State): (n: nat) {
    100 * |s.queue| + WorkAll(s.handlers) + match s.dist { case Idle => 0 case Running => 1 case Signalled => 2 }
  }

  lemma {:induction false} WorkAllSet(hs: seq<Handler>, h: nat, x: Handler)
    requires h < |hs|
    ensures WorkAll(hs[h := x]) + Work(hs[h]) == WorkAll(hs) + Work(x)
  {
    if h == |hs| - 1 {
      assert DropLast(hs[h := x]) == DropLast(hs);
    } else {
      WorkAllSet(DropLast(hs), h, x);
      assert DropLast(hs[h := x]) == DropLast(hs)[h := x] && Last(hs[h := x]) == Last(hs);
    }
  }

  lemma AssignDecreases(s: State, h: nat)
    requires h < |s.handlers| && s.queue != []
    ensures Measure(Assigned(s, h)) + 84 <= Measure(s)
  {
    var t := Assigned(s, h);
    WorkAllSet(s.handlers, h, t.handlers[h]);
  }

  lemma ChosenAdds(s: State)
    requires s.free != [] || s.connCnt != s.max || s.busy != []
    ensures Measure(Chosen(s).0) <= Measure(s) + 20 && Chosen(s).0.queue == s.queue
  {
    var x := Handler([], Waiting, false);
    assert DropLast(s.handlers + [x]) == s.handlers && Last(s.handlers + [x]) == x;
  }

  lemma InternalDecreases(s: State, e: Event)
    requires Inv(s) && Enabled(s, e) && Internal(e)
    ensures Measure(Apply(s, e)) < Measure(s)
  {
    var t := Apply(s, e);
    if e.DistStep? {
      DistributedKeepsInv(s);
      if s.queue != [] {
        ChosenAdds(s);
        AssignDecreases(Chosen(s).0, Chosen(s).1);
      }
    } else if !e.DistWake? {
      HandlerDecreases(s, e);
    }
  }

  /** The handler that makes a step has less work left, and nobody else is touched. */
  lemma OwnDecreases(s: State, e: Event)
    requires Enabled(s, e) && Internal(e) && !e.DistStep? && !e.DistWake? && HandlerOk(s, e.h)
    ensures var t := Apply(s, e);
            && |t.handlers| == |s.handlers| && t.handlers == s.handlers[e.h := t.handlers[e.h]]
            && t.queue == s.queue && t.dist == s.dist && Work(t.handlers[e.h]) < Work(s.handlers[e.h])
  {
    var t := Apply(s, e);
    assert t.handlers == s.handlers[e.h := t.handlers[e.h]];
  }

  lemma HandlerDecreases(s: State, e: Event)
    requires Inv(s) && Enabled(s, e) && Internal(e) && !e.DistStep? && !e.DistWake?
    ensures Measure(Apply(s, e)) < Measure(s)
  {
    assert HandlerOk(s, e.h);
    OwnDecreases(s, e);
    WorkAllSet(s.handlers, e.h, Apply(s, e).handlers[e.h]);
  }

  lemma {:induction false} NobodyHas(hs: seq<Handler>, t: Task)
    requires forall h :: 0 <= h < |hs| ==> hs[h].phase.Waiting? && hs[h].tasks == []
    ensures HasAll(hs, t) == 0
  {
    if hs != [] {
      NobodyHas(DropLast(hs), t);
    }
  }

  /** When no step of the dispatcher is possible, every task has been answered, once. */
  lemma QuietMeansAnswered(s: State)
    requires Inv(s) && !s.crashed && forall e :: Internal(e) ==> !Enabled(s, e)
    ensures forall t: Task :: t < s.next ==> Resumed(s.answers, t) == 1
  {
    assert !Enabled(s, DistWake) && !Enabled(s, DistStep);
    forall h | 0 <= h < |s.handlers| ensures s.handlers[h].phase.Waiting? && s.handlers[h].tasks == [] {
      assert HandlerOk(s, h);
      if !s.handlers[h].phase.Waiting? {
        HandlerMoves(s, h);
      }
    }
    forall t: Task | t < s.next ensures Resumed(s.answers, t) == 1 {
      assert InOnePlace(s, t);
      NobodyHas(s.handlers, t);
    }
  }

  /** A handler that is not waiting has a step to take. */
  lemma HandlerMoves(s: State, h: nat)
    requires !s.crashed && h < |s.handlers| && HandlerOk(s, h) && !s.handlers[h].phase.Waiting?
    ensures exists e :: Internal(e) && Enabled(s, e)
  {
    var p := s.handlers[h].phase;
    var e := match p {
      case Ready => Top(h, false)
      case Waiting => DistWake
      case Woken => Wake(h)
      case Connecting => Connected(h, true, false)
      case Clearing => Clear(h)
      case Sleeping => SleepOver(h)
      case Executing(_) => Executed(h, 0)
    };
    assert Internal(e) && Enabled(s, e);
  }

  /** No step of the dispatcher itself is possible. */
  ghost predicate AtRest(s: State) {
    forall e :: Internal(e) ==> !Enabled(s, e)
  }

  ghost predicate AllResumed(s: State) {
    forall t: Task :: t < s.next ==> Resumed(s.answers, t) == 1
  }

  lemma {:induction false} OwnStepsEnd(s: State, es: seq<Event>)
    requires Inv(s) && IsRun(s, es) && forall e :: e in es ==> Internal(e)
    ensures |es| <= Measure(s) && Inv(Final(s, es))
    ensures Final(s, es).next == s.next && Final(s, es).crashed == s.crashed
    decreases |es|
  {
    if es != [] {
      assert es[0] in es && forall e :: e in es[1..] ==> e in es;
      InternalDecreases(s, es[0]);
      StepKeepsInv(s, es[0]);
      CrashStep(s, es[0]);
      OwnStepsEnd(Apply(s, es[0]), es[1..]);
    }
  }

  lemma {:induction false} HasAllAt(hs: seq<Handler>, h: nat, t: Task)
    requires h < |hs|
    ensures Has(hs[h], t) <= HasAll(hs, t)
  {
    if h < |hs| - 1 {
      HasAllAt(DropLast(hs), h, t);
    }
  }

  lemma TaskInUse(s: State, h: nat) returns (t: Task)
    requires Inv(s) && h < |s.handlers| && InUse(s.handlers[h])
    ensures t < s.next && Resumed(s.answers, t) == 0
  {
    var own := s.handlers[h];
    assert HandlerOk(s, h);
    if own.phase.Executing? {
      t := own.phase.task;
    } else {
      t := own.tasks[0];
      OccHead(own.tasks, t);
    }
    HasAllAt(s.handlers, h, t);
    assert InOnePlace(s, t);
  }

  /** A crash leaves a task without an answer. */
  ghost predicate CrashedInUse(s: State) {
    s.crashed ==> exists h: nat :: h < |s.handlers| && InUse(s.handlers[h])
  }

  lemma {:induction false} CrashedUntil(s: State, es: seq<Event>)
    requires CrashedInUse(s) && IsRun(s, es)
    ensures CrashedInUse(Final(s, es))
    decreases |es|
  {
    if es != [] {
      CrashStep(s, es[0]);
      CrashedUntil(Apply(s, es[0]), es[1..]);
    }
  }

  /** In every run, left to itself, the dispatcher comes to rest within a number of steps that the
      state determines; and then every task has been answered exactly once, if and only if the
      run has not ended in a crash. */
  lemma AllAnswered(max: nat, es: seq<Event>, own: seq<Event>)
    requires 0 < max && IsRun(Start(max), es) && IsRun(Final(Start(max), es), own)
    requires forall e :: e in own ==> Internal(e)
    ensures |own| <= Measure(Final(Start(max), es))
    ensures var t := Final(Final(Start(max), es), own);
            AtRest(t) ==> (AllResumed(t) <==> !EndsInCrash(Start(max), es))
  {
    var s := Final(Start(max), es);
    var t := Final(s, own);
    RunKeepsInv(max, es);
    OwnStepsEnd(s, own);
    CrashedUntil(Start(max), es);
    CrashedUntil(s, own);
    if AtRest(t) {
      if t.crashed {
        var h: nat :| h < |t.handlers| && InUse(t.handlers[h]);
        var x := TaskInUse(t, h);
      } else {
        QuietMeansAnswered(t);
      }
    }
  }

  // ------------------------------------------------------------ which answer

  /** Why the user of a task is resumed with `ret` by event `e`: the database has answered; the task
      had waited too long when its handler came to it; or the handler could not connect. */
  predicate Reason(s: State, e: Event, task: Task, ret: int)
    requires Enabled(s, e)
  {
    match e
    case Executed(h, r) => s.handlers[h].phase == Executing(task) && ret == r
    case Top(h, expired) =>
      expired && s.handlers[h].conn && First(s.handlers[h], task) && ret == ERR_DB_TASKS_TIME_OUT
    case Connected(h, ok, expired) =>
      ok && expired && First(s.handlers[h], task) && ret == ERR_DB_TASKS_TIME_OUT
    case Clear(h) => First(s.handlers[h], task) && ret == ERR_DB_CONNECT_FAILED
    case _ => false
  }

  predicate First(h: Handler, task: Task) {
    h.tasks != [] && h.tasks[0] == task
  }

  /** A step answers a task exactly if there is a reason, and then with that result. */
  lemma StepAnswers(s: State, e: Event)
    requires Enabled(s, e)
    ensures var t := Apply(s, e);
            || (t.answers == s.answers && forall task, ret :: !Reason(s, e, task, ret))
            || (|t.answers| == |s.answers| + 1 && t.answers[..|s.answers|] == s.answers
                && Reason(s, e, Last(t.answers).0, Last(t.answers).1))
  {
    var t := Apply(s, e);
    if t.answers != s.answers && |t.answers| == |s.answers| + 1 {
      assert t.answers[..|s.answers|] == s.answers;
    }
  }

  /** The database is asked for the first task of a handler exactly if the handler comes to it with a
      connection and in time. */
  lemma StepAsks(s: State, e: Event, h: nat, task: Task)
    requires Enabled(s, e) && h < |s.handlers| && h < |Apply(s, e).handlers|
    ensures !s.handlers[h].phase.Executing? ==>
              (Apply(s, e).handlers[h].phase == Executing(task) <==>
                First(s.handlers[h], task)
                && ((e == Top(h, false) && s.handlers[h].conn) || e == Connected(h, true, false)))
    ensures s.handlers[h].phase == Executing(task) ==>
              Apply(s, e).handlers[h].phase == Executing(task) || (e.Executed? && e.h == h)
  {
    if e.DistStep? {
      DistributedHandlers(s, h);
    }
  }

  /** A round of the distributor changes no phase but by a signal. */
  lemma DistributedHandlers(s: State, h: nat)
    requires h < |s.handlers|
    ensures h < |Distributed(s).handlers|
    ensures var was, now := s.handlers[h].phase, Distributed(s).handlers[h].phase;
            now == was || (was.Waiting? && now.Woken?)
  {
  }

  /** A handler fails its tasks exactly while it is behind a failed connect. */
  lemma StepClears(s: State, e: Event, h: nat)
    requires Enabled(s, e) && h < |s.handlers| && h < |Apply(s, e).handlers|
    ensures Apply(s, e).handlers[h].phase.Clearing? ==>
              s.handlers[h].phase.Clearing? || (e.Connected? && e.h == h && !e.ok)
  {
    if e.DistStep? {
      DistributedHandlers(s, h);
    }
  }

  // ------------------------------------------------------- every answer of a run

  /** The state after the first `k` events. */
  function After(s: State, es: seq<Event>, k: nat): (t: State)
    requires IsRun(s, es) && k <= |es|
    decreases |es|
  {
    if k == 0 then s else After(Apply(s, es[0]), es[1..], k - 1)
  }

  lemma {:induction false} AfterNext(s: State, es: seq<Event>, k: nat)
    requires IsRun(s, es) && k < |es|
    ensures Enabled(After(s, es, k), es[k]) && After(s, es, k + 1) == Apply(After(s, es, k), es[k])
    decreases |es|
  {
    if k > 0 {
      AfterNext(Apply(s, es[0]), es[1..], k - 1);
    }
  }

  lemma {:induction false} AfterAll(s: State, es: seq<Event>)
    requires IsRun(s, es)
    ensures After(s, es, |es|) == Final(s, es)
    decreases |es|
  {
    if es != [] {
      AfterAll(Apply(s, es[0]), es[1..]);
    }
  }

  /** Event `k` of the run gives the task its answer. */
  ghost predicate AnsweredAt(s: State, es: seq<Event>, k: nat, task: Task, ret: int)
    requires IsRun(s, es)
  {
    k < |es| && Enabled(After(s, es, k), es[k]) && Reason(After(s, es, k), es[k], task, ret)
  }

  lemma {:induction false} AnswersUpTo(s: State, es: seq<Event>, k: nat, i: nat)
    requires IsRun(s, es) && s.answers == [] && k <= |es| && i < |After(s, es, k).answers|
    ensures exists j: nat :: j < k && AnsweredAt(s, es, j, After(s, es, k).answers[i].0, After(s, es, k).answers[i].1)
    decreases k
  {
    if k > 0 {
      var was, now := After(s, es, k - 1), After(s, es, k);
      AfterNext(s, es, k - 1);
      StepAnswers(was, es[k - 1]);
      if i < |was.answers| {
        AnswersUpTo(s, es, k - 1, i);
        assert now.answers[i] == was.answers[i];
      } else {
        assert AnsweredAt(s, es, k - 1, now.answers[i].0, now.answers[i].1);
      }
    }
  }

  /** In every run, every answer has its reason: each result that a user got is the database's, or
      the time-out code for a task that its handler came to too late, or the failure code behind a
      failed connect. */
  lemma EveryAnswerHasItsReason(max: nat, es: seq<Event>, i: nat)
    requires IsRun(Start(max), es) && i < |Final(Start(max), es).answers|
    ensures var a := Final(Start(max), es).answers[i];
            exists k: nat :: AnsweredAt(Start(max), es, k, a.0, a.1)
  {
    AfterAll(Start(max), es);
    AnswersUpTo(Start(max), es, |es|, i);
  }

  /** Event `j` takes the task for execution: its handler has a connection and the task is not too
      old. */
  predicate TakenAt(s: State, es: seq<Event>, j: nat, h: nat, task: Task)
    requires IsRun(s, es)
  {
    && j < |es| && (es[j] == Top(h, false) || es[j] == Connected(h, true, false))
    && h < |After(s, es, j).handlers| && First(After(s, es, j).handlers[h], task)
  }

  /** What is executed was taken in time: behind every answer of the database there is the event that
      took the task. */
  lemma {:induction false} ExecutedWasTaken(s: State, es: seq<Event>, k: nat, h: nat, task: Task)
    requires IsRun(s, es) && s.handlers == [] && k <= |es|
    requires h < |After(s, es, k).handlers| && After(s, es, k).handlers[h].phase == Executing(task)
    ensures exists j: nat :: j < k && TakenAt(s, es, j, h, task)
    decreases k
  {
    if k > 0 {
      var was := After(s, es, k - 1);
      AfterNext(s, es, k - 1);
      if h < |was.handlers| {
        StepAsks(was, es[k - 1], h, task);
        if was.handlers[h].phase.Executing? {
          StepAsks(was, es[k - 1], h, was.handlers[h].phase.task);
          ExecutedStays(was, es[k - 1], h);
          ExecutedWasTaken(s, es, k - 1, h, task);
        } else {
          assert TakenAt(s, es, k - 1, h, task);
        }
      } else {
        NewWaits(was, es[k - 1], h);
      }
    }
  }

  lemma ExecutedStays(s: State, e: Event, h: nat)
    requires Enabled(s, e) && h < |s.handlers| && s.handlers[h].phase.Executing?
    ensures h < |Apply(s, e).handlers|
    ensures Apply(s, e).handlers[h].phase.Executing? ==> Apply(s, e).handlers[h].phase == s.handlers[h].phase
  {
    if e.DistStep? {
      DistributedHandlers(s, h);
    }
  }

  /** A new handler waits, or has just been signalled. */
  lemma NewWaits(s: State, e: Event, h: nat)
    requires Enabled(s, e) && |s.handlers| <= h < |Apply(s, e).handlers|
    ensures Apply(s, e).handlers[h].phase.Waiting? || Apply(s, e).handlers[h].phase.Woken?
  {
  }

  /** Event `j` is a failed connect of the handler, which has been failing its tasks since. */
  ghost predicate FailedAt(s: State, es: seq<Event>, j: nat, k: nat, h: nat)
    requires IsRun(s, es) && k <= |es|
  {
    && j < k && es[j].Connected? && es[j].h == h && !es[j].ok
    && forall n: nat :: j < n <= k ==> InPhaseClearing(s, es, n, h)
  }

  predicate InPhaseClearing(s: State, es: seq<Event>, n: nat, h: nat)
    requires IsRun(s, es)
  {
    n <= |es| && h < |After(s, es, n).handlers| && After(s, es, n).handlers[h].phase.Clearing?
  }

  lemma {:induction false} ClearingFollowsFailure(s: State, es: seq<Event>, k: nat, h: nat)
    requires IsRun(s, es) && s.handlers == [] && k <= |es| && InPhaseClearing(s, es, k, h)
    ensures exists j: nat :: FailedAt(s, es, j, k, h)
    decreases k
  {
    if k > 0 {
      var was := After(s, es, k - 1);
      AfterNext(s, es, k - 1);
      if h < |was.handlers| {
        StepClears(was, es[k - 1], h);
        if was.handlers[h].phase.Clearing? {
          ClearingFollowsFailure(s, es, k - 1, h);
          var j: nat :| FailedAt(s, es, j, k - 1, h);
          assert FailedAt(s, es, j, k, h);
        } else {
          assert FailedAt(s, es, k - 1, k, h);
        }
      } else {
        NewWaits(was, es[k - 1], h);
      }
    }
  }

  // ---------------------------------------------------------------- in order

  /** The tasks that a handler has, the one in its hands first. */
  function Held(s: State, h: nat): (ts: seq<Task>) {
    if h < |s.handlers| then
      (if s.handlers[h].phase.Executing? then [s.handlers[h].phase.task] else []) + s.handlers[h].tasks
    else []
  }

  /** The tasks that a step hands to a handler, and those of its tasks that it answers. */
  function Handed(s: State, e: Event, h: nat): (ts: seq<Task>)
    requires Enabled(s, e)
  {
    if e.DistStep? && s.queue != [] && (s.free != [] || s.connCnt != s.max || s.busy != []) && Chosen(s).1 == h
    then s.queue[..Min(DIST_CONN_TASKS_ONCE, |s.queue|)] else []
  }

  function Done(s: State, e: Event, h: nat): (ts: seq<Task>)
    requires Enabled(s, e)
  {
    var t := Apply(s, e);
    if |t.answers| > |s.answers| && (e.Executed? || e.Top? || e.Connected? || e.Clear?) && e.h == h
    then [Last(t.answers).0] else []
  }

  /** What a handler had and got is, in order, what it answers and still has. */
  lemma StepInOrder(s: State, e: Event, h: nat)
    requires Inv(s) && Enabled(s, e)
    ensures Done(s, e, h) + Held(Apply(s, e), h) == Held(s, h) + Handed(s, e, h)
  {
    var held := Held(s, h);
    assert [] + held == held && held + [] == held;
    if e.DistStep? {
      DistInOrder(s, h);
      assert [] + Held(Distributed(s), h) == Held(Distributed(s), h);
    } else if (e.Executed? || e.Top? || e.Connected? || e.Clear?) && e.h == h {
      OwnInOrder(s, e);
    } else {
      OtherInOrder(s, e, h);
    }
  }

  lemma OtherInOrder(s: State, e: Event, h: nat)
    requires Enabled(s, e) && !e.DistStep? && (e.Executed? || e.Top? || e.Connected? || e.Clear? ==> e.h != h)
    ensures Held(Apply(s, e), h) == Held(s, h)
  {
  }

  lemma OwnInOrder(s: State, e: Event)
    requires Inv(s) && Enabled(s, e) && (e.Executed? || e.Top? || e.Connected? || e.Clear?)
    ensures Done(s, e, e.h) + Held(Apply(s, e), e.h) == Held(s, e.h)
  {
    assert HandlerOk(s, e.h);
    var own := s.handlers[e.h];
    assert own.tasks != [] ==> [own.tasks[0]] + own.tasks[1..] == own.tasks;
    assert [] + own.tasks == own.tasks && (own.tasks != [] ==> [] + own.tasks[1..] == own.tasks[1..]);
  }

  lemma HeldChosen(s: State, h: nat)
    requires s.free != [] || s.connCnt != s.max || s.busy != []
    ensures Held(Chosen(s).0, h) == Held(s, h)
  {
  }

  lemma HeldAssigned(s: State, x: nat, h: nat)
    requires x < |s.handlers|
    ensures Held(Assigned(s, x), h)
         == Held(s, h) + if h == x then s.queue[..Min(DIST_CONN_TASKS_ONCE, |s.queue|)] else []
  {
    if h == x {
      var own, got := s.handlers[h], s.queue[..Min(DIST_CONN_TASKS_ONCE, |s.queue|)];
      var hand := if own.phase.Executing? then [own.phase.task] else [];
      assert hand + (own.tasks + got) == hand + own.tasks + got;
    } else {
      assert Held(s, h) + [] == Held(s, h);
    }
  }

  lemma DistInOrder(s: State, h: nat)
    requires Inv(s) && Enabled(s, DistStep)
    ensures Held(Distributed(s), h) == Held(s, h) + Handed(s, DistStep, h)
  {
    DistributedKeepsInv(s);
    if s.queue != [] {
      HeldChosen(s, h);
      HeldAssigned(Chosen(s).0, Chosen(s).1, h);
    } else {
      assert Held(s, h) + [] == Held(s, h);
    }
  }

  /** All that was handed to a handler in the first `k` steps of a run, and all that it answered. */
  ghost function HandedTo(s: State, es: seq<Event>, k: nat, h: nat): (ts: seq<Task>)
    requires IsRun(s, es) && k <= |es|
  {
    if k == 0 then []
    else
      AfterNext(s, es, k - 1);
      HandedTo(s, es, k - 1, h) + Handed(After(s, es, k - 1), es[k - 1], h)
  }

  ghost function DoneBy(s: State, es: seq<Event>, k: nat, h: nat): (ts: seq<Task>)
    requires IsRun(s, es) && k <= |es|
  {
    if k == 0 then []
    else
      AfterNext(s, es, k - 1);
      DoneBy(s, es, k - 1, h) + Done(After(s, es, k - 1), es[k - 1], h)
  }

  lemma {:induction false} InvAfter(s: State, es: seq<Event>, k: nat)
    requires Inv(s) && IsRun(s, es) && k <= |es|
    ensures Inv(After(s, es, k))
    decreases k
  {
    if k > 0 {
      InvAfter(s, es, k - 1);
      AfterNext(s, es, k - 1);
      StepKeepsInv(After(s, es, k - 1), es[k - 1]);
    }
  }

  /** In every run, each handler answers its tasks in the order in which they were handed to it. */
  lemma {:induction false} AnswersInOrder(max: nat, es: seq<Event>, k: nat, h: nat)
    requires 0 < max && IsRun(Start(max), es) && k <= |es|
    ensures DoneBy(Start(max), es, k, h) + Held(After(Start(max), es, k), h) == HandedTo(Start(max), es, k, h)
    decreases k
  {
    if k > 0 {
      AnswersInOrder(max, es, k - 1, h);
      StartInv(max);
      InvAfter(Start(max), es, k - 1);
      AfterNext(Start(max), es, k - 1);
      var s, e := After(Start(max), es, k - 1), es[k - 1];
      StepInOrder(s, e, h);
      Carry(DoneBy(Start(max), es, k - 1, h), Held(s, h), HandedTo(Start(max), es, k - 1, h),
            Done(s, e, h), Held(Apply(s, e), h), Handed(s, e, h));
    }
  }

  lemma Carry(done: seq<Task>, held: seq<Task>, handed: seq<Task>, d: seq<Task>, left: seq<Task>, got: seq<Task>)
    requires done + held == handed && d + left == held + got
    ensures done + d + left == handed + got
  {
    assert done + d + left == done + (d + left);
    assert done + held + got == done + (held + got);
  }

  /** And tasks are handed out in the order in which they were sent: what is queued are the last ones,
      in order. */
  predicate Queued(s: State) {
    |s.queue| <= s.next && forall i :: 0 <= i < |s.queue| ==> s.queue[i] == s.next - |s.queue| + i
  }

  lemma {:induction false} QueueInOrder(max: nat, es: seq<Event>, k: nat)
    requires 0 < max && IsRun(Start(max), es) && k <= |es|
    ensures Queued(After(Start(max), es, k))
    decreases k
  {
    if k > 0 {
      QueueInOrder(max, es, k - 1);
      AfterNext(Start(max), es, k - 1);
      StepQueued(After(Start(max), es, k - 1), es[k - 1]);
    }
  }

  lemma StepQueued(s: State, e: Event)
    requires Enabled(s, e) && Queued(s)
    ensures Queued(Apply(s, e))
  {
  }

  /** A handler on the free list is chosen if there is one; a new one is made only if there is none and
      the limit allows it; otherwise a busy one gets more. */
  lemma ChosenIs(s: State)
    requires s.free != [] || s.connCnt != s.max || s.busy != []
    ensures var c, h := Chosen(s).0, Chosen(s).1;
            && (s.free != [] ==> h in s.free && h in c.busy && c.handlers == s.handlers)
            && (|c.handlers| > |s.handlers| <==> s.free == [] && s.connCnt != s.max)
            && (s.free == [] && s.connCnt == s.max ==> h in s.busy && c.handlers == s.handlers && Last(c.busy) == h)
  {
  }

  // -------------------------------------------------------------- the object

  /** The coroutines of one database node. */
  class NodeTasks {
    const max: nat
    var queue: seq<Task>
    var dist: DistPhase
    var handlers: seq<Handler>
    var busy: seq<nat>
    var free: seq<nat>
    var connCnt: nat
    var next: Task
    ghost var answers: seq<(Task, int)>
    ghost var crashed: bool

    ghost function Value(): (s: State)
      reads this
    {
      State(max, queue, dist, handlers, busy, free, connCnt, next, answers, crashed)
    }

    constructor (max: nat)
      ensures Value() == Start(max)
    {
      this.max := max;
      queue, dist, handlers, busy, free := [], Idle, [], [], [];
      connCnt, next, answers, crashed := 0, 0, [], false;
    }

    /** `send_task` up to where the user waits. */
    method SendTask() returns (task: Task)
      modifies this
      ensures Value() == AfterSend(old(Value())) && task == old(next)
    {
      task := next;
      next := next + 1;
      queue := queue + [task];
      if dist.Idle? {
        dist := Signalled;
      }
    }

    /** `add_to_free_list`. */
    method AddToFreeList(h: nat)
      modifies this`busy, this`free
      ensures Value() == Freed(old(Value()), h)
    {
      var i := 0;
      while i < |busy| && busy[i] != h
        invariant 0 <= i <= |busy| && h !in busy[..i]
      {
        i := i + 1;
      }
      Erase(busy, i, h);
      if i < |busy| {
        busy := busy[..i] + busy[i + 1..];
      }
      if h !in free {
        free := [h] + free;
      }
    }

    /** `get_co_data`. */
    method GetCoData() returns (h: nat)
      requires free != [] || connCnt != max || busy != []
      modifies this
      ensures (Value(), h) == Chosen(old(Value()))
    {
      if free != [] {
        h := free[0];
        free, busy := free[1..], busy + [h];
      } else if connCnt == max {
        h := busy[0];
        busy := busy[1..] + [h];
      } else {
        h := |handlers|;
        connCnt := connCnt + 1;
        busy := busy + [h];
        handlers := handlers + [Handler([], Waiting, false)];
        AddToFreeList(h);
      }
    }

    /** One round of `on_dist_task`. */
    method Distribute()
      requires Inv(Value()) && dist.Running?
      modifies this
      ensures Value() == Distributed(old(Value()))
    {
      if queue == [] {
        dist := Idle;
        return;
      }
      DistributedKeepsInv(Value());
      var h := GetCoData();
      PushTasks(h);
      handlers := handlers[h := Signal(handlers[h])];
    }

    /** Moves the first tasks of the queue to a handler. */
    method PushTasks(h: nat)
      requires h < |handlers|
      modifies this`queue, this`handlers
      ensures var k := Min(DIST_CONN_TASKS_ONCE, |old(queue)|);
              && queue == old(queue)[k..]
              && handlers == old(handlers)[h := old(handlers)[h].(tasks := old(handlers)[h].tasks + old(queue)[..k])]
    {
      var i := 0;
      assert handlers[h].tasks + queue[..0] == handlers[h].tasks;
      while i < DIST_CONN_TASKS_ONCE && queue != []
        invariant 0 <= i <= Min(DIST_CONN_TASKS_ONCE, |old(queue)|) && queue == old(queue)[i..]
        invariant |handlers| == |old(handlers)| && handlers[h].tasks == old(handlers)[h].tasks + old(queue)[..i]
        invariant handlers == old(handlers)[h := old(handlers)[h].(tasks := handlers[h].tasks)]
        decreases |queue|
      {
        var task := queue[0];
        assert old(queue)[..i + 1] == old(queue)[..i] + [task];
        queue := queue[1..];
        handlers := handlers[h := handlers[h].(tasks := handlers[h].tasks + [task])];
        i := i + 1;
      }
    }

    /** The top of `on_handle_task`, up to where the handler waits or works. */
    method HandleTop(h: nat, expired: bool)
      requires h < |handlers| && handlers[h].phase.Ready?
      modifies this
      ensures Value() == AfterTop(old(Value()), h, expired)
    {
      if handlers[h].tasks == [] {
        AddToFreeList(h);
        handlers := handlers[h := handlers[h].(phase := Waiting)];
      } else if !handlers[h].conn {
        handlers := handlers[h := handlers[h].(phase := Connecting, conn := true)];
      } else {
        var task := handlers[h].tasks[0];
        var rest := handlers[h].tasks[1..];
        if expired {
          handlers := handlers[h := Handler(rest, Ready, handlers[h].conn)];
          answers := answers + [(task, ERR_DB_TASKS_TIME_OUT)];
        } else {
          handlers := handlers[h := Handler(rest, Executing(task), handlers[h].conn)];
        }
      }
    }
  }

  /** Erasing the first occurrence. */
  lemma {:induction false} Erase(s: seq<nat>, i: nat, h: nat)
    requires i <= |s| && h !in s[..i] && (i < |s| ==> s[i] == h)
    ensures Without(s, h) == if i < |s| then s[..i] + s[i + 1..] else s
  {
    if i < |s| {
      assert IndexOf(s, h) == i by {
        FirstAt(s, i, h);
      }
      WithoutAt(s, h);
    } else {
      assert s[..i] == s;
      WithoutNone(s, h);
    }
  }

  lemma {:induction false} FirstAt(s: seq<nat>, i: nat, h: nat)
    requires i < |s| && h !in s[..i] && s[i] == h
    ensures IndexOf(s, h) == i
  {
    if i > 0 {
      assert s[0] == s[..i][0] && s[1..][..i - 1] == s[..i][1..];
      FirstAt(s[1..], i - 1, h);
    }
  }
}
