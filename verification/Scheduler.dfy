/**
 The event loop and the condition variables of libco
 (src/core/libco/co_routine.cpp:690-769 and 831-1067).

 A coroutine that waits owns one item. The item may be on a condition's list, and its
 timer may be in a slot of the timing wheel or on the active list; `link` is the timer's
 `pLink`. Between two hand-overs of control nothing else runs, so each step below is
 atomic and a run is any sequence of steps with a clock that does not go back.
 */
module Scheduler {
  import opened Common
  import opened TimingWheel

  type CondId = nat

  datatype Where = Nowhere | InSlot(j: nat) | OnActive

  /** A `stCoCondItem_t` or `stPoll_t`: `cond` is the condition list it is on. */
  datatype Item = Item(expire: nat, timedOut: bool, detached: bool, link: Where, cond: Option<CondId>)

  /** Items are numbered in the order in which they are made, `next` being the next number.
      `done` lists the waits that have been resumed, in order. */
  datatype Sched = Sched(
    w: Wheel, active: seq<ItemId>, conds: map<CondId, seq<ItemId>>, items: map<ItemId, Item>,
    clock: nat, loopNow: nat, next: ItemId, done: seq<ItemId>)

  // ------------------------------------------------------------ list moves

  function SetLink(s: Sched, i: ItemId, l: Where): (r: Sched)
    requires i in s.items
  {
    s.(items := s.items[i := s.items[i].(link := l)])
  }

  /** `RemoveFromLink` on the timer of item `i`. */
  function Unlink(s: Sched, i: ItemId): (r: Sched)
    requires i in s.items
  {
    match s.items[i].link
    case Nowhere => s
    case OnActive => SetLink(s, i, Nowhere).(active := Without(s.active, i))
    case InSlot(j) =>
      if j < |s.w.slots| then
        SetLink(s, i, Nowhere).(w := s.w.(slots := s.w.slots[j := Without(s.w.slots[j], i)]))
      else s
  }

  /** `AddTail` of the timer of item `i` to the active list. */
  function Activate(s: Sched, i: ItemId): (r: Sched)
    requires i in s.items
  {
    if s.items[i].link == Nowhere then SetLink(s, i, OnActive).(active := s.active + [i]) else s
  }

  /** `AddTimeout` of the timer of item `i`. */
  ghost function AddTimer(s: Sched, i: ItemId, now: nat): (r: (Sched, int))
    requires Ok(s.w) && i in s.items
  {
    var linked := s.items[i].link != Nowhere;
    var (w, ret) := Added(s.w, i, s.items[i].expire, linked, now);
    var s1 := s.(w := w);
    if ret != 0 || linked then (s1, ret)
    else
      (SetLink(s1, i, InSlot(Ring(w.idx + (SlotTime(w, s.items[i].expire) - w.start), |w.slots|))), 0)
  }

  // ------------------------------------------------------------- the steps

  /** `co_cond_timedwait` on condition `c`, or `co_poll_inner` if there is none, up to the
      yield. A non-zero `ret` means that the call returns it at once. */
  ghost function Wait(s: Sched, c: Option<CondId>, ms: int, now: nat): (r: (Sched, int))
    requires Ok(s.w) && (c.Some? ==> c.value in s.conds)
  {
    var i, s0 := s.next, Born(s, ms, now);
    var (s1, ret) := if ms > 0 then AddTimer(s0, i, now) else (s0, 0);
    if ret != 0 then (s1.(items := s1.items - {i}), ret)
    else if c.None? then (s1, 0)
    else (s1.(conds := s1.conds[c.value := s1.conds[c.value] + [i]],
              items := s1.items[i := s1.items[i].(cond := c)]), 0)
  }

  /** The `calloc` of a wait item. */
  function Born(s: Sched, ms: int, now: nat): (r: Sched) {
    s.(clock := now, next := s.next + 1,
       items := s.items[s.next := Item(now + Max(ms, 0), false, false, Nowhere, None)])
  }

  /** `co_cond_signal`. */
  function Signal(s: Sched, c: CondId): (r: Sched)
    requires c in s.conds
    ensures c in r.conds
  {
    if s.conds[c] == [] || s.conds[c][0] !in s.items then s else Moved(Dequeued(s, c), s.conds[c][0])
  }

  /** `co_cond_pop`. */
  function Dequeued(s: Sched, c: CondId): (r: Sched)
    requires c in s.conds && s.conds[c] != [] && s.conds[c][0] in s.items
  {
    var i := s.conds[c][0];
    s.(conds := s.conds[c := s.conds[c][1..]], items := s.items[i := s.items[i].(cond := None)])
  }

  /** Off whatever list the timer of `i` is on, and to the end of the active list. */
  function Moved(s: Sched, i: ItemId): (r: Sched)
    requires i in s.items
    ensures r.conds == s.conds
  {
    Activate(Unlink(s, i), i)
  }

  /** `OnPollPreparePfn`: an event arrived for the poll that owns item `i`. */
  function Ready(s: Sched, i: ItemId): (r: Sched)
    requires i in s.items
  {
    if s.items[i].detached then s
    else Moved(Detached(s, i), i)
  }

  function Detached(s: Sched, i: ItemId): (r: Sched)
    requires i in s.items
  {
    s.(items := s.items[i := s.items[i].(detached := true)])
  }

  function MarkTimedOut(items: map<ItemId, Item>, q: seq<ItemId>): (r: map<ItemId, Item>)
    ensures r.Keys == items.Keys
  {
    map i | i in items :: if i in q then items[i].(timedOut := true, link := OnActive) else items[i]
  }

  /** The part of `co_eventloop` from reading the clock to joining the expired items to the
      active list. */
  ghost function Tick(s: Sched, now: nat): (r: Sched)
    requires Ok(s.w)
  {
    var (w, q) := Taken(s.w, now);
    s.(w := w, clock := now, loopNow := now, active := s.active + q, items := MarkTimedOut(s.items, q))
  }

  /** One turn of the processing loop of `co_eventloop`: the first active item is put back
      into the wheel if it was taken too early, and its coroutine is resumed otherwise. The
      coroutine first takes its item off the condition's list and frees it. */
  ghost function Pop(s: Sched): (r: Sched)
    requires Ok(s.w) && s.active != [] && s.active[0] in s.items
    requires s.items[s.active[0]].cond.Some? ==> s.items[s.active[0]].cond.value in s.conds
  {
    var i := s.active[0];
    var s1 := SetLink(s, i, Nowhere).(active := s.active[1..]);
    if TakenEarly(s, i) then
      var (s2, ret) := AddTimer(s1.(items := s1.items[i := s1.items[i].(timedOut := false)]), i, s.loopNow);
      if ret == 0 then s2 else Resumed(s2, i)
    else Resumed(s1, i)
  }

  predicate TakenEarly(s: Sched, i: ItemId)
    requires i in s.items
  {
    s.items[i].timedOut && s.loopNow < s.items[i].expire
  }

  /** `co_resume` of the waiter, which runs up to the end of its wait call. */
  function Resumed(s: Sched, i: ItemId): (r: Sched)
    requires i in s.items && (s.items[i].cond.Some? ==> s.items[i].cond.value in s.conds)
  {
    var c := s.items[i].cond;
    s.(conds := if c.Some? then s.conds[c.value := Without(s.conds[c.value], i)] else s.conds,
       items := s.items - {i}, done := s.done + [i])
  }

  // ------------------------------------------------------------- invariant

  ghost predicate SlotOk(s: Sched, j: nat)
    requires j < |s.w.slots|
  {
    && Distinct(s.w.slots[j])
    && forall i :: i in s.w.slots[j] ==> i in s.items && s.items[i].link == InSlot(j) && !s.items[i].timedOut
  }

  ghost predicate ItemOk(s: Sched, i: ItemId)
    requires i in s.items
  {
    var it := s.items[i];
    && (it.link.InSlot? ==> it.link.j < |s.w.slots| && i in s.w.slots[it.link.j])
    && (it.link.OnActive? ==> i in s.active)
    && (it.cond.Some? ==> it.cond.value in s.conds && i in s.conds[it.cond.value])
    && i !in s.done && i < s.next
  }

  ghost predicate Increasing(q: seq<ItemId>) {
    forall a, b :: 0 <= a < b < |q| ==> q[a] < q[b]
  }

  /** The waiters of a condition, longest waiting first. */
  ghost predicate CondOk(s: Sched, c: CondId)
    requires c in s.conds
  {
    && Increasing(s.conds[c])
    && forall i :: i in s.conds[c] ==> i in s.items && s.items[i].cond == Some(c)
  }

  ghost predicate ActiveOk(s: Sched) {
    && Distinct(s.active)
    && forall i :: i in s.active ==> i in s.items && s.items[i].link == OnActive
  }

  /** No timer's slot is later than its expiry. */
  ghost predicate TimesOk(s: Sched)
    requires Ok(s.w)
  {
    forall t: nat, i :: i in Queue(s.w, t) ==> i in s.items && t <= s.items[i].expire
  }

  /** Each list holds what the items' own links say it holds. */
  ghost predicate Listed(s: Sched) {
    && Ok(s.w) && 0 < s.w.start <= s.clock && s.w.start == s.loopNow
    && (forall j :: 0 <= j < |s.w.slots| ==> SlotOk(s, j))
    && (forall i :: i in s.items ==> ItemOk(s, i))
    && (forall c :: c in s.conds ==> CondOk(s, c))
    && ActiveOk(s) && TimesOk(s) && Distinct(s.done) && forall i :: i in s.done ==> i < s.next
  }

  /** A waiting item can be woken: by a signal, or because its timer is somewhere. */
  predicate Reachable(s: Sched, i: ItemId)
    requires i in s.items
  {
    s.items[i].cond.Some? || s.items[i].link != Nowhere
  }

  ghost predicate Inv(s: Sched) {
    Listed(s) && forall i :: i in s.items ==> Reachable(s, i)
  }

  // ------------------------------------------------- every move keeps the lists

  lemma UnlinkTimes(s: Sched, i: ItemId, t: nat, x: ItemId)
    requires Listed(s) && i in s.items && Ok(Unlink(s, i).w)
    ensures x in Queue(Unlink(s, i).w, t) ==> x in Queue(s.w, t)
  {
    if s.items[i].link.InSlot? {
      var j := s.items[i].link.j;
      assert SlotOk(s, j);
      WithoutMembers(s.w.slots[j], i);
    }
  }

  lemma UnlinkKeeps(s: Sched, i: ItemId)
    requires Listed(s) && i in s.items
    ensures var r := Unlink(s, i);
            Listed(r) && r.items == s.items[i := s.items[i].(link := Nowhere)] && r.conds == s.conds
  {
    assert ItemOk(s, i);
    var r := Unlink(s, i);
    assert r.items == s.items[i := s.items[i].(link := Nowhere)];
    if s.items[i].link.InSlot? {
      assert SlotOk(s, s.items[i].link.j);
      WithoutMembers(s.w.slots[s.items[i].link.j], i);
    }
    WithoutMembers(s.active, i);
    forall j | 0 <= j < |r.w.slots| ensures SlotOk(r, j) {
      assert SlotOk(s, j);
    }
    forall x | x in r.items ensures ItemOk(r, x) {
      assert ItemOk(s, x);
    }
    forall c | c in r.conds ensures CondOk(r, c) {
      assert CondOk(s, c);
    }
    forall t: nat, x | x in Queue(r.w, t) ensures x in r.items && t <= r.items[x].expire {
      UnlinkTimes(s, i, t, x);
    }
  }

  lemma ActivateKeeps(s: Sched, i: ItemId)
    requires Listed(s) && i in s.items && s.items[i].link == Nowhere
    ensures Listed(Activate(s, i))
  {
    var r := Activate(s, i);
    forall j | 0 <= j < |r.w.slots| ensures SlotOk(r, j) {
      assert SlotOk(s, j);
    }
    forall x | x in r.items ensures ItemOk(r, x) {
      assert ItemOk(s, x);
    }
    forall c | c in r.conds ensures CondOk(r, c) {
      assert CondOk(s, c);
    }
  }

  lemma MoveKeeps(s: Sched, i: ItemId)
    requires Listed(s) && i in s.items
    ensures var r := Moved(s, i);
            && Listed(r) && r.items == s.items[i := s.items[i].(link := OnActive)] && r.done == s.done
            && r.next == s.next && r.loopNow == s.loopNow && |r.w.slots| == |s.w.slots|
  {
    UnlinkKeeps(s, i);
    var u := Unlink(s, i);
    ActivateKeeps(u, i);
    ActivateItems(u, i);
    assert u.items[i := u.items[i].(link := OnActive)] == s.items[i := s.items[i].(link := OnActive)];
  }

  lemma ActivateItems(s: Sched, i: ItemId)
    requires i in s.items && s.items[i].link == Nowhere
    ensures var r := Activate(s, i);
            r == s.(items := s.items[i := s.items[i].(link := OnActive)], active := s.active + [i])
  {
  }

  lemma MoveActive(s: Sched, i: ItemId)
    requires Listed(s) && i in s.items
    ensures Moved(s, i).active == Without(s.active, i) + [i]
    ensures forall x :: x in s.active ==> x in Moved(s, i).active
  {
    assert ItemOk(s, i);
    WithoutMembers(s.active, i);
    if s.items[i].link != OnActive {
      WithoutNone(s.active, i);
    }
    UnlinkKeeps(s, i);
  }

  /** The state with the timer of `i` filed under the moment of its slot. */
  ghost function Filed(s: Sched, i: ItemId): (r: Sched)
    requires Ok(s.w) && i in s.items && s.w.start <= s.items[i].expire
  {
    var d := SlotTime(s.w, s.items[i].expire) - s.w.start;
    SetLink(s, i, InSlot(Ring(s.w.idx + d, |s.w.slots|))).(w := SetSlot(s.w, d, Slot(s.w, d) + [i]))
  }

  /** Adding a timer that is due later cannot fail. */
  lemma AddTimerIs(s: Sched, i: ItemId, now: nat)
    requires Ok(s.w) && 0 < s.w.start && i in s.items && s.items[i].link == Nowhere
    requires s.w.start <= now <= s.items[i].expire
    ensures AddTimer(s, i, now) == (Filed(s, i), 0)
  {
  }

  lemma FiledQueue(s: Sched, i: ItemId, t: nat)
    requires Ok(s.w) && i in s.items && 0 < s.w.start <= s.items[i].expire
    ensures Ok(Filed(s, i).w)
    ensures Queue(Filed(s, i).w, t) ==
              if t == SlotTime(s.w, s.items[i].expire) then Queue(s.w, t) + [i] else Queue(s.w, t)
  {
    var d := SlotTime(s.w, s.items[i].expire) - s.w.start;
    QueueUpdate(s.w, d, Slot(s.w, d) + [i], t);
  }

  lemma FiledKeeps(s: Sched, i: ItemId)
    requires Listed(s) && i in s.items && s.items[i].link == Nowhere && !s.items[i].timedOut
    requires s.w.start <= s.items[i].expire
    ensures Listed(Filed(s, i))
  {
    var r := Filed(s, i);
    FiledQueue(s, i, 0);
    forall j | 0 <= j < |r.w.slots| ensures SlotOk(r, j) {
      assert SlotOk(s, j);
    }
    forall x | x in r.items ensures ItemOk(r, x) {
      assert ItemOk(s, x);
    }
    forall c | c in r.conds ensures CondOk(r, c) {
      assert CondOk(s, c);
    }
    forall t: nat, x | x in Queue(r.w, t) ensures x in r.items && t <= r.items[x].expire {
      FiledQueue(s, i, t);
    }
  }

  lemma SignalKeeps(s: Sched, c: CondId)
    requires Inv(s) && c in s.conds
    ensures forall i :: i in s.conds[c] ==> i in s.items
    ensures Inv(Signal(s, c)) && Signal(s, c).items.Keys == s.items.Keys && Signal(s, c).done == s.done
    ensures Grows(s, Signal(s, c), false)
  {
    assert CondOk(s, c);
    if s.conds[c] != [] {
      DropWaiter(s, c);
      MoveKeeps(Dequeued(s, c), s.conds[c][0]);
      var r := Signal(s, c);
      forall x | x in r.items ensures Reachable(r, x) {
        assert Reachable(s, x);
      }
    }
  }

  lemma DropWaiter(s: Sched, c: CondId)
    requires Listed(s) && c in s.conds && s.conds[c] != []
    ensures s.conds[c][0] in s.items && Listed(Dequeued(s, c))
  {
    assert CondOk(s, c);
    var i, r := s.conds[c][0], Dequeued(s, c);
    forall j | 0 <= j < |r.w.slots| ensures SlotOk(r, j) {
      assert SlotOk(s, j);
    }
    forall x | x in r.items ensures ItemOk(r, x) {
      assert ItemOk(s, x);
      if x != i && s.items[x].cond == Some(c) {
        assert x in s.conds[c] && x in s.conds[c][1..];
      }
    }
    forall b | b in r.conds ensures CondOk(r, b) {
      assert CondOk(s, b);
      if b == c {
        assert i !in r.conds[c];
      } else {
        assert i !in s.conds[b];
      }
    }
  }

  lemma ReadyKeeps(s: Sched, i: ItemId)
    requires Inv(s) && i in s.items
    ensures Inv(Ready(s, i)) && Ready(s, i).items.Keys == s.items.Keys && Ready(s, i).done == s.done
    ensures Grows(s, Ready(s, i), false)
  {
    if !s.items[i].detached {
      SameButFlag(s, Detached(s, i));
      MoveKeeps(Detached(s, i), i);
      var r := Ready(s, i);
      forall x | x in r.items ensures Reachable(r, x) {
        assert Reachable(s, x);
      }
    }
  }

  lemma SameButFlag(s: Sched, r: Sched)
    requires Listed(s) && r == s.(items := r.items) && r.items.Keys == s.items.Keys
    requires forall x :: x in s.items ==> r.items[x] == s.items[x].(detached := r.items[x].detached)
    ensures Listed(r)
  {
    forall j | 0 <= j < |r.w.slots| ensures SlotOk(r, j) {
      assert SlotOk(s, j);
    }
    forall x | x in r.items ensures ItemOk(r, x) {
      assert ItemOk(s, x);
    }
    forall c | c in r.conds ensures CondOk(r, c) {
      assert CondOk(s, c);
    }
  }

  lemma ResumedConds(s: Sched, i: ItemId, b: CondId)
    requires Listed(s) && i in s.items && b in s.conds
    requires s.items[i].cond.Some? ==> s.items[i].cond.value in s.conds
    ensures b in Resumed(s, i).conds && CondOk(Resumed(s, i), b)
    ensures forall x :: x in s.conds[b] && x != i ==> x in Resumed(s, i).conds[b]
  {
    assert CondOk(s, b) && ItemOk(s, i);
    if s.items[i].cond == Some(b) {
      IncreasingDistinct(s.conds[b]);
      WithoutMembers(s.conds[b], i);
      WithoutIncreasing(s.conds[b], i);
    }
  }

  lemma IncreasingDistinct(q: seq<ItemId>)
    requires Increasing(q)
    ensures Distinct(q)
  {
  }

  lemma ResumedKeeps(s: Sched, i: ItemId)
    requires Listed(s) && i in s.items && s.items[i].link == Nowhere
    requires forall x :: x in s.items && x != i ==> Reachable(s, x)
    ensures s.items[i].cond.Some? ==> s.items[i].cond.value in s.conds
    ensures Inv(Resumed(s, i))
  {
    assert ItemOk(s, i);
    var r := Resumed(s, i);
    forall j | 0 <= j < |r.w.slots| ensures SlotOk(r, j) {
      assert SlotOk(s, j);
    }
    forall b | b in r.conds ensures CondOk(r, b) {
      ResumedConds(s, i, b);
    }
    forall x | x in r.items ensures ItemOk(r, x) && Reachable(r, x) {
      assert ItemOk(s, x) && Reachable(s, x);
      if s.items[x].cond.Some? {
        ResumedConds(s, i, s.items[x].cond.value);
      }
    }
    forall t: nat, x | x in Queue(r.w, t) ensures x in r.items && t <= r.items[x].expire {
      QueueLinked(s, t, x);
    }
  }

  lemma AppendIncreasing(q: seq<ItemId>, x: ItemId)
    requires Increasing(q) && forall y :: y in q ==> y < x
    ensures Increasing(q + [x])
  {
    forall a, b | 0 <= a < b < |q + [x]| ensures (q + [x])[a] < (q + [x])[b] {
      assert q[a] in q;
    }
  }

  lemma WithoutIncreasing(q: seq<ItemId>, x: ItemId)
    requires Increasing(q)
    ensures Increasing(Without(q, x))
  {
    if x in q {
      WithoutAt(q, x);
    } else {
      WithoutNone(q, x);
    }
  }

  lemma QueueLinked(s: Sched, t: nat, i: ItemId)
    requires Listed(s) && i in Queue(s.w, t)
    ensures i in s.items && s.items[i].link.InSlot?
  {
    var j := Ring(s.w.idx + (t - s.w.start), |s.w.slots|);
    assert SlotOk(s, j);
  }

  // ------------------------------------------------------------ the clock step

  /** The clock may be read now: it did not go back, and the `int` count covers the gap. */
  predicate ClockOk(s: Sched, now: nat) {
    s.clock <= now && s.w.start <= now && Covers(now - s.w.start, |s.w.slots|)
  }

  lemma {:induction false} GatheredDistinct(s: Sched, k: nat)
    requires Listed(s) && k <= |s.w.slots|
    ensures Distinct(Gathered(s.w, k))
  {
    if k > 0 {
      GatheredDistinct(s, k - 1);
      var m := Ring(s.w.idx + (k - 1), |s.w.slots|);
      assert SlotOk(s, m);
      forall x | x in Gathered(s.w, k - 1) ensures x !in s.w.slots[m] {
        GatheredApart(s, k - 1, x);
      }
      DistinctConcat(Gathered(s.w, k - 1), s.w.slots[m]);
    }
  }

  lemma GatheredApart(s: Sched, k: nat, x: ItemId)
    requires Listed(s) && k < |s.w.slots| && x in Gathered(s.w, k)
    ensures x !in Slot(s.w, k)
  {
    var m := Ring(s.w.idx + k, |s.w.slots|);
    OffsetUnique(s.w, m, k);
    GatheredLinked(s, k, x);
    assert SlotOk(s, m);
  }

  lemma GatheredLinked(s: Sched, k: nat, i: ItemId)
    requires Listed(s) && k <= |s.w.slots| && i in Gathered(s.w, k)
    ensures i in s.items && s.items[i].link.InSlot? && s.items[i].link.j < |s.w.slots|
    ensures Offset(s.w, s.items[i].link.j) < k
  {
    var j := GatheredFrom(s.w, k, i);
    assert SlotOk(s, j);
  }

  lemma NotGathered(s: Sched, k: nat, i: ItemId)
    requires Listed(s) && k <= |s.w.slots|
    requires exists j :: 0 <= j < |s.w.slots| && i in Swept(s.w, k).slots[j]
    ensures i !in Gathered(s.w, k)
  {
    var j :| 0 <= j < |s.w.slots| && i in Swept(s.w, k).slots[j];
    SweptSlot(s.w, k, j);
    assert SlotOk(s, j);
    if i in Gathered(s.w, k) {
      GatheredLinked(s, k, i);
    }
  }

  ghost function Cnt(s: Sched, now: nat): (k: nat)
    requires 0 < |s.w.slots| && s.w.start <= now
    ensures k <= |s.w.slots|
  {
    Min(now - s.w.start + 1, |s.w.slots|)
  }

  ghost function TickTo(s: Sched, now: nat, k: nat): (r: Sched)
    requires 0 < |s.w.slots| && 0 <= s.w.idx
  {
    s.(w := Turn(Swept(s.w, k), now, k), clock := now, loopNow := now,
       active := s.active + Gathered(s.w, k), items := MarkTimedOut(s.items, Gathered(s.w, k)))
  }

  lemma TickIs(s: Sched, now: nat)
    requires Inv(s) && ClockOk(s, now)
    ensures Tick(s, now) == TickTo(s, now, Cnt(s, now))
  {
    TakenIs(s.w, now);
  }

  lemma TickSlots(s: Sched, r: Sched, k: nat, j: nat)
    requires Listed(s) && k <= |s.w.slots| && j < |s.w.slots|
    requires r.w.slots == Swept(s.w, k).slots && r.items == MarkTimedOut(s.items, Gathered(s.w, k))
    ensures SlotOk(r, j)
  {
    SweptSlot(s.w, k, j);
    assert SlotOk(s, j);
    forall i | i in r.w.slots[j] ensures r.items[i] == s.items[i] {
      NotGathered(s, k, i);
    }
  }

  lemma TickItems(s: Sched, r: Sched, k: nat, i: ItemId)
    requires Listed(s) && k <= |s.w.slots| && i in s.items && ItemOk(s, i) && Reachable(s, i)
    requires r.w.slots == Swept(s.w, k).slots && r.items == MarkTimedOut(s.items, Gathered(s.w, k))
    requires r.active == s.active + Gathered(s.w, k) && r.conds == s.conds && r.done == s.done && r.next == s.next
    ensures ItemOk(r, i) && Reachable(r, i)
  {
    if i !in Gathered(s.w, k) && s.items[i].link.InSlot? {
      var j := s.items[i].link.j;
      SweptSlot(s.w, k, j);
      if Offset(s.w, j) < k {
        GatheredHas(s.w, k, j, i);
      }
    }
  }

  lemma TickActive(s: Sched, k: nat)
    requires Listed(s) && k <= |s.w.slots|
    ensures Distinct(s.active + Gathered(s.w, k))
    ensures forall i :: i in Gathered(s.w, k) ==> i in s.items
  {
    GatheredDistinct(s, k);
    forall i | i in Gathered(s.w, k) ensures i in s.items && s.items[i].link.InSlot? {
      GatheredLinked(s, k, i);
    }
    DistinctConcat(s.active, Gathered(s.w, k));
  }

  lemma TickTimes(s: Sched, now: nat, t: nat, x: ItemId)
    requires Inv(s) && ClockOk(s, now) && Ok(TickTo(s, now, Cnt(s, now)).w)
    requires x in Queue(TickTo(s, now, Cnt(s, now)).w, t)
    ensures x in s.items && t <= s.items[x].expire
  {
    Turned(s.w, now, Cnt(s, now), t);
  }

  lemma TickListed(s: Sched, now: nat)
    requires Inv(s) && ClockOk(s, now)
    ensures var r := TickTo(s, now, Cnt(s, now));
            && Ok(r.w) && TimesOk(r) && ActiveOk(r)
            && (forall j :: 0 <= j < |r.w.slots| ==> SlotOk(r, j))
  {
    var k := Cnt(s, now);
    var r := TickTo(s, now, k);
    TickActive(s, k);
    Turned(s.w, now, k, 0);
    forall j | 0 <= j < |r.w.slots| ensures SlotOk(r, j) {
      TickSlots(s, r, k, j);
    }
    forall t: nat, x | x in Queue(r.w, t) ensures x in r.items && t <= r.items[x].expire {
      TickTimes(s, now, t, x);
    }
  }

  lemma TickKeeps(s: Sched, now: nat)
    requires Inv(s) && ClockOk(s, now)
    ensures Inv(Tick(s, now)) && Tick(s, now).items.Keys == s.items.Keys && Tick(s, now).done == s.done
    ensures Grows(s, Tick(s, now), false)
  {
    var k := Cnt(s, now);
    var r := TickTo(s, now, k);
    TickListed(s, now);
    forall i | i in r.items ensures ItemOk(r, i) && Reachable(r, i) {
      assert ItemOk(s, i) && Reachable(s, i);
      TickItems(s, r, k, i);
    }
    forall c | c in r.conds ensures CondOk(r, c) {
      assert CondOk(s, c);
    }
    TickIs(s, now);
  }

  lemma PopEarlyIs(s: Sched)
    requires Ok(s.w) && 0 < s.w.start == s.loopNow && s.active != [] && s.active[0] in s.items
    requires TakenEarly(s, s.active[0])
    requires s.items[s.active[0]].cond.Some? ==> s.items[s.active[0]].cond.value in s.conds
    ensures Pop(s) == Filed(PutBack(s), s.active[0])
  {
    var i := s.active[0];
    assert PutBack(s).items == SetLink(s, i, Nowhere).items[i := s.items[i].(link := Nowhere, timedOut := false)];
    AddTimerIs(PutBack(s), i, s.loopNow);
  }

  /** An item taken before its expiry goes back into the wheel. */
  lemma PopEarly(s: Sched)
    requires Inv(s) && s.active != [] && s.active[0] in s.items && TakenEarly(s, s.active[0])
    requires s.items[s.active[0]].cond.Some? ==> s.items[s.active[0]].cond.value in s.conds
    ensures Inv(Pop(s)) && Pop(s) == Filed(PutBack(s), s.active[0])
    ensures Pop(s).done == s.done && Pop(s).items.Keys == s.items.Keys
  {
    var i := s.active[0];
    PopEarlyIs(s);
    PutBackKeeps(s);
    FiledKeeps(PutBack(s), i);
    var r := Filed(PutBack(s), i);
    forall x | x in r.items ensures Reachable(r, x) {
      assert Reachable(s, x);
    }
  }

  lemma PutBackKeeps(s: Sched)
    requires Listed(s) && s.active != []
    ensures s.active[0] in s.items && Listed(PutBack(s))
  {
    var i := s.active[0];
    PopHeadKeeps(s);
    ClearFlag(SetLink(s, i, Nowhere).(active := s.active[1..]), i);
    assert PutBack(s).items == SetLink(s, i, Nowhere).items[i := s.items[i].(link := Nowhere, timedOut := false)];
  }

  /** The state in which the first active item is taken off the list and its flag cleared. */
  function PutBack(s: Sched): (r: Sched)
    requires s.active != [] && s.active[0] in s.items
  {
    var i := s.active[0];
    s.(active := s.active[1..], items := s.items[i := s.items[i].(link := Nowhere, timedOut := false)])
  }

  /** Any other item is resumed. */
  lemma PopResumes(s: Sched)
    requires Inv(s) && s.active != [] && s.active[0] in s.items && !TakenEarly(s, s.active[0])
    requires s.items[s.active[0]].cond.Some? ==> s.items[s.active[0]].cond.value in s.conds
    ensures Inv(Pop(s)) && Pop(s).done == s.done + [s.active[0]] && Pop(s).items == s.items - {s.active[0]}
  {
    var i := s.active[0];
    var s1 := SetLink(s, i, Nowhere).(active := s.active[1..]);
    PopHeadKeeps(s);
    forall x | x in s1.items && x != i ensures Reachable(s1, x) {
      assert Reachable(s, x);
    }
    ResumedKeeps(s1, i);
  }

  lemma PopReady(s: Sched)
    requires Inv(s) && s.active != []
    ensures s.active[0] in s.items
    ensures s.items[s.active[0]].cond.Some? ==> s.items[s.active[0]].cond.value in s.conds
  {
    assert ItemOk(s, s.active[0]);
  }

  lemma PopHeadKeeps(s: Sched)
    requires Listed(s) && s.active != []
    ensures s.active[0] in s.items
    ensures Listed(SetLink(s, s.active[0], Nowhere).(active := s.active[1..]))
  {
    var i := s.active[0];
    assert ItemOk(s, i);
    UnlinkKeeps(s, i);
    assert Without(s.active, i) == s.active[1..];
    assert SetLink(s, i, Nowhere).(active := s.active[1..]) == Unlink(s, i);
  }

  lemma ClearFlag(s: Sched, i: ItemId)
    requires Listed(s) && i in s.items && s.items[i].link == Nowhere
    ensures Listed(s.(items := s.items[i := s.items[i].(timedOut := false)]))
  {
    var r := s.(items := s.items[i := s.items[i].(timedOut := false)]);
    forall j | 0 <= j < |r.w.slots| ensures SlotOk(r, j) {
      assert SlotOk(s, j);
    }
    forall x | x in r.items ensures ItemOk(r, x) {
      assert ItemOk(s, x);
    }
    forall c | c in r.conds ensures CondOk(r, c) {
      assert CondOk(s, c);
    }
  }

  // -------------------------------------------------------------- new waits

  /** The state in which the new waiter has yielded. */
  ghost function Waiting(s: Sched, c: Option<CondId>, ms: int, now: nat): (r: Sched)
    requires Ok(s.w) && s.w.start <= now && (c.Some? ==> c.value in s.conds)
  {
    var s1 := if ms > 0 then Filed(Born(s, ms, now), s.next) else Born(s, ms, now);
    if c.None? then s1 else Enlisted(s1, s.next, c.value)
  }

  function Enlisted(s: Sched, i: ItemId, c: CondId): (r: Sched)
    requires i in s.items && c in s.conds
  {
    s.(conds := s.conds[c := s.conds[c] + [i]], items := s.items[i := s.items[i].(cond := Some(c))])
  }

  lemma WaitIs(s: Sched, c: Option<CondId>, ms: int, now: nat)
    requires Inv(s) && s.clock <= now && (c.Some? ==> c.value in s.conds)
    ensures Wait(s, c, ms, now) == (Waiting(s, c, ms, now), 0)
  {
    if ms > 0 {
      AddTimerIs(Born(s, ms, now), s.next, now);
    }
  }

  lemma WaitKeeps(s: Sched, c: Option<CondId>, ms: int, now: nat)
    requires Inv(s) && s.clock <= now
    requires (c.Some? ==> c.value in s.conds) && (c.None? ==> 0 < ms)
    ensures var r := Waiting(s, c, ms, now);
            Inv(r) && r.items.Keys == s.items.Keys + {s.next} && r.done == s.done && Grows(s, r, true)
  {
    var i, s0 := s.next, Born(s, ms, now);
    BornKeeps(s, ms, now);
    if ms > 0 {
      FiledKeeps(s0, i);
    }
    var s1 := if ms > 0 then Filed(s0, i) else s0;
    if c.Some? {
      Enlist(s1, i, c.value);
    }
    var r := Waiting(s, c, ms, now);
    forall x | x in r.items ensures Reachable(r, x) {
      assert x != i ==> Reachable(s, x);
    }
  }

  lemma BornKeeps(s: Sched, ms: int, now: nat)
    requires Listed(s) && s.clock <= now
    ensures Listed(Born(s, ms, now)) && s.next !in s.items
  {
    var i, r := s.next, Born(s, ms, now);
    assert forall x :: x in s.items && ItemOk(s, x) ==> x < i;
    forall j | 0 <= j < |r.w.slots| ensures SlotOk(r, j) {
      assert SlotOk(s, j);
    }
    forall x | x in r.items ensures ItemOk(r, x) {
      assert x != i ==> ItemOk(s, x);
    }
    forall c | c in r.conds ensures CondOk(r, c) {
      assert CondOk(s, c);
    }
    assert r.w == s.w;
    forall t: nat, x | x in Queue(r.w, t) ensures x in r.items && t <= r.items[x].expire {
      assert x in Queue(s.w, t) && x in s.items && x != i;
    }
  }

  lemma Enlist(s: Sched, i: ItemId, c: CondId)
    requires Listed(s) && i in s.items && s.items[i].cond.None? && c in s.conds && i == s.next - 1
    ensures Listed(Enlisted(s, i, c))
  {
    var r := Enlisted(s, i, c);
    forall j | 0 <= j < |r.w.slots| ensures SlotOk(r, j) {
      assert SlotOk(s, j);
    }
    forall x | x in r.items ensures ItemOk(r, x) {
      assert ItemOk(s, x);
    }
    forall b | b in r.conds ensures CondOk(r, b) {
      assert CondOk(s, b);
      forall x | x in s.conds[b] ensures x < i {
        assert ItemOk(s, x);
      }
      AppendIncreasing(s.conds[b], i);
    }
  }

  // ---------------------------------------------------------------- every run

  datatype Event =
    | NewCond(c: CondId)
    | AWait(cond: Option<CondId>, ms: int, now: nat)
    | ASignal(c: CondId)
    | AReady(i: ItemId)
    | ATick(now: nat)
    | APop

  /** What the callers and the clock respect. */
  predicate Enabled(s: Sched, ev: Event) {
    match ev
    case NewCond(c) => c !in s.conds
    case AWait(c, ms, now) => s.clock <= now && (if c.Some? then c.value in s.conds else 0 < ms)
    case ASignal(c) => c in s.conds
    case AReady(i) => i in s.items
    case ATick(now) => ClockOk(s, now)
    case APop => s.active != []
  }

  ghost function Apply(s: Sched, ev: Event): (r: Sched)
    requires Inv(s) && Enabled(s, ev)
  {
    match ev
    case NewCond(c) => s.(conds := s.conds[c := []])
    case AWait(c, ms, now) => Wait(s, c, ms, now).0
    case ASignal(c) => Signal(s, c)
    case AReady(i) => Ready(s, i)
    case ATick(now) => Tick(s, now)
    case APop => PopReady(s); Pop(s)
  }

  ghost predicate Initial(s: Sched) {
    && Ok(s.w) && Blank(s.w) && 0 < s.w.start == s.clock == s.loopNow
    && s.active == [] && s.conds == map[] && s.items == map[] && s.next == 0 && s.done == []
  }

  /** `Inv` is not assumed of the states: a step is only described where it holds. */
  ghost predicate IsRun(ss: seq<Sched>, evs: seq<Event>) {
    && |ss| == |evs| + 1 && Initial(ss[0])
    && forall k :: 0 <= k < |evs| && Inv(ss[k]) ==> Enabled(ss[k], evs[k]) && ss[k + 1] == Apply(ss[k], evs[k])
  }

  /** The step neither makes nor resumes a wait, makes wait `next`, or resumes one wait. */
  ghost predicate Accounted(s: Sched, r: Sched, made: bool) {
    if made then r.items.Keys == s.items.Keys + {s.next} && r.done == s.done
    else
      || (r.items.Keys == s.items.Keys && r.done == s.done)
      || exists i :: i in s.items && r.items.Keys == s.items.Keys - {i} && r.done == s.done + [i]
  }

  /** The number of slots is fixed, the loop's clock only grows, and each wait takes a number. */
  predicate Grows(s: Sched, r: Sched, made: bool) {
    s.loopNow <= r.loopNow && |r.w.slots| == |s.w.slots| && r.next == s.next + (if made then 1 else 0)
  }

  /** Every step keeps the invariant and accounts for every wait. */
  lemma StepKeeps(s: Sched, ev: Event)
    requires Inv(s) && Enabled(s, ev)
    ensures Inv(Apply(s, ev)) && Accounted(s, Apply(s, ev), ev.AWait?) && Grows(s, Apply(s, ev), ev.AWait?)
  {
    match ev
    case NewCond(c) => NewCondKeeps(s, c);
    case AWait(c, ms, now) => WaitIs(s, c, ms, now); WaitKeeps(s, c, ms, now);
    case ASignal(c) => SignalKeeps(s, c);
    case AReady(i) => ReadyKeeps(s, i);
    case ATick(now) => TickKeeps(s, now);
    case APop => PopStep(s);
  }

  lemma PopStep(s: Sched)
    requires Inv(s) && s.active != []
    ensures Inv(Apply(s, APop)) && Accounted(s, Apply(s, APop), false) && Grows(s, Apply(s, APop), false)
  {
    PopReady(s);
    if TakenEarly(s, s.active[0]) {
      PopEarly(s);
    } else {
      PopResumes(s);
      assert s.active[0] in s.items && (s.items - {s.active[0]}).Keys == s.items.Keys - {s.active[0]};
    }
  }

  lemma NewCondKeeps(s: Sched, c: CondId)
    requires Inv(s) && c !in s.conds
    ensures Inv(s.(conds := s.conds[c := []]))
  {
    var r := s.(conds := s.conds[c := []]);
    forall j | 0 <= j < |r.w.slots| ensures SlotOk(r, j) {
      assert SlotOk(s, j);
    }
    forall x | x in r.items ensures ItemOk(r, x) && Reachable(r, x) {
      assert ItemOk(s, x) && Reachable(s, x);
    }
    forall b | b in r.conds ensures CondOk(r, b) {
      assert b != c ==> CondOk(s, b);
    }
  }

  ghost predicate Complete(s: Sched) {
    forall i: ItemId :: i < s.next ==> i in s.items || i in s.done
  }

  lemma StepCompletes(s: Sched, r: Sched, made: bool)
    requires Complete(s) && Accounted(s, r, made) && Grows(s, r, made)
    ensures Complete(r)
  {
    if !made && !(r.items.Keys == s.items.Keys && r.done == s.done) {
      var i :| i in s.items && r.items.Keys == s.items.Keys - {i} && r.done == s.done + [i];
      assert r.done[|s.done|] == i;
      forall x: ItemId | x < r.next ensures x in r.items || x in r.done {
        assert x in s.items || x in s.done;
      }
    }
  }

  /** Exactly-once wake-up. At every point of every run, each wait ever begun is either
      still pending, and then reachable by a signal or a timer, or was resumed exactly once. */
  lemma {:induction false} ExactlyOnce(ss: seq<Sched>, evs: seq<Event>, k: nat)
    requires IsRun(ss, evs) && k < |ss|
    ensures Inv(ss[k]) && Distinct(ss[k].done)
    ensures forall i: ItemId :: i < ss[k].next ==> (i in ss[k].items <==> i !in ss[k].done)
    ensures forall i :: i in ss[k].items ==> Reachable(ss[k], i)
  {
    RunComplete(ss, evs, k);
    forall i: ItemId | i in ss[k].items ensures i !in ss[k].done {
      assert ItemOk(ss[k], i);
    }
  }

  lemma {:induction false} RunComplete(ss: seq<Sched>, evs: seq<Event>, k: nat)
    requires IsRun(ss, evs) && k < |ss|
    ensures Inv(ss[k]) && Complete(ss[k])
  {
    if k == 0 {
      InitialInv(ss[0]);
    } else {
      RunComplete(ss, evs, k - 1);
      StepKeeps(ss[k - 1], evs[k - 1]);
      StepCompletes(ss[k - 1], ss[k], evs[k - 1].AWait?);
    }
  }

  lemma InitialInv(s: Sched)
    requires Initial(s)
    ensures Inv(s)
  {
    assert forall j :: 0 <= j < |s.w.slots| ==> SlotOk(s, j);
  }

  // ----------------------------------------------------------- timeliness

  /** The item is on the active list and will be resumed when its turn comes. */
  predicate Woken(s: Sched, i: ItemId) {
    i in s.active && i in s.items && !TakenEarly(s, i)
  }

  /** Once an item is bound to be resumed, every step keeps it so or resumes it. */
  lemma StaysWoken(s: Sched, ev: Event, i: ItemId)
    requires Inv(s) && Enabled(s, ev) && Woken(s, i)
    ensures Woken(Apply(s, ev), i) || i in Apply(s, ev).done
  {
    assert ItemOk(s, i);
    match ev
    case NewCond(c) =>
    case AWait(c, ms, now) => WaitIs(s, c, ms, now); WaitSpares(s, c, ms, now, i);
    case ASignal(c) => SignalSpares(s, c, i);
    case AReady(x) => ReadySpares(s, x, i);
    case ATick(now) => TickSpares(s, now, i);
    case APop => PopSpares(s, i);
  }

  lemma WaitSpares(s: Sched, c: Option<CondId>, ms: int, now: nat, i: ItemId)
    requires Inv(s) && s.clock <= now && Woken(s, i) && (c.Some? ==> c.value in s.conds)
    ensures Woken(Waiting(s, c, ms, now), i)
  {
    assert ItemOk(s, i);
  }

  lemma SignalSpares(s: Sched, c: CondId, i: ItemId)
    requires Inv(s) && c in s.conds && Woken(s, i)
    ensures forall x :: x in s.conds[c] ==> x in s.items
    ensures Woken(Signal(s, c), i)
  {
    SignalKeeps(s, c);
    if s.conds[c] != [] {
      DropWaiter(s, c);
      MoveSpares(Dequeued(s, c), s.conds[c][0], i);
    }
  }

  lemma MoveSpares(s: Sched, x: ItemId, i: ItemId)
    requires Listed(s) && x in s.items && Woken(s, i)
    ensures Woken(Moved(s, x), i)
  {
    MoveKeeps(s, x);
    MoveActive(s, x);
  }

  lemma ReadySpares(s: Sched, x: ItemId, i: ItemId)
    requires Inv(s) && x in s.items && Woken(s, i)
    ensures Woken(Ready(s, x), i)
  {
    if !s.items[x].detached {
      SameButFlag(s, Detached(s, x));
      MoveSpares(Detached(s, x), x, i);
    }
  }

  lemma TickSpares(s: Sched, now: nat, i: ItemId)
    requires Inv(s) && ClockOk(s, now) && Woken(s, i)
    ensures Woken(Tick(s, now), i)
  {
    TickIs(s, now);
    if i in Gathered(s.w, Cnt(s, now)) {
      GatheredLinked(s, Cnt(s, now), i);
    }
  }

  lemma PopSpares(s: Sched, i: ItemId)
    requires Inv(s) && s.active != [] && Woken(s, i)
    ensures Woken(Apply(s, APop), i) || i in Apply(s, APop).done
  {
    PopReady(s);
    if TakenEarly(s, s.active[0]) {
      PopEarly(s);
    } else {
      PopResumes(s);
      assert Pop(s).done[|s.done|] == s.active[0];
    }
  }

  /** Every timer that has expired when the clock is read is taken and bound to be resumed. */
  lemma TickTakesExpired(s: Sched, now: nat, i: ItemId)
    requires Inv(s) && ClockOk(s, now)
    requires i in s.items && s.items[i].link.InSlot? && s.items[i].expire <= now
    ensures Woken(Tick(s, now), i)
  {
    TickIs(s, now);
    assert ItemOk(s, i);
    var j, k := s.items[i].link.j, Cnt(s, now);
    var t := s.w.start + Offset(s.w, j);
    assert i in Queue(s.w, t);
    GatheredHas(s.w, k, j, i);
  }

  lemma {:induction false} WokenUntil(ss: seq<Sched>, evs: seq<Event>, i: ItemId, k: nat, m: nat)
    requires IsRun(ss, evs) && k <= m < |ss| && Woken(ss[k], i)
    ensures Woken(ss[m], i) || i in ss[m].done
  {
    if k < m {
      WokenUntil(ss, evs, i, k, m - 1);
      RunComplete(ss, evs, m - 1);
      StepKeeps(ss[m - 1], evs[m - 1]);
      if Woken(ss[m - 1], i) {
        StaysWoken(ss[m - 1], evs[m - 1], i);
      }
    }
  }

  /** Timeliness. A timer that has expired when the loop reads the clock in step `k` has been
      resumed by the time the loop has drained the active list, whatever runs in between. */
  lemma ExpiredIsResumed(ss: seq<Sched>, evs: seq<Event>, i: ItemId, k: nat, m: nat)
    requires IsRun(ss, evs) && k < m < |ss| && evs[k].ATick? && ss[m].active == []
    requires i in ss[k].items && ss[k].items[i].link.InSlot? && ss[k].items[i].expire <= evs[k].now
    ensures i in ss[m].done
  {
    RunComplete(ss, evs, k);
    TickTakesExpired(ss[k], evs[k].now, i);
    WokenUntil(ss, evs, i, k + 1, m);
  }

  /** An event wakes its poll: the item leaves the wheel or its place and stands last on the active
      list, and it will be resumed when its turn comes if and only if its timer had not just been
      taken too early. Further events for the same poll change nothing. */
  lemma ReadyWakes(s: Sched, i: ItemId)
    requires Inv(s) && Enabled(s, AReady(i))
    ensures var r := Apply(s, AReady(i));
            if s.items[i].detached then r == s
            else
              && i in r.items && r.items[i].detached && r.active != [] && Last(r.active) == i
              && (Woken(r, i) <==> !TakenEarly(s, i))
  {
    if !s.items[i].detached {
      SameButFlag(s, Detached(s, i));
      MoveKeeps(Detached(s, i), i);
      MoveActive(Detached(s, i), i);
      assert Last(Ready(s, i).active) in Ready(s, i).active;
    }
  }

  /** So, over every run: a poll whose event arrives in step `k`, and whose timer has not just been
      taken too early, has been resumed by the time the active list is empty. */
  lemma ReadyIsResumed(ss: seq<Sched>, evs: seq<Event>, i: ItemId, k: nat, m: nat)
    requires IsRun(ss, evs) && k < m < |ss| && evs[k] == AReady(i) && ss[m].active == []
    requires i in ss[k].items && !ss[k].items[i].detached && !TakenEarly(ss[k], i)
    ensures i in ss[m].done
  {
    RunComplete(ss, evs, k);
    ReadyWakes(ss[k], i);
    WokenUntil(ss, evs, i, k + 1, m);
  }

  /** The same for a signal and the waiter that has waited longest. */
  lemma SignalledIsResumed(ss: seq<Sched>, evs: seq<Event>, c: CondId, k: nat, m: nat)
    requires IsRun(ss, evs) && k < m < |ss| && evs[k] == ASignal(c) && ss[m].active == []
    requires c in ss[k].conds && ss[k].conds[c] != []
    requires var i := ss[k].conds[c][0]; i in ss[k].items && !TakenEarly(ss[k], i)
    ensures ss[k].conds[c][0] in ss[m].done
  {
    RunComplete(ss, evs, k);
    SignalWakesOldest(ss[k], c);
    WokenUntil(ss, evs, ss[k].conds[c][0], k + 1, m);
  }

  predicate Unmarked(s: Sched, i: ItemId) {
    i in s.items ==> !s.items[i].detached
  }

  lemma MoveUnmarked(s: Sched, x: ItemId, i: ItemId)
    requires Listed(s) && x in s.items && Unmarked(s, i)
    ensures Unmarked(Moved(s, x), i) && Moved(s, x).next == s.next
  {
    UnlinkKeeps(s, x);
  }

  lemma StaysUnmarked(s: Sched, ev: Event, i: ItemId)
    requires Inv(s) && Enabled(s, ev) && Unmarked(s, i) && i < s.next && ev != AReady(i)
    ensures Unmarked(Apply(s, ev), i) && i < Apply(s, ev).next
  {
    match ev
    case NewCond(c) =>
    case AWait(c, ms, now) => WaitIs(s, c, ms, now);
    case ASignal(c) => SignalUnmarked(s, c, i);
    case AReady(x) => ReadyUnmarked(s, x, i);
    case ATick(now) => TickIs(s, now);
    case APop => PopUnmarked(s, i);
  }

  lemma SignalUnmarked(s: Sched, c: CondId, i: ItemId)
    requires Inv(s) && c in s.conds && Unmarked(s, i)
    ensures Unmarked(Signal(s, c), i) && Signal(s, c).next == s.next
  {
    if s.conds[c] != [] && s.conds[c][0] in s.items {
      DropWaiter(s, c);
      MoveUnmarked(Dequeued(s, c), s.conds[c][0], i);
    }
  }

  lemma ReadyUnmarked(s: Sched, x: ItemId, i: ItemId)
    requires Inv(s) && x in s.items && x != i && Unmarked(s, i)
    ensures Unmarked(Ready(s, x), i) && Ready(s, x).next == s.next
  {
    if !s.items[x].detached {
      SameButFlag(s, Detached(s, x));
      MoveUnmarked(Detached(s, x), x, i);
    }
  }

  lemma PopUnmarked(s: Sched, i: ItemId)
    requires Inv(s) && s.active != [] && Unmarked(s, i)
    ensures Unmarked(Apply(s, APop), i) && Apply(s, APop).next == s.next
  {
    PopReady(s);
    if TakenEarly(s, s.active[0]) {
      PopEarlyIs(s);
    } else {
      PopResumes(s);
    }
  }

  /** No event of a poll is taken for a repeated one before its first: until then a wait is not
      marked. */
  lemma {:induction false} UnmarkedUntil(ss: seq<Sched>, evs: seq<Event>, k: nat, m: nat)
    requires IsRun(ss, evs) && k < m < |ss| && evs[k].AWait?
    requires forall n :: k < n < m ==> evs[n] != AReady(ss[k].next)
    ensures Unmarked(ss[m], ss[k].next) && ss[k].next < ss[m].next
  {
    var i := ss[k].next;
    if m == k + 1 {
      RunComplete(ss, evs, k);
      WaitIs(ss[k], evs[k].cond, evs[k].ms, evs[k].now);
    } else {
      UnmarkedUntil(ss, evs, k, m - 1);
      RunComplete(ss, evs, m - 1);
      StaysUnmarked(ss[m - 1], evs[m - 1], i);
    }
  }

  /** So the first event of a poll wakes it, over every run. */
  lemma FirstEventIsResumed(ss: seq<Sched>, evs: seq<Event>, k: nat, e: nat, m: nat)
    requires IsRun(ss, evs) && k < e < m < |ss| && evs[k].AWait? && evs[e] == AReady(ss[k].next) && ss[m].active == []
    requires forall n :: k < n < e ==> evs[n] != AReady(ss[k].next)
    requires ss[k].next in ss[e].items && !TakenEarly(ss[e], ss[k].next)
    ensures ss[k].next in ss[m].done
  {
    UnmarkedUntil(ss, evs, k, e);
    ReadyIsResumed(ss, evs, ss[k].next, e, m);
  }

  /** A call that is refused leaves nothing behind. */
  lemma RefusedWaitLeavesNothing(s: Sched, c: Option<CondId>, ms: int, now: nat)
    requires Ok(s.w) && (c.Some? ==> c.value in s.conds) && s.next !in s.items
    ensures var (r, ret) := Wait(s, c, ms, now);
            && (ret != 0 ==> r.items == s.items && r.conds == s.conds && r.active == s.active && r.done == s.done)
            && (ret == 0 ==> s.next in r.items)
  {
    if ms > 0 {
      RefusedTimer(Born(s, ms, now), s.next, now);
    }
  }

  lemma RefusedTimer(s: Sched, i: ItemId, now: nat)
    requires Ok(s.w) && i in s.items
    ensures var (r, ret) := AddTimer(s, i, now);
            && r.items.Keys == s.items.Keys && r.conds == s.conds && r.active == s.active && r.done == s.done
            && (ret != 0 ==> r.items == s.items)
  {
  }

  // ----------------------------------------------------- timeouts are kept

  /** A wait with a timeout is in the wheel or on the active list. */
  predicate Armed(s: Sched, i: ItemId) {
    i in s.items ==> s.items[i].link != Nowhere
  }

  lemma MoveArmed(s: Sched, x: ItemId, i: ItemId)
    requires Listed(s) && x in s.items && Armed(s, i)
    ensures Armed(Moved(s, x), i)
  {
    MoveKeeps(s, x);
    MoveActive(s, x);
    UnlinkKeeps(s, x);
  }

  lemma StaysArmed(s: Sched, ev: Event, i: ItemId)
    requires Inv(s) && Enabled(s, ev) && Armed(s, i) && i < s.next
    ensures Armed(Apply(s, ev), i)
  {
    match ev
    case NewCond(c) =>
    case AWait(c, ms, now) => WaitIs(s, c, ms, now);
    case ASignal(c) => SignalArmed(s, c, i);
    case AReady(x) =>
      if !s.items[x].detached {
        SameButFlag(s, Detached(s, x));
        MoveArmed(Detached(s, x), x, i);
      }
    case ATick(now) => TickIs(s, now);
    case APop => PopArmed(s, i);
  }

  lemma SignalArmed(s: Sched, c: CondId, i: ItemId)
    requires Inv(s) && c in s.conds && Armed(s, i)
    ensures Armed(Signal(s, c), i)
  {
    if s.conds[c] != [] && s.conds[c][0] in s.items {
      DropWaiter(s, c);
      MoveArmed(Dequeued(s, c), s.conds[c][0], i);
    }
  }

  lemma PopArmed(s: Sched, i: ItemId)
    requires Inv(s) && s.active != [] && Armed(s, i)
    ensures Armed(Apply(s, APop), i)
  {
    PopReady(s);
    if TakenEarly(s, s.active[0]) {
      PopEarlyIs(s);
    } else {
      PopResumes(s);
    }
  }

  /** A wait with a timeout begins armed, with the expiry that was asked for. */
  lemma WaitArmed(s: Sched, ev: Event)
    requires Inv(s) && ev.AWait? && 0 < ev.ms && Enabled(s, ev)
    ensures var r := Apply(s, ev);
            && s.next in r.items && r.items[s.next].expire == ev.now + ev.ms && r.items[s.next].link != Nowhere
            && r.items[s.next].cond == ev.cond && !r.items[s.next].timedOut && r.next == s.next + 1
  {
    WaitIs(s, ev.cond, ev.ms, ev.now);
  }

  lemma {:induction false} ArmedUntil(ss: seq<Sched>, evs: seq<Event>, i: ItemId, k: nat, m: nat)
    requires IsRun(ss, evs) && k <= m < |ss| && Armed(ss[k], i) && i < ss[k].next
    ensures Armed(ss[m], i) && i < ss[m].next
  {
    if k < m {
      ArmedUntil(ss, evs, i, k, m - 1);
      RunComplete(ss, evs, m - 1);
      StaysArmed(ss[m - 1], evs[m - 1], i);
      StepKeeps(ss[m - 1], evs[m - 1]);
    }
  }

  /** A tick at or after its expiry binds every armed item to be resumed, wherever its timer is. */
  lemma TickWakesArmed(s: Sched, now: nat, i: ItemId)
    requires Inv(s) && ClockOk(s, now) && i in s.items && Armed(s, i) && s.items[i].expire <= now
    ensures Woken(Tick(s, now), i)
  {
    assert ItemOk(s, i);
    if s.items[i].link.InSlot? {
      TickTakesExpired(s, now, i);
    } else {
      TickIs(s, now);
    }
  }

  /** Every timeout is kept: in every run, a wait begun in step `k` with a timeout has been resumed
      once the loop has read the clock at or after its expiry, in step `t`, and has drained the
      active list. */
  lemma TimeoutIsKept(ss: seq<Sched>, evs: seq<Event>, k: nat, t: nat, m: nat)
    requires IsRun(ss, evs) && k < t < m < |ss| && evs[k].AWait? && 0 < evs[k].ms
    requires evs[t].ATick? && evs[k].now + evs[k].ms <= evs[t].now && ss[m].active == []
    ensures ss[k].next in ss[m].done
  {
    var i := ss[k].next;
    RunComplete(ss, evs, k);
    WaitArmed(ss[k], evs[k]);
    ArmedUntil(ss, evs, i, k + 1, t);
    RunComplete(ss, evs, t);
    RunComplete(ss, evs, m);
    RunChains(ss, evs);
    if i in ss[t].items {
      ExpireKept(ss, i, k + 1, t);
      TickWakesArmed(ss[t], evs[t].now, i);
      WokenUntil(ss, evs, i, t + 1, m);
    } else {
      DoneUntil(ss, evs, i, t, m);
    }
  }

  lemma {:induction false} DoneUntil(ss: seq<Sched>, evs: seq<Event>, i: ItemId, k: nat, m: nat)
    requires IsRun(ss, evs) && k <= m < |ss| && i in ss[k].done
    ensures i in ss[m].done
  {
    if k < m {
      DoneUntil(ss, evs, i, k, m - 1);
      RunComplete(ss, evs, m - 1);
      StepKeeps(ss[m - 1], evs[m - 1]);
    }
  }

  /** No timer fires early: an item that was taken by its timer is resumed only once its
      expiry has passed. */
  lemma NeverEarly(s: Sched)
    requires Inv(s) && s.active != []
    ensures s.active[0] in s.items
    ensures s.active[0] in Apply(s, APop).done && s.items[s.active[0]].timedOut
            ==> s.items[s.active[0]].expire <= s.loopNow
    ensures s.active[0] in Apply(s, APop).done <==> !TakenEarly(s, s.active[0])
  {
    PopReady(s);
    assert ItemOk(s, s.active[0]);
    if TakenEarly(s, s.active[0]) {
      PopEarly(s);
    } else {
      PopResumes(s);
      assert Pop(s).done[|s.done|] == s.active[0];
    }
  }

  // ----------------------------------------------- long timeouts are put back

  /** The timer of `i` is not taken before moment `b`. */
  ghost predicate NotBefore(s: Sched, i: ItemId, b: int)
    requires Ok(s.w)
  {
    && i < s.next
    && (i in s.items && s.items[i].timedOut ==> b <= s.loopNow)
    && (forall t: nat :: i in Queue(s.w, t) ==> b <= t)
  }

  /** The timer of `i` stands in the wheel at a moment not after `now`. */
  ghost predicate Came(s: Sched, i: ItemId, now: nat)
    requires Ok(s.w)
  {
    exists t: nat :: i in Queue(s.w, t) && t <= now
  }

  /** Where an item that existed before a step comes from: its expiry is as it was, its flag
      was raised only by taking it when its moment had come, and its timer is in the wheel
      where it was or where it was put back. */
  ghost predicate Traced(s: Sched, r: Sched, i: ItemId)
    requires Ok(s.w) && Ok(r.w)
  {
    && (i in r.items ==>
          && i in s.items && r.items[i].expire == s.items[i].expire
          && (r.items[i].timedOut ==> s.items[i].timedOut || Came(s, i, r.loopNow)))
    && (forall t: nat :: i in Queue(r.w, t) ==>
          i in Queue(s.w, t) || (i in s.items && s.items[i].timedOut && s.loopNow <= t))
  }

  lemma WaitTraced(s: Sched, c: Option<CondId>, ms: int, now: nat, i: ItemId)
    requires Inv(s) && s.clock <= now && i < s.next && (c.Some? ==> c.value in s.conds)
    ensures Ok(Waiting(s, c, ms, now).w) && Traced(s, Waiting(s, c, ms, now), i)
  {
    if ms > 0 {
      FiledQueue(Born(s, ms, now), s.next, 0);
      forall t: nat | i in Queue(Waiting(s, c, ms, now).w, t) ensures i in Queue(s.w, t) {
        FiledQueue(Born(s, ms, now), s.next, t);
      }
    }
  }

  lemma MoveTraced(s: Sched, x: ItemId, i: ItemId)
    requires Listed(s) && x in s.items
    ensures Ok(Moved(s, x).w) && Traced(s, Moved(s, x), i)
  {
    MoveKeeps(s, x);
    UnlinkKeeps(s, x);
    forall t: nat | i in Queue(Moved(s, x).w, t) ensures i in Queue(s.w, t) {
      UnlinkTimes(s, x, t, i);
    }
  }

  lemma TracedThrough(s: Sched, s1: Sched, r: Sched, i: ItemId)
    requires Ok(s.w) && Ok(r.w) && s1.w == s.w && s1.loopNow == s.loopNow && s1.items.Keys == s.items.Keys
    requires forall x :: x in s.items ==>
               s1.items[x].expire == s.items[x].expire && s1.items[x].timedOut == s.items[x].timedOut
    requires Traced(s1, r, i)
    ensures Traced(s, r, i)
  {
  }

  lemma SignalTraced(s: Sched, c: CondId, i: ItemId)
    requires Inv(s) && c in s.conds
    ensures Ok(Signal(s, c).w) && Traced(s, Signal(s, c), i)
  {
    if s.conds[c] != [] {
      DropWaiter(s, c);
      MoveTraced(Dequeued(s, c), s.conds[c][0], i);
      TracedThrough(s, Dequeued(s, c), Signal(s, c), i);
    }
  }

  lemma ReadyTraced(s: Sched, x: ItemId, i: ItemId)
    requires Inv(s) && x in s.items
    ensures Ok(Ready(s, x).w) && Traced(s, Ready(s, x), i)
  {
    if !s.items[x].detached {
      SameButFlag(s, Detached(s, x));
      MoveTraced(Detached(s, x), x, i);
      TracedThrough(s, Detached(s, x), Ready(s, x), i);
    }
  }

  lemma TickToTraced(s: Sched, now: nat, i: ItemId)
    requires Inv(s) && ClockOk(s, now) && Ok(TickTo(s, now, Cnt(s, now)).w)
    ensures Traced(s, TickTo(s, now, Cnt(s, now)), i)
  {
    var k := Cnt(s, now);
    if i in Gathered(s.w, k) {
      GatheredLinked(s, k, i);
      assert ItemOk(s, i);
      assert i in Queue(s.w, s.w.start + Offset(s.w, s.items[i].link.j));
    }
    forall t: nat | i in Queue(TickTo(s, now, k).w, t) ensures i in Queue(s.w, t) {
      Turned(s.w, now, k, t);
    }
  }

  lemma TickTraced(s: Sched, now: nat, i: ItemId)
    requires Inv(s) && ClockOk(s, now)
    ensures Inv(Tick(s, now)) && Traced(s, Tick(s, now), i)
  {
    TickKeeps(s, now);
    TickIs(s, now);
    TickToTraced(s, now, i);
  }

  lemma PutBackTraced(s: Sched, i: ItemId)
    requires Inv(s) && s.active != [] && s.active[0] in s.items && TakenEarly(s, s.active[0])
    requires Ok(Filed(PutBack(s), s.active[0]).w)
    ensures Traced(s, Filed(PutBack(s), s.active[0]), i)
  {
    var r := Filed(PutBack(s), s.active[0]);
    forall t: nat | i in Queue(r.w, t)
      ensures i in Queue(s.w, t) || (i in s.items && s.items[i].timedOut && s.loopNow <= t)
    {
      FiledQueue(PutBack(s), s.active[0], t);
    }
  }

  lemma PopTraced(s: Sched, i: ItemId)
    requires Inv(s) && s.active != []
    ensures Inv(Apply(s, APop)) && Traced(s, Apply(s, APop), i)
  {
    PopReady(s);
    if TakenEarly(s, s.active[0]) {
      PopEarly(s);
      PutBackTraced(s, i);
    } else {
      PopResumes(s);
    }
  }

  lemma StepTraced(s: Sched, ev: Event, i: ItemId)
    requires Inv(s) && Enabled(s, ev) && i < s.next
    ensures Inv(Apply(s, ev)) && Traced(s, Apply(s, ev), i)
  {
    StepKeeps(s, ev);
    match ev
    case NewCond(c) => NewCondKeeps(s, c);
    case AWait(c, ms, now) => WaitIs(s, c, ms, now); WaitTraced(s, c, ms, now, i);
    case ASignal(c) => SignalTraced(s, c, i);
    case AReady(x) => ReadyTraced(s, x, i);
    case ATick(now) => TickTraced(s, now, i);
    case APop => PopTraced(s, i);
  }

  lemma TracedNotBefore(s: Sched, r: Sched, i: ItemId, b: int)
    requires Ok(s.w) && Ok(r.w) && NotBefore(s, i, b) && Traced(s, r, i)
    requires s.loopNow <= r.loopNow && s.next <= r.next
    ensures NotBefore(r, i, b)
  {
  }

  /** What is known of two successive states of a run without knowing the step. */
  ghost predicate Follows(s: Sched, r: Sched) {
    && Inv(s) && Inv(r)
    && s.loopNow <= r.loopNow && s.next <= r.next && |r.w.slots| == |s.w.slots|
    && forall i: ItemId :: i < s.next ==> Traced(s, r, i)
  }

  lemma RunFollows(ss: seq<Sched>, evs: seq<Event>, k: nat)
    requires IsRun(ss, evs) && k < |evs|
    ensures Follows(ss[k], ss[k + 1])
  {
    RunComplete(ss, evs, k);
    StepKeeps(ss[k], evs[k]);
    var s, r := ss[k], ss[k + 1];
    forall i: ItemId | i < s.next ensures Traced(s, r, i) {
      StepTraced(s, evs[k], i);
    }
  }

  ghost predicate Chain(ss: seq<Sched>) {
    forall k :: 0 <= k < |ss| ==> FollowsAt(ss, k)
  }

  ghost predicate FollowsAt(ss: seq<Sched>, k: nat)
    requires k < |ss|
  {
    k + 1 < |ss| ==> Follows(ss[k], ss[k + 1])
  }

  lemma {:induction false} NotBeforeUntil(ss: seq<Sched>, i: ItemId, b: int, k: nat, m: nat)
    requires Chain(ss) && k <= m < |ss| && Inv(ss[k]) && NotBefore(ss[k], i, b)
    ensures Inv(ss[m]) && NotBefore(ss[m], i, b)
  {
    if k < m {
      NotBeforeUntil(ss, i, b, k, m - 1);
      assert FollowsAt(ss, m - 1);
      TracedNotBefore(ss[m - 1], ss[m], i, b);
    }
  }

  /** An item's expiry, once set, and the number of slots never change. */
  lemma {:induction false} ExpireKept(ss: seq<Sched>, i: ItemId, k: nat, m: nat)
    requires Chain(ss) && k <= m < |ss| && i < ss[k].next && i in ss[m].items
    ensures i in ss[k].items && ss[m].items[i].expire == ss[k].items[i].expire
    ensures |ss[m].w.slots| == |ss[k].w.slots| && ss[k].next <= ss[m].next
    decreases m
  {
    if k < m {
      assert FollowsAt(ss, m - 1);
      NextGrows(ss, k, m - 1);
      assert Traced(ss[m - 1], ss[m], i);
      ExpireKept(ss, i, k, m - 1);
    }
  }

  lemma {:induction false} NextGrows(ss: seq<Sched>, k: nat, m: nat)
    requires Chain(ss) && k <= m < |ss|
    ensures ss[k].next <= ss[m].next
  {
    if k < m {
      assert FollowsAt(ss, m - 1);
      NextGrows(ss, k, m - 1);
    }
  }

  lemma FiledNotBefore(s: Sched, i: ItemId)
    requires Listed(s) && i in s.items && s.items[i].link == Nowhere && !s.items[i].timedOut
    requires s.w.start <= s.items[i].expire && Ok(Filed(s, i).w)
    ensures NotBefore(Filed(s, i), i, SlotTime(s.w, s.items[i].expire))
  {
    assert ItemOk(s, i);
    forall t: nat | i in Queue(Filed(s, i).w, t) ensures SlotTime(s.w, s.items[i].expire) <= t {
      FiledQueue(s, i, t);
      if i in Queue(s.w, t) {
        QueueLinked(s, t, i);
      }
    }
  }

  lemma PutBackNotBefore(s: Sched)
    requires Inv(s) && s.active != [] && s.active[0] in s.items && TakenEarly(s, s.active[0])
    ensures Inv(Apply(s, APop))
    ensures NotBefore(Apply(s, APop), s.active[0], SlotTime(s.w, s.items[s.active[0]].expire))
  {
    PopReady(s);
    PopEarly(s);
    PutBackKeeps(s);
    FiledNotBefore(PutBack(s), s.active[0]);
  }

  /** Step `k` puts the timer of `i` back. */
  ghost predicate PutsBack(ss: seq<Sched>, evs: seq<Event>, i: ItemId, k: nat) {
    && k < |evs| < |ss| && evs[k].APop? && ss[k].active != [] && ss[k].active[0] == i
    && i in ss[k].items && TakenEarly(ss[k], i)
  }

  /** Between two times that the same timer is put back, the loop's clock advances by at least a
      turn of the wheel less one, and it never is put back once its expiry has come. */
  lemma PutBackSpacing(ss: seq<Sched>, evs: seq<Event>, i: ItemId, k: nat, m: nat)
    requires IsRun(ss, evs) && k < m < |evs| && PutsBack(ss, evs, i, k)
    requires i in ss[m].items && TakenEarly(ss[m], i)
    ensures ss[k].loopNow + |ss[k].w.slots| - 1 <= ss[m].loopNow < ss[m].items[i].expire
    ensures ss[m].items[i].expire == ss[k].items[i].expire && |ss[m].w.slots| == |ss[k].w.slots|
  {
    RunChains(ss, evs);
    var s := ss[k];
    RunComplete(ss, evs, k);
    PutBackNotBefore(s);
    NotBeforeUntil(ss, i, SlotTime(s.w, s.items[i].expire), k + 1, m);
    assert ItemOk(s, i);
    ExpireKept(ss, i, k, m);
  }

  /** So a long timeout is put back only finitely often: the clock of the first time, and a turn
      less one for each further time, stay before the expiry. */
  lemma {:induction false} PutBackCount(ss: seq<Sched>, evs: seq<Event>, i: ItemId, ks: seq<nat>)
    requires IsRun(ss, evs) && ks != [] && (forall a, b :: 0 <= a < b < |ks| ==> ks[a] < ks[b])
    requires forall k :: k in ks ==> PutsBack(ss, evs, i, k)
    ensures PutsBack(ss, evs, i, ks[0])
    ensures var s := ss[ks[0]];
            && s.loopNow + (|ks| - 1) * (|s.w.slots| - 1) < s.items[i].expire
            && (1 < |s.w.slots| ==> |ks| <= s.items[i].expire - s.loopNow)
    decreases |ks|
  {
    var k := ks[0];
    assert k in ks && PutsBack(ss, evs, i, k);
    if |ks| > 1 {
      var rest := ks[1..];
      var m := ks[1];
      assert m in ks && PutsBack(ss, evs, i, m) && forall x :: x in rest ==> x in ks;
      PutBackSpacing(ss, evs, i, k, m);
      PutBackCount(ss, evs, i, rest);
      Times(|ss[k].w.slots| - 1, |rest| - 1);
    }
    if 1 < |ss[k].w.slots| {
      AtLeast(|ks| - 1, |ss[k].w.slots| - 1);
    }
  }

  lemma Times(turn: int, n: nat)
    ensures turn + n * turn == (n + 1) * turn
  {
  }

  lemma AtLeast(n: nat, turn: nat)
    requires 1 <= turn
    ensures n <= n * turn
  {
  }

  lemma RunChains(ss: seq<Sched>, evs: seq<Event>)
    requires IsRun(ss, evs)
    ensures Chain(ss)
  {
    forall n | 0 <= n < |ss| ensures FollowsAt(ss, n) {
      if n + 1 < |ss| {
        RunFollows(ss, evs, n);
      }
    }
  }

  /** A wait whose expiry lies within the turn of the wheel that has begun. */
  predicate Fits(s: Sched, ev: Event)
    requires ev.AWait?
  {
    ev.ms <= 0 || ev.now + ev.ms < s.w.start + |s.w.slots|
  }

  /** A wait that has no timeout, or one that fits, is never taken early in any later state, so a
      signal always wakes it. */
  lemma FittingIsWokenBySignal(ss: seq<Sched>, evs: seq<Event>, k: nat, m: nat)
    requires IsRun(ss, evs) && k < m < |ss| && evs[k].AWait? && Fits(ss[k], evs[k])
    ensures ss[k].next in ss[m].items ==> !TakenEarly(ss[m], ss[k].next)
  {
    RunChains(ss, evs);
    RunComplete(ss, evs, k);
    var i, ev := ss[k].next, evs[k];
    if i in ss[m].items {
      if ev.ms <= 0 {
        UntimedNotBefore(ss[k], ev, ss[m].loopNow + 1);
        NotBeforeUntil(ss, i, ss[m].loopNow + 1, k + 1, m);
      } else {
        FittingNotBefore(ss[k], ev);
        NotBeforeUntil(ss, i, ev.now + ev.ms, k + 1, m);
        ExpireKept(ss, i, k + 1, m);
      }
    }
  }

  lemma UntimedNotBefore(s: Sched, ev: Event, b: int)
    requires Inv(s) && ev.AWait? && ev.ms <= 0 && Enabled(s, ev)
    ensures Inv(Apply(s, ev)) && NotBefore(Apply(s, ev), s.next, b)
  {
    StepKeeps(s, ev);
    WaitIs(s, ev.cond, ev.ms, ev.now);
    BornKeeps(s, ev.ms, ev.now);
    assert forall t: nat :: s.next !in Queue(s.w, t);
  }

  /** The slot of a timer that fits is that of its expiry. */
  lemma FittingNotBefore(s: Sched, ev: Event)
    requires Inv(s) && ev.AWait? && 0 < ev.ms && Enabled(s, ev) && Fits(s, ev)
    ensures Inv(Apply(s, ev)) && NotBefore(Apply(s, ev), s.next, ev.now + ev.ms)
    ensures s.next in Apply(s, ev).items && Apply(s, ev).items[s.next].expire == ev.now + ev.ms
  {
    StepKeeps(s, ev);
    WaitIs(s, ev.cond, ev.ms, ev.now);
    BornKeeps(s, ev.ms, ev.now);
    var s0 := Born(s, ev.ms, ev.now);
    FiledQueue(s0, s.next, 0);
    FiledNotBefore(s0, s.next);
  }

  /** What stands in the wheel at a moment that has come is taken. */
  lemma TickTakesDue(s: Sched, now: nat, i: ItemId, t: nat)
    requires Inv(s) && ClockOk(s, now) && i in Queue(s.w, t) && t <= now
    ensures var r := Tick(s, now);
            && i in s.items && i in r.items && i in r.active
            && r.items[i] == s.items[i].(timedOut := true, link := OnActive)
  {
    TickIs(s, now);
    var d := t - s.w.start;
    var j := Ring(s.w.idx + d, |s.w.slots|);
    QueueLinked(s, t, i);
    OffsetUnique(s.w, j, d);
    GatheredHas(s.w, Cnt(s, now), j, i);
  }

  /** The last moment of the turn, or now if that is over. */
  function EndOfTurn(s: Sched, now: nat): (t: int) {
    Max(now, s.w.start + |s.w.slots| - 1)
  }

  /** The timer of a wait that does not fit stands at the last moment of the turn. */
  lemma LongWaitFiled(s: Sched, c: Option<CondId>, ms: int, now: nat)
    requires Inv(s) && s.clock <= now && (c.Some? ==> c.value in s.conds) && 0 < |s.w.slots|
    requires s.w.start + |s.w.slots| <= now + ms && 0 < ms
    ensures var r := Waiting(s, c, ms, now);
            && s.next in r.items && r.items[s.next].expire == now + ms && Ok(r.w)
            && r.w.start == s.w.start && |r.w.slots| == |s.w.slots| && r.clock == now
            && s.next in Queue(r.w, s.w.start + |s.w.slots| - 1)
  {
    FiledQueue(Born(s, ms, now), s.next, s.w.start + |s.w.slots| - 1);
  }

  ghost predicate Leads(s: Sched, ev: Event, r: Sched) {
    Inv(s) && Enabled(s, ev) && r == Apply(s, ev)
  }

  /** Where the timer of `i` stands in state `r`, and when it is due. */
  ghost predicate Stands(r: Sched, i: ItemId, t: nat, expire: nat) {
    Inv(r) && i in r.items && r.items[i].expire == expire && i in Queue(r.w, t)
  }

  lemma LongWaitStands(s: Sched, ev: Event, r: Sched)
    requires Leads(s, ev, r) && ev.AWait? && !Fits(s, ev) && 0 < |s.w.slots|
    ensures Stands(r, s.next, s.w.start + |s.w.slots| - 1, ev.now + ev.ms)
    ensures r.w.start == s.w.start && |r.w.slots| == |s.w.slots| && r.clock == ev.now
  {
    WaitIs(s, ev.cond, ev.ms, ev.now);
    WaitKeeps(s, ev.cond, ev.ms, ev.now);
    LongWaitFiled(s, ev.cond, ev.ms, ev.now);
  }

  lemma TickTakesEarly(r: Sched, i: ItemId, t: nat, expire: nat, now: nat)
    requires Stands(r, i, t, expire) && ClockOk(r, now) && t <= now < expire
    ensures var q := Tick(r, now);
            Leads(r, ATick(now), q) && i in q.items && TakenEarly(q, i) && i in q.active
  {
    TickTakesDue(r, now, i, t);
  }

  /** And a wait that does not fit is taken early if the clock is next read when the turn ends. */
  lemma LongWaitTakenEarly(s: Sched, ev: Event, r: Sched) returns (q: Sched)
    requires Leads(s, ev, r) && ev.AWait? && !Fits(s, ev) && 0 < |s.w.slots|
    requires Covers(EndOfTurn(s, ev.now) - s.w.start, |s.w.slots|)
    ensures Leads(r, ATick(EndOfTurn(s, ev.now)), q) && s.next in q.items && TakenEarly(q, s.next) && s.next in q.active
  {
    LongWaitStands(s, ev, r);
    var now := EndOfTurn(s, ev.now);
    TickTakesEarly(r, s.next, s.w.start + |s.w.slots| - 1, ev.now + ev.ms, now);
    q := Tick(r, now);
  }

  // ---------------------------------------------------------------- signals

  /** A signal wakes the waiter that has waited longest: it leaves the condition, stands last
      on the active list, and everyone still waiting began to wait after it. It will be
      resumed when its turn comes unless its timer had just been taken too early. */
  lemma SignalWakesOldest(s: Sched, c: CondId)
    requires Inv(s) && c in s.conds && s.conds[c] != []
    ensures var i, r := s.conds[c][0], Signal(s, c);
            && i in s.items && i in r.items && r.items[i].cond.None? && r.conds[c] == s.conds[c][1..]
            && r.active != [] && Last(r.active) == i
            && (forall x :: x in r.conds[c] ==> i < x)
            && (Woken(r, i) <==> !TakenEarly(s, i))
  {
    assert CondOk(s, c);
    DropWaiter(s, c);
    MoveKeeps(Dequeued(s, c), s.conds[c][0]);
    MoveActive(Dequeued(s, c), s.conds[c][0]);
    assert Last(Signal(s, c).active) in Signal(s, c).active;
  }

  /** `n` rounds of the loop of `co_cond_broadcast`. */
  function Signals(s: Sched, c: CondId, n: nat): (r: Sched)
    requires c in s.conds
    ensures c in r.conds
    decreases n
  {
    if n == 0 then s else Signals(Signal(s, c), c, n - 1)
  }

  /** `co_cond_broadcast`: signals until nobody waits. */
  function Broadcast(s: Sched, c: CondId): (r: Sched)
    requires c in s.conds
  {
    Signals(s, c, |s.conds[c]|)
  }

  /** The active list ends with `woken`. */
  ghost predicate EndsWith(q: seq<ItemId>, woken: seq<ItemId>) {
    |woken| <= |q| && q[|q| - |woken|..] == woken
  }

  lemma SignalActive(s: Sched, c: CondId)
    requires Inv(s) && c in s.conds && s.conds[c] != []
    ensures Signal(s, c).active == Without(s.active, s.conds[c][0]) + [s.conds[c][0]]
  {
    DropWaiter(s, c);
    MoveActive(Dequeued(s, c), s.conds[c][0]);
  }

  lemma SignalExtends(s: Sched, c: CondId, woken: seq<ItemId>)
    requires Inv(s) && c in s.conds && s.conds[c] != [] && EndsWith(s.active, woken) && s.conds[c][0] !in woken
    ensures EndsWith(Signal(s, c).active, woken + [s.conds[c][0]])
  {
    var i := s.conds[c][0];
    var front := s.active[..|s.active| - |woken|];
    SignalActive(s, c);
    assert s.active == front + woken;
    WithoutLeft(front, woken, i);
    assert Signal(s, c).active == Without(front, i) + (woken + [i]);
  }

  lemma BroadcastUnfolds(s: Sched, c: CondId)
    requires c in s.conds && s.conds[c] != [] && |Signal(s, c).conds[c]| == |s.conds[c]| - 1
    ensures Broadcast(s, c) == Broadcast(Signal(s, c), c)
  {
  }

  /** A broadcast wakes every waiter, in the order in which they began to wait. */
  lemma {:induction false} BroadcastWakesAll(s: Sched, c: CondId, woken: seq<ItemId>)
    requires Inv(s) && c in s.conds && EndsWith(s.active, woken) && forall i :: i in woken ==> i !in s.conds[c]
    ensures Inv(Broadcast(s, c)) && Broadcast(s, c).conds[c] == []
    ensures EndsWith(Broadcast(s, c).active, woken + s.conds[c])
    decreases |s.conds[c]|, 1
  {
    if s.conds[c] == [] {
      assert woken + s.conds[c] == woken;
    } else {
      SignalKeeps(s, c);
      SignalWakesOldest(s, c);
      SignalExtends(s, c, woken);
      BroadcastUnfolds(s, c);
      BroadcastRest(s, Signal(s, c), Broadcast(s, c), c, woken);
    }
  }

  lemma Shift(woken: seq<ItemId>, q: seq<ItemId>)
    requires q != [] && q[0] !in q[1..] && forall i :: i in woken ==> i !in q
    ensures woken + [q[0]] + q[1..] == woken + q
    ensures forall i :: i in woken + [q[0]] ==> i !in q[1..]
  {
  }

  lemma {:induction false} BroadcastRest(s: Sched, r: Sched, q: Sched, c: CondId, woken: seq<ItemId>)
    requires c in s.conds && s.conds[c] != [] && Inv(r) && c in r.conds && r.conds[c] == s.conds[c][1..]
    requires EndsWith(r.active, woken + [s.conds[c][0]]) && s.conds[c][0] !in r.conds[c]
    requires forall i :: i in woken ==> i !in s.conds[c]
    requires q == Broadcast(r, c)
    ensures Inv(q) && c in q.conds && q.conds[c] == [] && EndsWith(q.active, woken + s.conds[c])
    decreases |s.conds[c]|, 0
  {
    Shift(woken, s.conds[c]);
    BroadcastWakesAll(r, c, woken + [s.conds[c][0]]);
  }

  /** A new loop, a wait on a condition for longer than a turn of the wheel, and a signal in the
      pass that ends the turn. */
  function LostSignal(s: Sched, ms: int): (evs: seq<Event>)
    requires 0 < |s.w.slots|
  {
    [NewCond(0), AWait(Some(0), ms, s.clock), ATick(s.w.start + |s.w.slots| - 1), ASignal(0), APop]
  }

  /** The only waiter on the only condition. */
  ghost predicate Alone(s: Sched) {
    Inv(s) && s.conds == map[0 := [0]] && s.items.Keys == {0} && s.done == []
  }

  lemma FirstCond(s: Sched)
    requires Initial(s)
    ensures Leads(s, NewCond(0), s.(conds := map[0 := []])) && Inv(s.(conds := map[0 := []]))
  {
    InitialInv(s);
    NewCondKeeps(s, 0);
  }

  lemma FirstWait(s: Sched, ms: int) returns (r: Sched)
    requires Inv(s) && s.conds == map[0 := []] && s.items == map[] && s.next == 0 && s.done == [] && 0 < ms
    ensures Leads(s, AWait(Some(0), ms, s.clock), r) && Alone(r)
  {
    WaitIs(s, Some(0), ms, s.clock);
    WaitKeeps(s, Some(0), ms, s.clock);
    r := Waiting(s, Some(0), ms, s.clock);
    WaitingConds(s, ms, s.clock);
  }

  lemma WaitingConds(s: Sched, ms: int, now: nat)
    requires Ok(s.w) && s.w.start <= now && s.conds == map[0 := []] && s.next == 0
    ensures Waiting(s, Some(0), ms, now).conds == map[0 := [0]]
  {
    assert s.conds[0] + [0] == [0];
  }

  /** The clock is read when the only wait stands in the wheel but has not expired. */
  ghost predicate Ripe(s: Sched, ev: Event, expire: nat) {
    ev.ATick? && Stands(s, 0, ev.now, expire) && ClockOk(s, ev.now) && ev.now < expire
  }

  lemma FirstTick(s: Sched, ev: Event, expire: nat) returns (r: Sched)
    requires Ripe(s, ev, expire) && Alone(s)
    ensures Leads(s, ev, r) && Alone(r) && r.active == [0] && 0 in r.items && TakenEarly(r, 0)
  {
    var t := ev.now;
    TickTakesEarly(s, 0, t, expire, t);
    r := Tick(s, t);
    TickAlone(s, t, r);
    OnlyActive(r);
  }

  /** A loop with one condition and no waits so far. */
  ghost predicate NoWaits(s: Sched) {
    && Inv(s) && s.conds == map[0 := []] && s.items == map[] && s.next == 0 && s.done == []
    && s.clock == s.w.start && 0 < |s.w.slots|
  }

  lemma FirstStep(s: Sched, ev: Event) returns (r: Sched)
    requires Initial(s) && ev == NewCond(0)
    ensures Leads(s, ev, r) && NoWaits(r) && r.w == s.w && r.clock == s.clock
  {
    FirstCond(s);
    r := s.(conds := map[0 := []]);
  }

  lemma FirstLongWait(s: Sched, ms: int, ev: Event, tick: Event, expire: nat) returns (r: Sched)
    requires NoWaits(s) && |s.w.slots| <= ms && ev == AWait(Some(0), ms, s.clock)
    requires tick == ATick(s.w.start + |s.w.slots| - 1) && expire == s.clock + ms
    ensures Leads(s, ev, r) && Alone(r) && Ripe(r, tick, expire)
  {
    r := FirstWait(s, ms);
    LongWaitStands(s, ev, r);
  }

  lemma FirstTurn(s: Sched, ms: int) returns (s1: Sched, s2: Sched, s3: Sched)
    requires Initial(s) && |s.w.slots| <= ms
    ensures var evs := LostSignal(s, ms);
            Leads(s, evs[0], s1) && Leads(s1, evs[1], s2) && Leads(s2, evs[2], s3)
    ensures Alone(s3) && s3.active == [0] && 0 in s3.items && TakenEarly(s3, 0)
  {
    var evs := LostSignal(s, ms);
    s1 := FirstStep(s, evs[0]);
    s2 := FirstLongWait(s1, ms, evs[1], evs[2], s.clock + ms);
    s3 := FirstTick(s2, evs[2], s.clock + ms);
  }

  lemma TickAlone(s: Sched, now: nat, r: Sched)
    requires Alone(s) && Leads(s, ATick(now), r)
    ensures Alone(r)
  {
    TickKeeps(s, now);
  }

  lemma OnlyActive(s: Sched)
    requires Alone(s) && 0 in s.active
    ensures s.active == [0]
  {
    assert ActiveOk(s);
    var k :| 0 <= k < |s.active| && s.active[k] == 0;
    var first, last := s.active[0], s.active[|s.active| - 1];
    assert first in s.active && last in s.active;
    assert first == 0 && last == 0;
    assert k == 0 && |s.active| - 1 == 0;
  }

  lemma FirstSignal(s: Sched) returns (r: Sched, q: Sched)
    requires Inv(s) && s.conds == map[0 := [0]] && s.active == [0] && 0 in s.items && TakenEarly(s, 0)
    ensures Leads(s, ASignal(0), r) && Leads(r, APop, q)
    ensures q.active == [] && 0 in q.items && q.conds == map[0 := []] && q.done == s.done
  {
    r, q := SignalPutsBack(s, 0);
    assert s.conds[0 := []] == map[0 := []];
  }

  /** Five steps from an initial state are a run. */
  lemma FiveSteps(s0: Sched, s1: Sched, s2: Sched, s3: Sched, s4: Sched, s5: Sched, evs: seq<Event>)
    requires |evs| == 5 && Initial(s0) && Leads(s0, evs[0], s1) && Leads(s1, evs[1], s2)
    requires Leads(s2, evs[2], s3) && Leads(s3, evs[3], s4) && Leads(s4, evs[4], s5)
    ensures IsRun([s0, s1, s2, s3, s4, s5], evs)
  {
    var ss := [s0, s1, s2, s3, s4, s5];
    forall k | 0 <= k < |evs| ensures Leads(ss[k], evs[k], ss[k + 1]) {
      assert k == 0 || k == 1 || k == 2 || k == 3 || k == 4;
    }
  }

  /** A signal can be consumed without a wake-up: on a wheel of any size, and for every timeout
      longer than a turn, this run ends with nobody resumed and nobody on the condition. */
  lemma EarlySignalExample(s: Sched, ms: int) returns (ss: seq<Sched>)
    requires Initial(s) && |s.w.slots| <= ms
    ensures IsRun(ss, LostSignal(s, ms)) && ss[0] == s
    ensures var q := ss[5]; q.active == [] && 0 in q.items && q.conds == map[0 := []] && q.done == []
  {
    var evs := LostSignal(s, ms);
    var s1, s2, s3 := FirstTurn(s, ms);
    var s4, s5 := FirstSignal(s3);
    ss := [s, s1, s2, s3, s4, s5];
    FiveSteps(s, s1, s2, s3, s4, s5, evs);
  }

  /** More generally: a signal to the only waiter, taken too early, resumes nobody. */
  lemma SignalPutsBack(s: Sched, c: CondId) returns (r: Sched, q: Sched)
    requires Inv(s) && c in s.conds && |s.conds[c]| == 1 && s.active == s.conds[c]
    requires s.active[0] in s.items && TakenEarly(s, s.active[0])
    ensures Leads(s, ASignal(c), r) && Leads(r, APop, q)
    ensures q.active == [] && q.conds == s.conds[c := []] && s.active[0] in q.items && q.done == s.done
  {
    SignalKeeps(s, c);
    SignalActive(s, c);
    SignalWakesOldest(s, c);
    r := Signal(s, c);
    PopPutsBack(r, s.active[0]);
    q := Apply(r, APop);
  }

  lemma PopPutsBack(r: Sched, i: ItemId)
    requires Inv(r) && r.active == [i] && i in r.items && TakenEarly(r, i)
    ensures Apply(r, APop).active == [] && Apply(r, APop).conds == r.conds && Apply(r, APop).done == r.done
    ensures i in Apply(r, APop).items
  {
    PopReady(r);
    PopEarlyIs(r);
  }

  // ---------------------------------------------------------------- the library

  /** The thread's event loop as libco updates it in place. */
  class EventLoop {
    const timeout: Timeout
    var active: seq<ItemId>
    var conds: map<CondId, seq<ItemId>>
    var items: map<ItemId, Item>
    var loopNow: nat
    var next: ItemId
    ghost var clock: nat
    ghost var done: seq<ItemId>

    ghost function State(): (s: Sched)
      reads this, timeout
    {
      Sched(timeout.w, active, conds, items, clock, loopNow, next, done)
    }

    /** `AllocEpoll` at time `now`. */
    constructor (size: nat, now: nat)
      requires 0 < size < TWO_31 && 0 < now
      ensures Initial(State()) && |timeout.w.slots| == size && fresh(timeout)
    {
      timeout := new Timeout(size, now);
      active, conds, items := [], map[], map[];
      loopNow, next, clock, done := now, 0, now, [];
    }

    method AddTimeout(i: ItemId, now: nat) returns (ret: int)
      requires Ok(timeout.w) && i in items
      modifies this`items, timeout
      ensures (State(), ret) == AddTimer(old(State()), i, now)
    {
      var linked := items[i].link != Nowhere;
      ret := timeout.AddTimeout(i, items[i].expire, linked, now);
      if ret == 0 && !linked {
        var w := timeout.w;
        var j := Place(w.idx + (SlotTime(w, items[i].expire) - w.start), |w.slots|);
        items := items[i := items[i].(link := InSlot(j))];
      }
    }

    method RemoveFromLink(i: ItemId)
      requires i in items
      modifies this`items, this`active, timeout
      ensures State() == Unlink(old(State()), i)
    {
      match items[i].link
      case Nowhere =>
      case OnActive =>
        active := Without(active, i);
        items := items[i := items[i].(link := Nowhere)];
      case InSlot(j) =>
        if j < |timeout.w.slots| {
          timeout.w := timeout.w.(slots := timeout.w.slots[j := Without(timeout.w.slots[j], i)]);
          items := items[i := items[i].(link := Nowhere)];
        }
    }

    /** `co_cond_timedwait`, or `co_poll_inner` without a condition, up to the yield. */
    method TimedWait(c: Option<CondId>, ms: int, now: nat) returns (ret: int)
      requires Ok(timeout.w) && (c.Some? ==> c.value in conds)
      modifies this, timeout
      ensures (State(), ret) == Wait(old(State()), c, ms, now)
    {
      var i := next;
      next := next + 1;
      clock := now;
      items := items[i := Item(now + Max(ms, 0), false, false, Nowhere, None)];
      ret := 0;
      if ms > 0 {
        ret := AddTimeout(i, now);
        if ret != 0 {
          items := items - {i};
          return;
        }
      }
      if c.Some? {
        conds := conds[c.value := conds[c.value] + [i]];
        items := items[i := items[i].(cond := c)];
      }
    }

    method CondSignal(c: CondId)
      requires Inv(State()) && c in conds
      modifies this, timeout
      ensures Inv(State()) && State() == Signal(old(State()), c)
    {
      SignalKeeps(State(), c);
      if conds[c] == [] {
        return;
      }
      var i := conds[c][0];
      conds := conds[c := conds[c][1..]];
      items := items[i := items[i].(cond := None)];
      RemoveFromLink(i);
      if items[i].link == Nowhere {
        active := active + [i];
        items := items[i := items[i].(link := OnActive)];
      }
    }

    method CondBroadcast(c: CondId)
      requires Inv(State()) && c in conds
      modifies this, timeout
      ensures Inv(State()) && State() == Broadcast(old(State()), c)
    {
      while conds[c] != []
        invariant Inv(State()) && c in conds && Broadcast(State(), c) == Broadcast(old(State()), c)
        decreases |conds[c]|
      {
        SignalWakesOldest(State(), c);
        BroadcastUnfolds(State(), c);
        CondSignal(c);
      }
    }

    method OnPollPrepare(i: ItemId)
      requires i in items
      modifies this, timeout
      ensures State() == Ready(old(State()), i)
    {
      if !items[i].detached {
        items := items[i := items[i].(detached := true)];
        RemoveFromLink(i);
        if items[i].link == Nowhere {
          active := active + [i];
          items := items[i := items[i].(link := OnActive)];
        }
      }
    }

    /** Reads the clock, takes what is due, marks it and joins it to the active list. */
    method TakeTimeouts(now: nat)
      requires Ok(timeout.w)
      modifies this, timeout
      ensures State() == Tick(old(State()), now)
    {
      loopNow, clock := now, now;
      var due := timeout.TakeAllTimeout(now, []);
      assert due == Taken(old(timeout.w), now).1;
      MarkAll(due);
      active := active + due;
    }

    method MarkAll(due: seq<ItemId>)
      modifies this`items
      ensures items == MarkTimedOut(old(items), due)
    {
      ghost var was := items;
      for k := 0 to |due|
        invariant items.Keys == was.Keys
        invariant forall x :: x in was ==>
                    items[x] == if x in due[..k] then was[x].(timedOut := true, link := OnActive) else was[x]
      {
        if due[k] in items {
          items := items[due[k] := items[due[k]].(timedOut := true, link := OnActive)];
        }
      }
      assert due[..|due|] == due;
    }

    /** One turn of the processing loop. */
    method ProcessNext()
      requires Ok(timeout.w) && active != [] && active[0] in items
      requires items[active[0]].cond.Some? ==> items[active[0]].cond.value in conds
      modifies this, timeout
      ensures State() == Pop(old(State()))
    {
      var i := active[0];
      active := active[1..];
      items := items[i := items[i].(link := Nowhere)];
      if items[i].timedOut && loopNow < items[i].expire {
        items := items[i := items[i].(timedOut := false)];
        var ret := AddTimeout(i, loopNow);
        if ret == 0 {
          return;
        }
      }
      Resume(i);
    }

    /** The resumed coroutine's half of the wait: off the condition's list, and freed. */
    method Resume(i: ItemId)
      requires i in items && (items[i].cond.Some? ==> items[i].cond.value in conds)
      modifies this
      ensures State() == Resumed(old(State()), i)
    {
      if items[i].cond.Some? {
        var c := items[i].cond.value;
        conds := conds[c := Without(conds[c], i)];
      }
      items := items - {i};
      done := done + [i];
    }
  }
}
