/**
 The timing wheel (src/core/libco/co_routine.cpp:319-394): a ring of lists, one per
 millisecond. Each list is the sequence that module Links proves it to stand for.

 The wheel is proved to be a calendar: seen by absolute time, `Queue(w, t)` is what is
 due at moment `t`, and neither the turning of the ring nor its wrap-around shows.
 */
module TimingWheel {
  import opened Common

  type ItemId = nat

  const TWO_31 := 0x8000_0000
  const TWO_32 := 0x1_0000_0000

  /** The line numbers that `AddTimeout` returns as its error codes. */
  const ERR_CLOCK := 350
  const ERR_EXPIRED := 356

  /** `stTimeout_t`: `start` is `ullStart`, `idx` is `llStartIdx`. */
  datatype Wheel = Wheel(start: nat, idx: int, slots: seq<seq<ItemId>>)

  // ------------------------------------------------------------ the ring

  /** Place of the `x`-th step on a ring of `n` slots. */
  ghost function Ring(x: nat, n: nat): (r: nat)
    requires 0 < n
    ensures r < n
  {
    if x < n then x else Ring(x - n, n)
  }

  lemma {:induction false} RingTurns(x: nat, n: nat) returns (q: nat)
    requires 0 < n
    ensures x == q * n + Ring(x, n)
  {
    if x < n {
      q := 0;
    } else {
      var p := RingTurns(x - n, n);
      q := p + 1;
      assert q * n == p * n + n;
    }
  }

  lemma AtLeastOnce(a: int, n: nat)
    requires 1 <= a
    ensures n <= a * n
  {
  }

  lemma ModUnique(x: int, n: nat, q: int, r: int)
    requires 0 < n && x == q * n + r && 0 <= r < n
    ensures x % n == r
  {
    var p := x / n;
    assert x == n * p + x % n;
    if p < q {
      AtLeastOnce(q - p, n);
    } else if q < p {
      AtLeastOnce(p - q, n);
    }
  }

  /** The code's `%` finds the place. */
  method Place(x: nat, n: nat) returns (r: nat)
    requires 0 < n
    ensures r == Ring(x, n)
  {
    ghost var q := RingTurns(x, n);
    ModUnique(x, n, q, Ring(x, n));
    r := x % n;
  }

  /** Within one turn no two steps share a place. */
  lemma {:induction false} RingInjective(a: nat, b: nat, n: nat)
    requires 0 < n && a <= b < a + n && Ring(a, n) == Ring(b, n)
    ensures a == b
  {
    if n <= a {
      RingInjective(a - n, b - n, n);
    }
  }

  // -------------------------------------------------------- the calendar

  ghost predicate Ok(w: Wheel) {
    && 0 < |w.slots| < TWO_31 && 0 <= w.idx
    && (w.start == 0 ==> Blank(w))
  }

  ghost predicate Blank(w: Wheel) {
    forall j :: 0 <= j < |w.slots| ==> w.slots[j] == []
  }

  /** The items due at moment `t`, first added first. */
  ghost function Queue(w: Wheel, t: nat): (q: seq<ItemId>)
    requires Ok(w)
  {
    if w.start <= t < w.start + |w.slots| then Slot(w, t - w.start) else []
  }

  /** The items due from moment `from` up to but not including `upto`, in order. */
  ghost function Agenda(w: Wheel, from: nat, upto: nat): (q: seq<ItemId>)
    requires Ok(w)
    decreases upto - from
  {
    if upto <= from then [] else Agenda(w, from, upto - 1) + Queue(w, upto - 1)
  }

  /** The list `d` places after the start. */
  ghost function Slot(w: Wheel, d: nat): (q: seq<ItemId>)
    requires 0 < |w.slots| && 0 <= w.idx
  {
    w.slots[Ring(w.idx + d, |w.slots|)]
  }

  ghost function SetSlot(w: Wheel, d: nat, q: seq<ItemId>): (r: Wheel)
    requires 0 < |w.slots| && 0 <= w.idx
  {
    w.(slots := w.slots[Ring(w.idx + d, |w.slots|) := q])
  }

  /** The wheel with its start set, as both operations set it first. */
  function Started(w: Wheel, now: nat): (r: Wheel) {
    if w.start == 0 then w.(start := now, idx := 0) else w
  }

  /** The slot that an item with this expiry goes to. */
  function SlotTime(w: Wheel, expire: nat): (t: int) {
    Min(expire, w.start + |w.slots| - 1)
  }

  /** Conversion of an unsigned 64-bit value to `int`. */
  function ToInt32(x: nat): (r: int)
    ensures -TWO_31 <= r < TWO_31 && (x < TWO_31 ==> r == x)
  {
    var m := x % TWO_32;
    if m < TWO_31 then m else m - TWO_32
  }

  /** Number of slots that `TakeAllTimeout` visits when the clock stands `gap` past the start. */
  function Visits(gap: nat, size: nat): (r: int) {
    Min(ToInt32(gap + 1), size)
  }

  /** The count computed as an `int` reaches every slot that is due. */
  predicate Covers(gap: nat, size: nat) {
    Min(gap + 1, size) <= ToInt32(gap + 1)
  }

  predicate Visited(d: nat, gap: nat, size: nat) {
    d < Visits(gap, size)
  }

  /** The slot `d` places after the start is due when the clock stands `gap` past the start. */
  predicate Due(d: nat, gap: nat) {
    d <= gap
  }

  /** The visited slots are exactly the due ones if and only if the `int` count covers the gap. */
  lemma VisitsExactlyDue(gap: nat, size: nat)
    requires 0 < size < TWO_31
    ensures (forall d: nat :: d < size ==> (Visited(d, gap, size) <==> Due(d, gap))) <==> Covers(gap, size)
  {
    if !Covers(gap, size) {
      var d := if ToInt32(gap + 1) < 0 then 0 else ToInt32(gap + 1);
      assert Due(d, gap) && !Visited(d, gap, size);
    }
  }

  /** Every gap below 2^31 - 1 ms is covered; that gap itself already is not. */
  lemma CoveredGaps(gap: nat)
    ensures gap + 1 < TWO_31 ==> Covers(gap, 60000)
    ensures !Covers(TWO_31 - 1, 60000) && Visits(TWO_31 - 1, 60000) < 0
  {
  }

  // ------------------------------------------------- what the code computes

  /** `AddTimeout`; `linked` says whether the item is on a list already, in which case
      `AddTail` does nothing. */
  ghost function Added(w: Wheel, item: ItemId, expire: nat, linked: bool, now: nat): (r: (Wheel, int))
    requires Ok(w)
  {
    var v := Started(w, now);
    if now < v.start then (v, ERR_CLOCK)
    else if expire < now then (v, ERR_EXPIRED)
    else if linked then (v, 0)
    else
      var d := Min(expire - v.start, |v.slots| - 1);
      (SetSlot(v, d, Slot(v, d) + [item]), 0)
  }

  /** The wheel with the first `k` slots from the start emptied. */
  ghost function Swept(w: Wheel, k: nat): (r: Wheel)
    requires 0 < |w.slots| && 0 <= w.idx
    ensures |r.slots| == |w.slots| && r.idx == w.idx && r.start == w.start
  {
    if k == 0 then w else SetSlot(Swept(w, k - 1), k - 1, [])
  }

  /** What those slots held. */
  ghost function Gathered(w: Wheel, k: nat): (q: seq<ItemId>)
    requires 0 < |w.slots| && 0 <= w.idx
  {
    if k == 0 then [] else Gathered(w, k - 1) + Slot(w, k - 1)
  }

  /** The wheel after the start has moved on to `now`. */
  function Turn(v: Wheel, now: nat, cnt: int): (r: Wheel) {
    v.(start := now, idx := v.idx + cnt - 1)
  }

  /** `TakeAllTimeout`: the wheel it leaves, and what it appends to the result. */
  ghost function Taken(w: Wheel, now: nat): (r: (Wheel, seq<ItemId>))
    requires Ok(w)
  {
    var v := Started(w, now);
    if now < v.start then (v, [])
    else
      var cnt := Visits(now - v.start, |v.slots|);
      if cnt < 0 then (v, []) else (Turn(Swept(v, cnt), now, cnt), Gathered(v, cnt))
  }

  // -------------------------------------------------- the calendar is exact

  /** Changing one slot changes the queue of one moment. */
  lemma QueueUpdate(w: Wheel, d: nat, q: seq<ItemId>, t: nat)
    requires Ok(w) && 0 < w.start && d < |w.slots|
    ensures Ok(SetSlot(w, d, q))
    ensures Queue(SetSlot(w, d, q), t) == if t == w.start + d then q else Queue(w, t)
  {
    if w.start <= t < w.start + |w.slots| {
      SlotUpdate(w, d, q, t - w.start);
    }
  }

  lemma SlotUpdate(w: Wheel, d: nat, q: seq<ItemId>, e: nat)
    requires 0 < |w.slots| && 0 <= w.idx && d < |w.slots| && e < |w.slots|
    ensures Slot(SetSlot(w, d, q), e) == if e == d then q else Slot(w, e)
  {
    if Ring(w.idx + e, |w.slots|) == Ring(w.idx + d, |w.slots|) {
      RingInjective(w.idx + Min(e, d), w.idx + Max(e, d), |w.slots|);
    }
  }

  /** `AddTimeout` puts the item at the end of the queue of its expiry, or of the last
      moment of the wheel if the expiry is further away, and touches no other moment. */
  lemma AddIsCalendar(w: Wheel, item: ItemId, expire: nat, linked: bool, now: nat, t: nat)
    requires Ok(w) && 0 < now
    ensures var (w1, ret) := Added(w, item, expire, linked, now);
            && Ok(w1) && |w1.slots| == |w.slots| && w1.start == Started(w, now).start
            && (ret == 0 <==> w1.start <= now <= expire) && (ret == ERR_CLOCK <==> now < w1.start)
            && Queue(w1, t) == if ret == 0 && !linked && t == SlotTime(w1, expire)
                               then Queue(w, t) + [item] else Queue(w, t)
  {
    var v := Started(w, now);
    assert Queue(v, t) == Queue(w, t);
    if v.start <= now <= expire && !linked {
      var d := Min(expire - v.start, |v.slots| - 1);
      QueueUpdate(v, d, Slot(v, d) + [item], t);
    }
  }

  lemma {:induction false} SweptSlots(w: Wheel, k: nat, d: nat)
    requires 0 < |w.slots| && 0 <= w.idx && k <= |w.slots| && d < |w.slots|
    ensures Slot(Swept(w, k), d) == if d < k then [] else Slot(w, d)
  {
    if k > 0 {
      SweptSlots(w, k - 1, d);
      SlotUpdate(Swept(w, k - 1), k - 1, [], d);
    }
  }

  lemma {:induction false} GatheredIsAgenda(w: Wheel, k: nat)
    requires Ok(w) && k <= |w.slots|
    ensures Gathered(w, k) == Agenda(w, w.start, w.start + k)
  {
    if k > 0 {
      GatheredIsAgenda(w, k - 1);
      assert Queue(w, w.start + (k - 1)) == Slot(w, k - 1);
    }
  }

  lemma {:induction false} AgendaBeyond(w: Wheel, from: nat, upto: nat)
    requires Ok(w) && w.start + |w.slots| <= from
    ensures Agenda(w, from, upto) == []
    decreases upto - from
  {
    if from < upto {
      AgendaBeyond(w, from, upto - 1);
    }
  }

  lemma {:induction false} AgendaSplit(w: Wheel, from: nat, mid: nat, upto: nat)
    requires Ok(w) && from <= mid <= upto
    ensures Agenda(w, from, upto) == Agenda(w, from, mid) + Agenda(w, mid, upto)
    decreases upto
  {
    if mid < upto {
      AgendaSplit(w, from, mid, upto - 1);
    }
  }

  ghost predicate QueuedFor(w: Wheel, from: nat, upto: nat, i: ItemId)
    requires Ok(w)
  {
    exists t: nat :: from <= t < upto && i in Queue(w, t)
  }

  /** An item is on the agenda exactly if it is queued for a moment of that span. */
  lemma {:induction false} AgendaMembers(w: Wheel, from: nat, upto: nat, i: ItemId)
    requires Ok(w)
    ensures i in Agenda(w, from, upto) <==> QueuedFor(w, from, upto, i)
    decreases upto - from
  {
    if from < upto {
      AgendaMembers(w, from, upto - 1, i);
    }
  }

  lemma {:induction false} RingAdd(x: nat, d: nat, n: nat)
    requires 0 < n && d < n
    ensures Ring(x + d, n) == if Ring(x, n) + d < n then Ring(x, n) + d else Ring(x, n) + d - n
  {
    if n <= x {
      RingAdd(x - n, d, n);
      assert Ring(x + d, n) == Ring(x + d - n, n);
    }
  }

  /** How far slot `j` is from the start. */
  ghost function Offset(w: Wheel, j: nat): (d: nat)
    requires 0 <= w.idx && j < |w.slots|
    ensures d < |w.slots| && Ring(w.idx + d, |w.slots|) == j && Slot(w, d) == w.slots[j]
  {
    var n := |w.slots|;
    var d := if Ring(w.idx, n) <= j then j - Ring(w.idx, n) else j + n - Ring(w.idx, n);
    RingAdd(w.idx, d, n);
    d
  }

  /** After a sweep a slot is empty if it was reached, and as it was otherwise. */
  lemma SweptSlot(w: Wheel, k: nat, j: nat)
    requires 0 <= w.idx && j < |w.slots| && k <= |w.slots|
    ensures Swept(w, k).slots[j] == if Offset(w, j) < k then [] else w.slots[j]
  {
    SweptSlots(w, k, Offset(w, j));
  }

  /** What a sweep gathers is what the slots it reaches hold. */
  lemma {:induction false} GatheredFrom(w: Wheel, k: nat, i: ItemId) returns (j: nat)
    requires 0 < |w.slots| && 0 <= w.idx && k <= |w.slots| && i in Gathered(w, k)
    ensures j < |w.slots| && Offset(w, j) < k && i in w.slots[j]
  {
    if i in Gathered(w, k - 1) {
      j := GatheredFrom(w, k - 1, i);
    } else {
      j := Ring(w.idx + (k - 1), |w.slots|);
      OffsetUnique(w, j, k - 1);
    }
  }

  lemma {:induction false} GatheredHas(w: Wheel, k: nat, j: nat, i: ItemId)
    requires 0 <= w.idx && k <= |w.slots| && j < |w.slots| && Offset(w, j) < k && i in w.slots[j]
    ensures i in Gathered(w, k)
  {
    if Offset(w, j) < k - 1 {
      GatheredHas(w, k - 1, j, i);
    }
  }

  lemma OffsetUnique(w: Wheel, j: nat, d: nat)
    requires 0 <= w.idx && j < |w.slots| && d < |w.slots| && Ring(w.idx + d, |w.slots|) == j
    ensures Offset(w, j) == d
  {
    var e := Offset(w, j);
    RingInjective(w.idx + Min(d, e), w.idx + Max(d, e), |w.slots|);
  }

  /** A full sweep empties every slot. */
  lemma SweptAll(w: Wheel)
    requires 0 < |w.slots| && 0 <= w.idx
    ensures Blank(Swept(w, |w.slots|))
  {
    forall j | 0 <= j < |w.slots| ensures Swept(w, |w.slots|).slots[j] == [] {
      SweptSlot(w, |w.slots|, j);
    }
  }

  /** Moving the start over the swept slots leaves the rest of the calendar as it is. */
  lemma Turned(w: Wheel, now: nat, cnt: nat, t: nat)
    requires Ok(w) && 0 < w.start <= now && cnt == Min(now - w.start + 1, |w.slots|)
    ensures Ok(Turn(Swept(w, cnt), now, cnt))
    ensures Queue(Turn(Swept(w, cnt), now, cnt), t) == if t <= now then [] else Queue(w, t)
  {
    var n, v := |w.slots|, Swept(w, cnt);
    var r := Turn(v, now, cnt);
    if cnt == n {
      SweptAll(w);
    } else if now <= t < now + n {
      var e := t - w.start;
      assert Queue(r, t) == v.slots[Ring(v.idx + e, n)];
      if e < n {
        SweptSlots(w, cnt, e);
      } else {
        assert Ring(v.idx + e, n) == Ring(v.idx + (e - n), n);
        SweptSlots(w, cnt, e - n);
      }
    }
  }

  /** `TakeAllTimeout` takes exactly what is due by `now`, in the order in which it falls
      due, whenever the `int` count covers the time that has passed: an item is taken if and
      only if it is queued for a moment from the start to `now`. */
  lemma TakeIsCalendar(w: Wheel, now: nat, t: nat)
    requires Ok(w) && 0 < now
    requires var v := Started(w, now); v.start <= now && Covers(now - v.start, |v.slots|)
    ensures var (w1, q) := Taken(w, now);
            && Ok(w1) && |w1.slots| == |w.slots| && w1.start == now
            && q == Agenda(w, Started(w, now).start, now + 1)
            && Queue(w1, t) == if t <= now then [] else Queue(w, t)
    ensures forall i :: i in Taken(w, now).1 <==> QueuedFor(w, Started(w, now).start, now + 1, i)
  {
    var v := Started(w, now);
    var cnt := Min(now - v.start + 1, |v.slots|);
    TakenIs(v, now);
    assert Taken(w, now) == Taken(v, now);
    GatheredDue(w, now, cnt);
    Turned(v, now, cnt, t);
    assert Queue(v, t) == Queue(w, t);
    forall i ensures i in Taken(w, now).1 <==> QueuedFor(w, v.start, now + 1, i) {
      AgendaMembers(w, v.start, now + 1, i);
    }
  }

  lemma TakenIs(w: Wheel, now: nat)
    requires Ok(w) && 0 < w.start <= now && Covers(now - w.start, |w.slots|)
    ensures var k := Min(now - w.start + 1, |w.slots|);
            Taken(w, now) == (Turn(Swept(w, k), now, k), Gathered(w, k))
  {
    CoveredVisits(now - w.start, |w.slots|);
  }

  lemma GatheredUpTo(v: Wheel, now: nat, cnt: nat)
    requires Ok(v) && v.start <= now && cnt == Min(now - v.start + 1, |v.slots|)
    ensures Gathered(v, cnt) == Agenda(v, v.start, now + 1)
  {
    GatheredIsAgenda(v, cnt);
    if cnt < now - v.start + 1 {
      var end := v.start + cnt;
      AgendaSplit(v, v.start, end, now + 1);
      AgendaBeyond(v, end, now + 1);
      assert Agenda(v, v.start, end) + [] == Agenda(v, v.start, end);
    }
  }

  lemma GatheredDue(w: Wheel, now: nat, cnt: nat)
    requires Ok(w) && 0 < now && Started(w, now).start <= now
    requires cnt == Min(now - Started(w, now).start + 1, |w.slots|)
    ensures Gathered(Started(w, now), cnt) == Agenda(w, Started(w, now).start, now + 1)
  {
    var v := Started(w, now);
    GatheredUpTo(v, now, cnt);
    AgendaSame(w, v, v.start, now + 1);
  }

  lemma {:induction false} AgendaSame(w: Wheel, w1: Wheel, from: nat, upto: nat)
    requires Ok(w) && Ok(w1) && forall t: nat :: Queue(w1, t) == Queue(w, t)
    ensures Agenda(w1, from, upto) == Agenda(w, from, upto)
    decreases upto - from
  {
    if from < upto {
      AgendaSame(w, w1, from, upto - 1);
    }
  }

  lemma CoveredVisits(gap: nat, size: nat)
    requires Covers(gap, size)
    ensures Visits(gap, size) == Min(gap + 1, size)
  {
  }

  // ---------------------------------------------------------- the library

  class Timeout {
    var w: Wheel

    /** `AllocTimeout`. */
    constructor (size: nat, now: nat)
      requires 0 < size < TWO_31
      ensures Ok(w) && Blank(w) && |w.slots| == size && w.start == now
      ensures forall t: nat :: Queue(w, t) == []
    {
      w := Wheel(now, 0, seq(size, _ => []));
    }

    method AddTimeout(item: ItemId, expire: nat, linked: bool, now: nat) returns (ret: int)
      requires Ok(w)
      modifies this
      ensures (w, ret) == Added(old(w), item, expire, linked, now)
    {
      if w.start == 0 {
        w := w.(start := now, idx := 0);
      }
      if now < w.start {
        return ERR_CLOCK;
      }
      if expire < now {
        return ERR_EXPIRED;
      }
      var diff := expire - w.start;
      if diff >= |w.slots| {
        diff := |w.slots| - 1;
      }
      var j := Place(w.idx + diff, |w.slots|);
      if !linked {
        w := w.(slots := w.slots[j := w.slots[j] + [item]]);
      }
      ret := 0;
    }

    method TakeAllTimeout(now: nat, result: seq<ItemId>) returns (taken: seq<ItemId>)
      requires Ok(w)
      modifies this
      ensures w == Taken(old(w), now).0 && taken == result + Taken(old(w), now).1
    {
      taken := result;
      if w.start == 0 {
        w := w.(start := now, idx := 0);
      }
      if now < w.start {
        return;
      }
      var cnt := ToInt32(now - w.start + 1);
      if cnt > |w.slots| {
        cnt := |w.slots|;
      }
      if cnt < 0 {
        return;
      }
      taken := Sweep(cnt, result);
      w := w.(start := now, idx := w.idx + cnt - 1);
    }

    /** The loop of `TakeAllTimeout`: joins the lists of the next `cnt` slots to `result`. */
    method Sweep(cnt: nat, result: seq<ItemId>) returns (taken: seq<ItemId>)
      requires Ok(w) && cnt <= |w.slots|
      modifies this
      ensures w == Swept(old(w), cnt) && taken == result + Gathered(old(w), cnt)
    {
      taken := result;
      ghost var v := w;
      for k := 0 to cnt
        invariant w == Swept(v, k) && taken == result + Gathered(v, k)
      {
        var j := Place(w.idx + k, |w.slots|);
        SweepStep(v, k, result);
        taken := taken + w.slots[j];
        w := w.(slots := w.slots[j := []]);
      }
    }
  }

  /** One round of that loop. */
  lemma SweepStep(v: Wheel, k: nat, result: seq<ItemId>)
    requires 0 <= v.idx && k < |v.slots|
    ensures var j, s := Ring(v.idx + k, |v.slots|), Swept(v, k);
            && Swept(v, k + 1) == s.(slots := s.slots[j := []])
            && result + Gathered(v, k) + s.slots[j] == result + Gathered(v, k + 1)
  {
    SweptSlots(v, k, k);
    var slot := Slot(v, k);
    assert result + (Gathered(v, k) + slot) == result + Gathered(v, k) + slot;
  }
}
