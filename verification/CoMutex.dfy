/**
 The coroutine mutex (src/core/libco/co_comm.cpp). `CoLock` waits on a condition without a
 timeout and `CoUnLock` signals it; a signalled waiter runs only when the event loop gets
 to it, so between the two there is a moment when the lock is granted but not held.
 */
module CoMutex {
  import opened Common

  type CoId = nat

  /** `cnt` is `m_iWaitItemCnt`, `queue` the condition's waiters, `granted` the waiters that
      were signalled and have not run yet. `asked` and `got` list, in order, every call of
      `CoLock` and every call that returned. */
  datatype Mutex = Mutex(
    cnt: int, queue: seq<CoId>, granted: seq<CoId>, holder: Option<CoId>,
    asked: seq<CoId>, got: seq<CoId>)

  datatype Event = Lock(co: CoId) | Unlock | Run

  const Fresh := Mutex(0, [], [], None, [], [])

  /** A coroutine that waits cannot act; only the holder unlocks. */
  predicate Enabled(m: Mutex, ev: Event) {
    match ev
    case Lock(c) => c !in m.queue && c !in m.granted
    case Unlock => m.holder.Some? && m.holder.value !in m.queue
    case Run => m.granted != []
  }

  function AfterLock(m: Mutex, c: CoId): (r: Mutex) {
    if m.cnt > 0 then m.(cnt := m.cnt + 1, queue := m.queue + [c], asked := m.asked + [c])
    else m.(cnt := m.cnt + 1, holder := Some(c), asked := m.asked + [c], got := m.got + [c])
  }

  function AfterUnlock(m: Mutex): (r: Mutex) {
    var m1 := m.(cnt := m.cnt - 1, holder := None);
    if m.queue == [] then m1 else m1.(queue := m.queue[1..], granted := m.granted + [m.queue[0]])
  }

  /** The event loop resumes the first granted waiter, which returns from `CoLock`. */
  function AfterRun(m: Mutex): (r: Mutex)
    requires m.granted != []
  {
    m.(granted := m.granted[1..], holder := Some(m.granted[0]), got := m.got + [m.granted[0]])
  }

  function Apply(m: Mutex, ev: Event): (r: Mutex)
    requires Enabled(m, ev)
  {
    match ev
    case Lock(c) => AfterLock(m, c)
    case Unlock => AfterUnlock(m)
    case Run => AfterRun(m)
  }

  /** Coroutines that have the lock or have been handed it. */
  function Owners(m: Mutex): (n: nat) {
    |m.granted| + if m.holder.Some? then 1 else 0
  }

  ghost predicate Inv(m: Mutex) {
    && Owners(m) <= 1
    && m.cnt == Owners(m) + |m.queue|
    && (m.queue != [] ==> Owners(m) == 1)
    && m.asked == m.got + m.granted + m.queue
    && (m.holder.Some? ==> m.got != [] && Last(m.got) == m.holder.value)
  }

  lemma StepKeepsInv(m: Mutex, ev: Event)
    requires Inv(m) && Enabled(m, ev)
    ensures Inv(Apply(m, ev))
  {
    var r := Apply(m, ev);
    match ev
    case Lock(c) =>
      if m.cnt > 0 {
        assert m.got + m.granted + (m.queue + [c]) == (m.got + m.granted + m.queue) + [c];
      } else {
        assert m.granted == [] && m.queue == [];
        assert r.got + r.granted + r.queue == m.asked + [c];
      }
    case Unlock =>
      if m.queue != [] {
        assert m.granted == [];
        assert m.got + [m.queue[0]] + m.queue[1..] == m.asked;
      }
    case Run =>
      assert m.granted == [m.granted[0]];
      assert m.got + [m.granted[0]] + [] + m.queue == m.asked;
  }

  ghost predicate IsRun(ms: seq<Mutex>, evs: seq<Event>) {
    && |ms| == |evs| + 1 && ms[0] == Fresh
    && forall k :: 0 <= k < |evs| ==> Enabled(ms[k], evs[k]) && ms[k + 1] == Apply(ms[k], evs[k])
  }

  /** In every interleaving at most one coroutine holds the lock or has been granted it, the
      counter is that many plus the waiters, and the lock is never idle while someone waits. */
  lemma {:induction false} MutualExclusion(ms: seq<Mutex>, evs: seq<Event>, k: nat)
    requires IsRun(ms, evs) && k < |ms|
    ensures Inv(ms[k])
  {
    if k > 0 {
      MutualExclusion(ms, evs, k - 1);
      StepKeepsInv(ms[k - 1], evs[k - 1]);
    }
  }

  /** The lock is obtained in exactly the order in which it was asked for: no newcomer
      overtakes a waiter, granted or queued. */
  lemma FirstComeFirstServed(ms: seq<Mutex>, evs: seq<Event>, k: nat)
    requires IsRun(ms, evs) && k < |ms|
    ensures ms[k].got <= ms[k].asked
    ensures ms[k].got + ms[k].granted + ms[k].queue == ms[k].asked
  {
    MutualExclusion(ms, evs, k);
  }

  /** A coroutine that asks while the lock is granted but not yet held is queued behind. */
  lemma NewcomerWaits(ms: seq<Mutex>, evs: seq<Event>, k: nat, c: CoId)
    requires IsRun(ms, evs) && k < |ms| && ms[k].granted != [] && Enabled(ms[k], Lock(c))
    ensures var r := Apply(ms[k], Lock(c));
            r.holder == ms[k].holder == None && r.granted == ms[k].granted && r.queue == ms[k].queue + [c]
  {
    MutualExclusion(ms, evs, k);
  }

  class ClsCoMutex {
    var waitItemCnt: int
    var waiters: seq<CoId>
    ghost var granted: seq<CoId>
    ghost var holder: Option<CoId>
    ghost var asked: seq<CoId>
    ghost var got: seq<CoId>

    ghost function State(): (m: Mutex)
      reads this
    {
      Mutex(waitItemCnt, waiters, granted, holder, asked, got)
    }

    constructor ()
      ensures State() == Fresh && Inv(State())
    {
      waitItemCnt, waiters := 0, [];
      granted, holder, asked, got := [], None, [], [];
    }

    /** `CoLock` up to the point where it returns or yields; `blocked` says which. */
    method CoLock(self: CoId) returns (blocked: bool)
      requires Inv(State()) && Enabled(State(), Lock(self))
      modifies this
      ensures Inv(State()) && State() == Apply(old(State()), Lock(self))
      ensures blocked == (old(Owners(State())) == 1)
    {
      StepKeepsInv(State(), Lock(self));
      asked := asked + [self];
      if waitItemCnt > 0 {
        waitItemCnt := waitItemCnt + 1;
        waiters := waiters + [self];
        blocked := true;
      } else {
        waitItemCnt := waitItemCnt + 1;
        holder, got := Some(self), got + [self];
        blocked := false;
      }
    }

    method CoUnLock()
      requires Inv(State()) && Enabled(State(), Unlock)
      modifies this
      ensures Inv(State()) && State() == Apply(old(State()), Unlock)
    {
      StepKeepsInv(State(), Unlock);
      waitItemCnt := waitItemCnt - 1;
      holder := None;
      if waiters != [] {
        granted := granted + [waiters[0]];
        waiters := waiters[1..];
      }
    }
  }
}
