/**
 Copy-on-switch shared stacks of libco (src/core/libco/co_routine.cpp).

 Many coroutines run on the same stack buffer. When a coroutine is switched in,
 the bytes of the coroutine that last used that buffer are copied out, and the
 bytes of the coroutine being switched in are copied back. The module models one
 thread's environment and proves that the copying is invisible: between two of
 its turns a coroutine's stack bytes do not change, whatever the others do.
 */
module SharedStack {
  import opened Common

  type CoId = nat

  /** A stack buffer: one `co_alloc_stackmem` made for a single coroutine, or an
      entry of a `stShareStack_t`. */
  datatype StackId = Own(co: CoId) | Pool(n: nat)

  /** `stStackMem_t`: `base` is the buffer's address, which decides alignment. */
  datatype StackMem = StackMem(base: nat, buffer: seq<Byte>, occupant: Option<CoId>)

  /** `stCoRoutine_t`: `saved` is `save_buffer`, with `save_size` as its length;
      `sp` is `stack_sp` as an offset into the stack buffer. */
  datatype Routine = Routine(
    stack: StackId, shared: bool, isMain: bool,
    started: bool, ended: bool, sp: nat, saved: Option<seq<Byte>>)

  /** `stCoRoutineEnv_t` together with the routines and stacks it reaches. */
  datatype Env = Env(
    cos: map<CoId, Routine>, stacks: map<StackId, StackMem>, calls: seq<CoId>,
    pending: Option<CoId>, occupy: Option<CoId>)

  /** What the running coroutine may do next. `sp` is where its stack pointer
      stands when it gives up control. */
  datatype Event =
    | Compute(bytes: seq<Byte>)
    | AllocShared(n: nat, mem: StackMem)
    | CreateShared(co: CoId, n: nat)
    | CreatePrivate(co: CoId, mem: StackMem)
    | Resume(co: CoId, sp: nat)
    | Yield(sp: nat)
    | End
    | Reset(co: CoId)
    | Free(co: CoId)

  const MAX_CALLS := 128
  const WORD := 8

  // ---------------------------------------------------------------- layout

  /** Smallest stack on which the bootstrap word lies inside the buffer. */
  predicate Roomy(m: StackMem) {
    24 <= |m.buffer|
  }

  /** Offset of the word that `coctx_make` writes: the last word, aligned down to 16. */
  function BootAt(m: StackMem): (at: nat)
    requires Roomy(m)
    ensures at + WORD <= |m.buffer|
  {
    (m.base + |m.buffer| - WORD) / 16 * 16 - m.base
  }

  function Overwrite(buffer: seq<Byte>, at: nat, data: seq<Byte>): (r: seq<Byte>)
    requires at + |data| <= |buffer|
    ensures |r| == |buffer|
  {
    buffer[..at] + data + buffer[at + |data|..]
  }

  /** Two copies of the bytes from `sp` to the stack's base agree, apart from the
      bootstrap word, which no coroutine reads again once it has started. */
  ghost predicate SameLive(m: StackMem, sp: nat, a: seq<Byte>, b: seq<Byte>)
    requires Roomy(m)
  {
    && |a| == |b|
    && forall i :: 0 <= i < |a| && !(BootAt(m) <= sp + i < BootAt(m) + WORD) ==> a[i] == b[i]
  }

  // ------------------------------------------------------- the code's steps

  function Running(e: Env): (c: CoId)
    requires e.calls != []
  {
    Last(e.calls)
  }

  predicate Live(r: Routine) {
    r.started || r.isMain
  }

  function SetBuffer(e: Env, s: StackId, buffer: seq<Byte>): (r: Env)
    requires s in e.stacks
  {
    e.(stacks := e.stacks[s := e.stacks[s].(buffer := buffer)])
  }

  /** `coctx_make`: the entry address is stored at the top of the stack buffer. */
  function Boot(e: Env, co: CoId, word: seq<Byte>): (r: Env)
    requires co in e.cos && e.cos[co].stack in e.stacks
    requires Roomy(e.stacks[e.cos[co].stack]) && |word| == WORD
  {
    if e.cos[co].started then e
    else
      var s := e.cos[co].stack;
      var e1 := SetBuffer(e, s, Overwrite(e.stacks[s].buffer, BootAt(e.stacks[s]), word));
      e1.(cos := e1.cos[co := e1.cos[co].(started := true)])
  }

  function MarkSp(e: Env, co: CoId, sp: nat): (r: Env)
    requires co in e.cos
  {
    e.(cos := e.cos[co := e.cos[co].(sp := sp)])
  }

  /** `save_stack_buffer`: copies [stack_sp, stack_bp) into a fresh save buffer. */
  function Save(e: Env, co: CoId): (r: Env)
    requires co in e.cos && e.cos[co].stack in e.stacks
    requires e.cos[co].sp <= |e.stacks[e.cos[co].stack].buffer|
  {
    var bytes := e.stacks[e.cos[co].stack].buffer[e.cos[co].sp..];
    e.(cos := e.cos[co := e.cos[co].(saved := Some(bytes))])
  }

  ghost predicate CanDisplace(e: Env, next: CoId) {
    && next in e.cos
    && e.cos[next].stack in e.stacks
    && (e.cos[next].shared ==>
          var occ := e.stacks[e.cos[next].stack].occupant;
          occ.Some? && occ.value != next ==>
            && occ.value in e.cos && e.cos[occ.value].stack == e.cos[next].stack
            && e.cos[occ.value].sp <= |e.stacks[e.cos[next].stack].buffer|)
  }

  /** The half of `co_swap` that runs before the register switch. */
  function Displace(e: Env, next: CoId): (r: Env)
    requires CanDisplace(e, next)
  {
    if !e.cos[next].shared then e.(pending := None, occupy := None)
    else
      var s := e.cos[next].stack;
      var occ := e.stacks[s].occupant;
      var e1 := e.(pending := Some(next), occupy := occ,
                   stacks := e.stacks[s := e.stacks[s].(occupant := Some(next))]);
      if occ.Some? && occ.value != next then Save(e1, occ.value) else e1
  }

  ghost predicate CanRestore(e: Env) {
    e.pending.Some? && e.occupy != e.pending ==>
      && e.pending.value in e.cos
      && var r := e.cos[e.pending.value];
         r.stack in e.stacks
         && (r.saved.Some? ==> r.sp + |r.saved.value| <= |e.stacks[r.stack].buffer|)
  }

  /** The half of `co_swap` that the resumed coroutine runs on its own stack. */
  function Restore(e: Env): (r: Env)
    requires CanRestore(e)
  {
    if e.pending.Some? && e.occupy != e.pending then
      var co := e.cos[e.pending.value];
      if co.saved.Some? && |co.saved.value| > 0 then
        SetBuffer(e, co.stack, Overwrite(e.stacks[co.stack].buffer, co.sp, co.saved.value))
      else e
    else e
  }

  // ------------------------------------------------------------- invariant

  ghost predicate HasStack(e: Env, c: CoId)
    requires c in e.cos
  {
    var r := e.cos[c];
    r.stack in e.stacks && (if r.shared then r.stack.Pool? && !r.isMain else r.stack == Own(c))
  }

  ghost predicate OccupantOk(e: Env, s: StackId)
    requires s in e.stacks
  {
    var o := e.stacks[s].occupant;
    o.Some? ==>
      o.value in e.cos && e.cos[o.value].shared && e.cos[o.value].started && e.cos[o.value].stack == s
  }

  ghost predicate Core(e: Env) {
    && (forall c :: c in e.cos ==> HasStack(e, c))
    && (forall s :: s in e.stacks ==> Roomy(e.stacks[s]))
    && (forall s {:trigger OccupantOk(e, s)} :: s in e.stacks ==> OccupantOk(e, s))
  }

  predicate Holds(e: Env, c: CoId)
    requires c in e.cos && e.cos[c].stack in e.stacks
  {
    e.cos[c].shared ==> e.stacks[e.cos[c].stack].occupant == Some(c)
  }

  /** A suspended coroutine's bytes are in the stack buffer if it still occupies
      it, and in its save buffer otherwise. */
  ghost predicate Parked(e: Env, c: CoId)
    requires c in e.cos && e.cos[c].stack in e.stacks
  {
    var r, m := e.cos[c], e.stacks[e.cos[c].stack];
    && r.sp <= |m.buffer|
    && (Holds(e, c) || (r.saved.Some? && |r.saved.value| == |m.buffer| - r.sp))
  }

  ghost predicate AllParkedBut(e: Env, x: CoId)
    requires Core(e)
  {
    forall c :: c in e.cos && c != x && Live(e.cos[c]) ==> Parked(e, c)
  }

  ghost predicate CallsOk(e: Env) {
    && e.calls != [] && Distinct(e.calls)
    && (forall c :: c in e.calls ==> c in e.cos && Live(e.cos[c]))
    && forall c :: c in e.calls && c != e.calls[0] ==> !e.cos[c].isMain
  }

  ghost predicate Inv(e: Env) {
    && Core(e) && CallsOk(e)
    && Holds(e, Running(e))
    && AllParkedBut(e, Running(e))
  }

  /** The bytes a suspended coroutine will find on its stack. */
  ghost function Frame(e: Env, c: CoId): (f: seq<Byte>)
    requires Core(e) && c in e.cos && Parked(e, c)
  {
    if Holds(e, c) then e.stacks[e.cos[c].stack].buffer[e.cos[c].sp..] else e.cos[c].saved.value
  }

  /** The bytes from `sp` up that coroutine `c` finds in memory. */
  ghost function Tail(e: Env, c: CoId, sp: nat): (f: seq<Byte>)
    requires c in e.cos && e.cos[c].stack in e.stacks && sp <= |e.stacks[e.cos[c].stack].buffer|
  {
    e.stacks[e.cos[c].stack].buffer[sp..]
  }

  // ----------------------------------------------------------- transitions

  /** What the library's callers must respect. */
  ghost predicate Enabled(e: Env, ev: Event)
    requires Inv(e)
  {
    var run := Running(e);
    var top := |e.stacks[e.cos[run].stack].buffer|;
    match ev
    case Compute(bytes) => |bytes| == top
    case AllocShared(n, m) => Pool(n) !in e.stacks && Roomy(m) && m.occupant.None?
    case CreateShared(c, n) => c !in e.cos && Pool(n) in e.stacks
    case CreatePrivate(c, m) => c !in e.cos && Roomy(m) && m.occupant.None?
    case Resume(c, sp) =>
      c in e.cos && c !in e.calls && !e.cos[c].ended && !e.cos[c].isMain && sp <= top && |e.calls| < MAX_CALLS
    case Yield(sp) => 2 <= |e.calls| && sp <= top
    case End => !e.cos[run].isMain
    case Reset(c) => c in e.cos && c !in e.calls
    case Free(c) => c in e.cos && c !in e.calls
  }

  /** `co_create_env`. */
  function NewRoutine(s: StackId, shared: bool): (r: Routine) {
    Routine(s, shared, false, false, false, 0, None)
  }

  /** `co_resume`. */
  ghost function AfterResume(e: Env, c: CoId, sp: nat, word: seq<Byte>): (r: Env)
    requires Inv(e) && Enabled(e, Resume(c, sp)) && |word| == WORD
  {
    var e0 := BeforeSwap(e, c, sp, word);
    ResumeCanSwap(e, c, sp, word);
    var e1 := Displace(e0, c);
    if e.cos[c].started then Restore(e1) else e1
  }

  function BeforeSwap(e: Env, c: CoId, sp: nat, word: seq<Byte>): (r: Env)
    requires e.calls != [] && Running(e) in e.cos
    requires c in e.cos && e.cos[c].stack in e.stacks
    requires Roomy(e.stacks[e.cos[c].stack]) && |word| == WORD
  {
    var e1 := Boot(e, c, word);
    MarkSp(e1.(calls := e.calls + [c]), Running(e), sp)
  }

  /** `co_yield_env`. */
  ghost function AfterYield(e: Env, sp: nat): (r: Env)
    requires Inv(e) && Enabled(e, Yield(sp))
  {
    var e0 := BeforeYield(e, sp);
    YieldCanSwap(e, sp);
    Restore(Displace(e0, Running(e0)))
  }

  /** `co_reset`. */
  function AfterReset(e: Env, c: CoId): (r: Env)
    requires c in e.cos && e.cos[c].stack in e.stacks
  {
    if !e.cos[c].started || e.cos[c].isMain then e
    else
      var e1 := e.(cos := e.cos[c := e.cos[c].(started := false, ended := false, saved := None)]);
      Vacate(e1, c)
  }

  /** Clears every occupancy mark that names `c`. */
  function Vacate(e: Env, c: CoId): (r: Env)
    requires c in e.cos && e.cos[c].stack in e.stacks
  {
    var e1 := if e.occupy == Some(c) then e.(occupy := None) else e;
    var s := e.cos[c].stack;
    if e1.stacks[s].occupant == Some(c) then
      e1.(stacks := e1.stacks[s := e1.stacks[s].(occupant := None)])
    else e1
  }

  /** `co_free`. */
  function AfterFree(e: Env, c: CoId): (r: Env)
    requires c in e.cos && e.cos[c].stack in e.stacks
  {
    if e.cos[c].shared then
      var e1 := Vacate(e, c);
      e1.(cos := e1.cos - {c})
    else e.(cos := e.cos - {c}, stacks := e.stacks - {e.cos[c].stack})
  }

  /** One step of the environment; `word` is the entry address of `CoRoutineFunc`. */
  ghost function Apply(e: Env, ev: Event, word: seq<Byte>): (r: Env)
    requires Inv(e) && Enabled(e, ev) && |word| == WORD
  {
    match ev
    case Compute(bytes) => SetBuffer(e, e.cos[Running(e)].stack, bytes)
    case AllocShared(n, m) => e.(stacks := e.stacks[Pool(n) := m])
    case CreateShared(c, n) => e.(cos := e.cos[c := NewRoutine(Pool(n), true)])
    case CreatePrivate(c, m) =>
      e.(cos := e.cos[c := NewRoutine(Own(c), false)], stacks := e.stacks[Own(c) := m])
    case Resume(c, sp) => AfterResume(e, c, sp, word)
    case Yield(sp) => AfterYield(e, sp)
    case End => e.(cos := e.cos[Running(e) := e.cos[Running(e)].(ended := true)])
    case Reset(c) => AfterReset(e, c)
    case Free(c) => AfterFree(e, c)
  }

  // ------------------------------------------------------- pieces of a switch

  ghost predicate SameShape(e: Env, e1: Env) {
    && e1.cos.Keys == e.cos.Keys && e1.stacks.Keys == e.stacks.Keys
    && (forall s :: s in e.stacks ==> SameSize(e.stacks[s], e1.stacks[s]))
    && (forall c :: c in e.cos ==> SameKind(e.cos[c], e1.cos[c]))
  }

  predicate SameSize(m: StackMem, m1: StackMem) {
    |m1.buffer| == |m.buffer| && m1.base == m.base
  }

  predicate SameKind(r: Routine, r1: Routine) {
    r1.stack == r.stack && r1.shared == r.shared && r1.isMain == r.isMain && (r.started ==> r1.started)
  }

  lemma CoreKept(e: Env, e1: Env)
    requires Core(e) && SameShape(e, e1)
    requires forall s :: s in e.stacks ==> e1.stacks[s].occupant == e.stacks[s].occupant || OccupantOk(e1, s)
    ensures Core(e1)
  {
    forall c | c in e1.cos ensures HasStack(e1, c) {
      assert HasStack(e, c) && SameKind(e.cos[c], e1.cos[c]);
    }
    forall s | s in e1.stacks ensures OccupantOk(e1, s) && Roomy(e1.stacks[s]) {
      assert OccupantOk(e, s) && Roomy(e.stacks[s]) && SameSize(e.stacks[s], e1.stacks[s]);
      if e1.stacks[s].occupant == e.stacks[s].occupant && e.stacks[s].occupant.Some? {
        var o := e.stacks[s].occupant.value;
        assert SameKind(e.cos[o], e1.cos[o]);
      }
    }
  }

  /** Once the running coroutine's stack pointer is recorded, its frame is what
      memory holds from there up. */
  lemma MarkSpParks(e: Env, sp: nat, calls: seq<CoId>)
    requires Core(e) && e.calls != [] && Running(e) in e.cos && Holds(e, Running(e))
    requires AllParkedBut(e, Running(e))
    requires sp <= |e.stacks[e.cos[Running(e)].stack].buffer|
    ensures var e1 := MarkSp(e.(calls := calls), Running(e), sp);
            && Core(e1)
            && Parked(e1, Running(e)) && Frame(e1, Running(e)) == Tail(e, Running(e), sp)
            && (forall c :: c in e.cos && Live(e.cos[c]) ==> Parked(e1, c))
            && (forall c :: c in e.cos && c != Running(e) && Live(e.cos[c]) ==> Frame(e1, c) == Frame(e, c))
  {
    var e1 := MarkSp(e.(calls := calls), Running(e), sp);
    assert forall c :: c in e.cos && c != Running(e) ==> e1.cos[c] == e.cos[c];
    CoreKept(e, e1);
    forall c | c in e.cos && c != Running(e) && Live(e.cos[c])
      ensures Parked(e1, c) && Frame(e1, c) == Frame(e, c)
    {
      assert Parked(e, c);
    }
  }

  lemma BootFrame(e: Env, co: CoId, word: seq<Byte>, c: CoId)
    requires Core(e) && co in e.cos && |word| == WORD && Core(Boot(e, co, word))
    requires c in e.cos && c != co && Parked(e, c)
    ensures c in Boot(e, co, word).cos && Parked(Boot(e, co, word), c)
    ensures SameLive(e.stacks[e.cos[c].stack], e.cos[c].sp, Frame(Boot(e, co, word), c), Frame(e, c))
  {
    if !e.cos[co].started && e.cos[c].stack == e.cos[co].stack {
      OverwriteSame(e.stacks[e.cos[c].stack], e.cos[c].sp, word);
    }
  }

  /** Starting a coroutine disturbs at most the dead word of the occupant's bytes. */
  lemma BootKeeps(e: Env, co: CoId, word: seq<Byte>)
    requires Core(e) && co in e.cos && |word| == WORD
    requires forall c :: c in e.cos && Live(e.cos[c]) ==> Parked(e, c)
    ensures var e1 := Boot(e, co, word);
            && Core(e1) && SameShape(e, e1) && AllParkedBut(e1, co)
            && (e.cos[co].started ==> e1 == e)
            && e1.cos == e.cos[co := e.cos[co].(started := true)]
            && (forall c :: c in e.cos && c != co && Live(e.cos[c])
                  ==> SameLive(e.stacks[e.cos[c].stack], e.cos[c].sp, Frame(e1, c), Frame(e, c)))
  {
    var e1 := Boot(e, co, word);
    CoreKept(e, e1);
    assert e1.cos == e.cos[co := e.cos[co].(started := true)];
    forall c | c in e.cos && c != co && Live(e.cos[c])
      ensures Parked(e1, c)
      ensures SameLive(e.stacks[e.cos[c].stack], e.cos[c].sp, Frame(e1, c), Frame(e, c))
    {
      BootFrame(e, co, word, c);
    }
  }

  lemma OverwriteSame(m: StackMem, sp: nat, word: seq<Byte>)
    requires Roomy(m) && |word| == WORD && sp <= |m.buffer|
    ensures SameLive(m, sp, Overwrite(m.buffer, BootAt(m), word)[sp..], m.buffer[sp..])
  {
    var b := Overwrite(m.buffer, BootAt(m), word);
    forall i | 0 <= i < |m.buffer| - sp && !(BootAt(m) <= sp + i < BootAt(m) + WORD)
      ensures b[sp..][i] == m.buffer[sp..][i]
    {
      assert b[sp..][i] == b[sp + i];
    }
  }

  lemma DisplaceCore(e: Env, next: CoId)
    requires Core(e) && next in e.cos && Live(e.cos[next]) && AllParkedBut(e, next)
    ensures CanDisplace(e, next)
    ensures Core(Displace(e, next)) && SameShape(e, Displace(e, next)) && Holds(Displace(e, next), next)
  {
    assert HasStack(e, next);
    var s := e.cos[next].stack;
    var occ := e.stacks[s].occupant;
    assert OccupantOk(e, s);
    if e.cos[next].shared && occ.Some? && occ.value != next {
      assert Parked(e, occ.value);
    }
    var e1 := Displace(e, next);
    assert SameShape(e, e1);
    assert e1.stacks[s].occupant == e.stacks[s].occupant || OccupantOk(e1, s);
    CoreKept(e, e1);
  }

  lemma DisplaceEffect(e: Env, next: CoId)
    requires CanDisplace(e, next)
    ensures var e1 := Displace(e, next);
            && e1.calls == e.calls && e1.cos.Keys == e.cos.Keys && e1.cos[next] == e.cos[next]
            && (forall c :: c in e.cos ==> e1.cos[c] == e.cos[c].(saved := e1.cos[c].saved))
            && e1.stacks.Keys == e.stacks.Keys
            && (forall s :: s in e.stacks ==> e1.stacks[s].buffer == e.stacks[s].buffer)
  {
  }

  lemma DisplaceFrame(e: Env, next: CoId, c: CoId)
    requires Core(e) && next in e.cos && CanDisplace(e, next) && Core(Displace(e, next))
    requires c in e.cos && c != next && Parked(e, c)
    ensures c in Displace(e, next).cos
    ensures Parked(Displace(e, next), c) && Frame(Displace(e, next), c) == Frame(e, c)
  {
  }

  /** Handing the stack over moves the previous occupant's bytes to its save buffer
      and changes nobody's frame. */
  lemma DisplaceKeeps(e: Env, next: CoId)
    requires Core(e) && next in e.cos && Live(e.cos[next]) && AllParkedBut(e, next)
    ensures CanDisplace(e, next)
    ensures var e1 := Displace(e, next);
            && Core(e1) && SameShape(e, e1) && Holds(e1, next) && AllParkedBut(e1, next)
            && forall c :: c in e.cos && c != next && Live(e.cos[c]) ==> Frame(e1, c) == Frame(e, c)
  {
    DisplaceCore(e, next);
    forall c | c in e.cos && c != next && Live(e.cos[c])
      ensures Parked(Displace(e, next), c) && Frame(Displace(e, next), c) == Frame(e, c)
    {
      DisplaceFrame(e, next, c);
    }
  }

  lemma RestoreCore(e: Env, next: CoId)
    requires Core(e) && next in e.cos && Live(e.cos[next]) && Parked(e, next) && AllParkedBut(e, next)
    requires CanDisplace(e, next)
    ensures CanRestore(Displace(e, next))
    ensures var e1, e2 := Displace(e, next), Restore(Displace(e, next));
            && e2.cos == e1.cos && e2.calls == e.calls && e2.stacks.Keys == e.stacks.Keys
            && (forall s :: s in e.stacks ==> e2.stacks[s] == e1.stacks[s].(buffer := e2.stacks[s].buffer))
            && (forall s :: s in e.stacks && s != e.cos[next].stack ==> e2.stacks[s] == e1.stacks[s])
            && |e2.stacks[e.cos[next].stack].buffer| == |e1.stacks[e.cos[next].stack].buffer|
            && (!e.cos[next].shared ==> e2 == e1)
            && Tail(e2, next, e.cos[next].sp) == Frame(e, next)
  {
    DisplaceEffect(e, next);
    var r, s := e.cos[next], e.cos[next].stack;
    var e1 := Displace(e, next);
    if r.shared && !Holds(e, next) {
      assert Overwrite(e1.stacks[s].buffer, r.sp, r.saved.value)[r.sp..] == r.saved.value;
    }
  }

  lemma RestoredCore(e: Env, e1: Env, next: CoId)
    requires Core(e) && next in e.cos && Live(e.cos[next]) && Parked(e, next) && AllParkedBut(e, next)
    requires CanDisplace(e, next) && e1 == Displace(e, next)
    ensures CanRestore(e1) && Core(e1) && Holds(e1, next)
    ensures var e2 := Restore(e1);
            && Core(e2) && SameShape(e1, e2) && SameShape(e, e2) && Holds(e2, next)
            && e2.cos == e1.cos && e2.calls == e.calls
            && Tail(e2, next, e.cos[next].sp) == Frame(e, next)
  {
    DisplaceCore(e, next);
    RestoreCore(e, next);
    var e2 := Restore(e1);
    RestoreShape(e1, e2);
    CoreKept(e1, e2);
    ShapeTrans(e, e1, e2);
  }

  /** Copying the saved bytes back puts the coroutine's frame into memory. */
  lemma RestoreBrings(e: Env, e1: Env, next: CoId)
    requires Core(e) && next in e.cos && Live(e.cos[next]) && Parked(e, next) && AllParkedBut(e, next)
    requires CanDisplace(e, next) && e1 == Displace(e, next)
    ensures CanRestore(e1)
    ensures var e2 := Restore(e1);
            && Core(e2) && SameShape(e, e2) && Holds(e2, next) && AllParkedBut(e2, next)
            && e2.cos == e1.cos && e2.calls == e.calls
            && Tail(e2, next, e.cos[next].sp) == Frame(e, next)
            && forall c :: c in e.cos && c != next && Live(e.cos[c]) ==> Frame(e2, c) == Frame(e, c)
  {
    DisplaceKeeps(e, next);
    RestoredCore(e, e1, next);
    forall c | c in e.cos && c != next && Live(e.cos[c])
      ensures c in Restore(e1).cos && Parked(Restore(e1), c) && Frame(Restore(e1), c) == Frame(e, c)
    {
      RestoredFrame(e, e1, next, c);
    }
  }

  lemma RestoredFrame(e: Env, e1: Env, next: CoId, c: CoId)
    requires Core(e) && next in e.cos && Live(e.cos[next]) && Parked(e, next) && AllParkedBut(e, next)
    requires CanDisplace(e, next) && e1 == Displace(e, next) && CanRestore(e1) && Core(e1) && Core(Restore(e1))
    requires SameShape(e1, Restore(e1)) && Holds(e1, next)
    requires c in e.cos && c != next && c in e1.cos && Parked(e, c) && Parked(e1, c) && Frame(e1, c) == Frame(e, c)
    ensures c in Restore(e1).cos && Parked(Restore(e1), c) && Frame(Restore(e1), c) == Frame(e, c)
  {
    RestoreCore(e, next);
    RestoreFrame(e1, Restore(e1), next, c);
  }

  lemma RestoreShape(e1: Env, e2: Env)
    requires CanRestore(e1) && e2 == Restore(e1) && Core(e1)
    ensures SameShape(e1, e2)
  {
  }

  lemma RestoreFrame(e1: Env, e2: Env, next: CoId, c: CoId)
    requires Core(e1) && Core(e2) && SameShape(e1, e2) && e2.cos == e1.cos
    requires next in e1.cos && Holds(e1, next)
    requires c in e1.cos && c != next && Parked(e1, c)
    requires forall s :: s in e1.stacks ==> e2.stacks[s] == e1.stacks[s].(buffer := e2.stacks[s].buffer)
    requires forall s :: s in e1.stacks && s != e1.cos[next].stack ==> e2.stacks[s] == e1.stacks[s]
    requires !e1.cos[next].shared ==> e2 == e1
    ensures Parked(e2, c) && Frame(e2, c) == Frame(e1, c)
  {
  }

  lemma ResumeCanSwap(e: Env, c: CoId, sp: nat, word: seq<Byte>)
    requires Inv(e) && Enabled(e, Resume(c, sp)) && |word| == WORD
    ensures CanDisplace(BeforeSwap(e, c, sp, word), c)
    ensures e.cos[c].started ==> CanRestore(Displace(BeforeSwap(e, c, sp, word), c))
  {
    ReadyToSwap(e, c, sp, word);
    var e0 := BeforeSwap(e, c, sp, word);
    DisplaceKeeps(e0, c);
    if e.cos[c].started {
      RestoreBrings(e0, Displace(e0, c), c);
    }
  }

  /** Recording the stack pointer and writing the boot word commute; so do their effects. */
  lemma ReadyShape(e: Env, c: CoId, sp: nat, word: seq<Byte>)
    requires Inv(e) && Enabled(e, Resume(c, sp)) && |word| == WORD
    ensures var e0 := BeforeSwap(e, c, sp, word);
            && Core(e0) && SameShape(e, e0) && e0.calls == e.calls + [c]
            && Live(e0.cos[c]) && AllParkedBut(e0, c)
            && e0.cos == e.cos[c := e.cos[c].(started := true)]
                              [Running(e) := e.cos[Running(e)].(sp := sp)]
  {
    var m0 := MarkSp(e.(calls := e.calls + [c]), Running(e), sp);
    MarkSpParks(e, sp, e.calls + [c]);
    BootKeeps(m0, c, word);
    SpBeforeBoot(e, c, sp, word);
  }

  lemma ReadyOwn(e: Env, c: CoId, sp: nat, word: seq<Byte>)
    requires Inv(e) && Enabled(e, Resume(c, sp)) && |word| == WORD && Core(BeforeSwap(e, c, sp, word))
    requires AllParkedBut(BeforeSwap(e, c, sp, word), c)
    ensures var e0 := BeforeSwap(e, c, sp, word);
            && Running(e) in e0.cos && Parked(e0, Running(e))
            && (e.cos[c].started ==> c in e0.cos && Parked(e0, c) && Frame(e0, c) == Frame(e, c))
            && SameLive(e.stacks[e.cos[Running(e)].stack], sp, Frame(e0, Running(e)), Tail(e, Running(e), sp))
  {
    var m0 := MarkSp(e.(calls := e.calls + [c]), Running(e), sp);
    MarkSpParks(e, sp, e.calls + [c]);
    SpBeforeBoot(e, c, sp, word);
    BootFrame(m0, c, word, Running(e));
  }

  lemma ReadyOther(e: Env, c: CoId, sp: nat, word: seq<Byte>, d: CoId)
    requires Inv(e) && Enabled(e, Resume(c, sp)) && |word| == WORD && Core(BeforeSwap(e, c, sp, word))
    requires d in e.cos && d != c && d != Running(e) && Live(e.cos[d])
    ensures var e0 := BeforeSwap(e, c, sp, word);
            d in e0.cos && Parked(e, d) && Parked(e0, d)
            && SameLive(e.stacks[e.cos[d].stack], e.cos[d].sp, Frame(e0, d), Frame(e, d))
  {
    var m0 := MarkSp(e.(calls := e.calls + [c]), Running(e), sp);
    MarkSpParks(e, sp, e.calls + [c]);
    SpBeforeBoot(e, c, sp, word);
    BootFrame(m0, c, word, d);
  }

  /** State just before the register switch of a resume: everyone but the new
      coroutine is parked, with its bytes intact. */
  lemma ReadyToSwap(e: Env, c: CoId, sp: nat, word: seq<Byte>)
    requires Inv(e) && Enabled(e, Resume(c, sp)) && |word| == WORD
    ensures var e0 := BeforeSwap(e, c, sp, word);
            && Core(e0) && SameShape(e, e0) && e0.calls == e.calls + [c]
            && Live(e0.cos[c]) && AllParkedBut(e0, c)
            && (e.cos[c].started ==> Parked(e0, c) && Frame(e0, c) == Frame(e, c))
            && e0.cos == e.cos[c := e.cos[c].(started := true)]
                              [Running(e) := e.cos[Running(e)].(sp := sp)]
            && SameLive(e.stacks[e.cos[Running(e)].stack], sp, Frame(e0, Running(e)), Tail(e, Running(e), sp))
            && (forall d :: d in e.cos && d != c && d != Running(e) && Live(e.cos[d])
                  ==> SameLive(e.stacks[e.cos[d].stack], e.cos[d].sp, Frame(e0, d), Frame(e, d)))
  {
    ReadyShape(e, c, sp, word);
    ReadyOwn(e, c, sp, word);
    forall d | d in e.cos && d != c && d != Running(e) && Live(e.cos[d])
      ensures d in BeforeSwap(e, c, sp, word).cos && Parked(BeforeSwap(e, c, sp, word), d)
      ensures SameLive(e.stacks[e.cos[d].stack], e.cos[d].sp, Frame(BeforeSwap(e, c, sp, word), d), Frame(e, d))
    {
      ReadyOther(e, c, sp, word, d);
    }
  }

  lemma SpBeforeBoot(e: Env, c: CoId, sp: nat, word: seq<Byte>)
    requires Inv(e) && Enabled(e, Resume(c, sp)) && |word| == WORD
    ensures BeforeSwap(e, c, sp, word) == Boot(MarkSp(e.(calls := e.calls + [c]), Running(e), sp), c, word)
    ensures BeforeSwap(e, c, sp, word).cos
            == e.cos[c := e.cos[c].(started := true)][Running(e) := e.cos[Running(e)].(sp := sp)]
  {
    var m0 := MarkSp(e.(calls := e.calls + [c]), Running(e), sp);
    assert c != Running(e);
    assert BeforeSwap(e, c, sp, word).cos == Boot(m0, c, word).cos;
    assert e.cos[c].started ==> e.cos[c] == e.cos[c].(started := true) && e.cos[c := e.cos[c]] == e.cos;
  }

  lemma YieldCanSwap(e: Env, sp: nat)
    requires Inv(e) && Enabled(e, Yield(sp))
    ensures var e0 := BeforeYield(e, sp);
            && e0.calls != [] && CanDisplace(e0, Running(e0)) && CanRestore(Displace(e0, Running(e0)))
  {
    var e0 := BeforeYield(e, sp);
    MarkSpParks(e, sp, DropLast(e.calls));
    assert Running(e0) in e.calls;
    DisplaceKeeps(e0, Running(e0));
    RestoreBrings(e0, Displace(e0, Running(e0)), Running(e0));
  }

  // ------------------------------------------------------------ every step

  /** A coroutine that stays suspended over a step keeps its stack pointer and bytes. */
  ghost predicate Keeps(e: Env, e1: Env, c: CoId)
    requires Core(e) && Core(e1) && c in e.cos && Parked(e, c)
  {
    && c in e1.cos && Live(e1.cos[c]) && Parked(e1, c)
    && e1.cos[c].stack == e.cos[c].stack && e1.cos[c].sp == e.cos[c].sp
    && SameSize(e.stacks[e.cos[c].stack], e1.stacks[e.cos[c].stack])
    && SameLive(e.stacks[e.cos[c].stack], e.cos[c].sp, Frame(e1, c), Frame(e, c))
  }

  /** What one hand-over of control from the running coroutine to `next` does. */
  ghost predicate Switched(e: Env, e1: Env, sp: nat, next: CoId)
    requires Inv(e) && Inv(e1)
  {
    var run := Running(e);
    && Running(e1) == next && next != run && next in e.cos
    && sp <= |e.stacks[e.cos[run].stack].buffer|
    && SameShape(e, e1)
    && e1.cos[run].sp == sp && Parked(e1, run)
    && SameLive(e.stacks[e.cos[run].stack], sp, Frame(e1, run), Tail(e, run, sp))
    && (Live(e.cos[next]) ==>
          e1.cos[next].sp == e.cos[next].sp && Tail(e1, next, e.cos[next].sp) == Frame(e, next))
    && (forall c :: c in e.cos && c != run && c != next && Live(e.cos[c]) ==> Keeps(e, e1, c))
  }

  /** The combined effect of `co_swap` on a state in which everyone but `next` is parked. */
  ghost predicate Swapped(e0: Env, e2: Env, next: CoId)
    requires Core(e0) && AllParkedBut(e0, next) && next in e0.cos
  {
    && Core(e2) && SameShape(e0, e2) && e2.calls == e0.calls
    && Holds(e2, next) && AllParkedBut(e2, next)
    && e2.cos[next] == e0.cos[next]
    && (forall c :: c in e0.cos ==> e2.cos[c].sp == e0.cos[c].sp && Live(e2.cos[c]) == Live(e0.cos[c]))
    && (forall c :: c in e0.cos && c != next && Live(e0.cos[c]) ==> Frame(e2, c) == Frame(e0, c))
  }

  lemma SwapEffect(e0: Env, next: CoId)
    requires Core(e0) && next in e0.cos && Live(e0.cos[next]) && AllParkedBut(e0, next)
    ensures CanDisplace(e0, next)
    ensures Swapped(e0, Displace(e0, next), next)
    ensures Parked(e0, next) ==>
              && CanRestore(Displace(e0, next))
              && Swapped(e0, Restore(Displace(e0, next)), next)
              && Tail(Restore(Displace(e0, next)), next, e0.cos[next].sp) == Frame(e0, next)
  {
    DisplaceKeeps(e0, next);
    DisplaceEffect(e0, next);
    if Parked(e0, next) {
      RestoreBrings(e0, Displace(e0, next), next);
    }
  }

  /** `e0` is `e` with the running coroutine's stack pointer recorded and `next` put on
      the call stack: nobody runs, and every frame is what it was. */
  ghost predicate Ready(e: Env, e0: Env, sp: nat, next: CoId)
    requires Inv(e)
  {
    var run := Running(e);
    && Core(e0) && SameShape(e, e0) && CallsOk(e0) && Running(e0) == next
    && next in e.cos && next != run && Live(e0.cos[next])
    && sp <= |e.stacks[e.cos[run].stack].buffer| && e0.cos[run].sp == sp
    && AllParkedBut(e0, next)
    && (forall d :: d in e.cos && d != run ==> e0.cos[d].sp == e.cos[d].sp)
    && SameLive(e.stacks[e.cos[run].stack], sp, Frame(e0, run), Tail(e, run, sp))
    && (forall d :: d in e.cos && d != next && d != run && Live(e.cos[d])
          ==> SameLive(e.stacks[e.cos[d].stack], e.cos[d].sp, Frame(e0, d), Frame(e, d)))
    && (Live(e.cos[next]) ==> Parked(e0, next) && Frame(e0, next) == Frame(e, next))
  }

  /** From a ready state, both forms of the swap complete the switch. */
  lemma Assemble(e: Env, e0: Env, e2: Env, sp: nat, next: CoId)
    requires Inv(e) && Ready(e, e0, sp, next) && Swapped(e0, e2, next)
    requires Live(e.cos[next]) ==> Tail(e2, next, e0.cos[next].sp) == Frame(e0, next)
    ensures Inv(e2) && Switched(e, e2, sp, next)
  {
    ShapeTrans(e, e0, e2);
    CallsKept(e0, e2);
    var run := Running(e);
    assert SameKind(e.cos[run], e2.cos[run]) && SameKind(e.cos[run], e0.cos[run]);
    assert Frame(e2, run) == Frame(e0, run);
    forall d | d in e.cos && d != run && d != next && Live(e.cos[d]) ensures Keeps(e, e2, d) {
      assert SameKind(e.cos[d], e0.cos[d]) && SameKind(e.cos[d], e2.cos[d]);
      assert Frame(e2, d) == Frame(e0, d);
      assert SameSize(e.stacks[e.cos[d].stack], e2.stacks[e.cos[d].stack]);
    }
  }

  lemma ReadySwitches(e: Env, e0: Env, sp: nat, next: CoId)
    requires Inv(e) && Ready(e, e0, sp, next)
    ensures CanDisplace(e0, next)
    ensures !Live(e.cos[next]) ==>
              Inv(Displace(e0, next)) && Switched(e, Displace(e0, next), sp, next)
    ensures Live(e.cos[next]) ==>
              && CanRestore(Displace(e0, next))
              && Inv(Restore(Displace(e0, next))) && Switched(e, Restore(Displace(e0, next)), sp, next)
  {
    SwapEffect(e0, next);
    if Live(e.cos[next]) {
      Assemble(e, e0, Restore(Displace(e0, next)), sp, next);
    } else {
      Assemble(e, e0, Displace(e0, next), sp, next);
    }
  }

  lemma ShapeTrans(e: Env, e0: Env, e2: Env)
    requires SameShape(e, e0) && SameShape(e0, e2)
    ensures SameShape(e, e2)
  {
    forall c | c in e.cos ensures SameKind(e.cos[c], e2.cos[c]) {
      assert SameKind(e.cos[c], e0.cos[c]) && SameKind(e0.cos[c], e2.cos[c]);
    }
    forall s | s in e.stacks ensures SameSize(e.stacks[s], e2.stacks[s]) {
      assert SameSize(e.stacks[s], e0.stacks[s]) && SameSize(e0.stacks[s], e2.stacks[s]);
    }
  }

  lemma ResumeReady(e: Env, c: CoId, sp: nat, word: seq<Byte>)
    requires Inv(e) && Enabled(e, Resume(c, sp)) && |word| == WORD
    ensures Ready(e, BeforeSwap(e, c, sp, word), sp, c)
  {
    ReadyToSwap(e, c, sp, word);
    CallsPush(e, BeforeSwap(e, c, sp, word), c);
  }

  lemma ResumeSwitches(e: Env, c: CoId, sp: nat, word: seq<Byte>)
    requires Inv(e) && Enabled(e, Resume(c, sp)) && |word| == WORD
    ensures Inv(AfterResume(e, c, sp, word))
    ensures Switched(e, AfterResume(e, c, sp, word), sp, c)
  {
    ResumeReady(e, c, sp, word);
    ReadySwitches(e, BeforeSwap(e, c, sp, word), sp, c);
  }

  lemma CallsKept(e0: Env, e2: Env)
    requires CallsOk(e0) && e2.calls == e0.calls && SameShape(e0, e2)
    ensures CallsOk(e2)
  {
    forall d | d in e2.calls ensures d in e2.cos && Live(e2.cos[d]) && (d != e2.calls[0] ==> !e2.cos[d].isMain) {
      assert d in e0.calls;
      assert SameKind(e0.cos[d], e2.cos[d]);
    }
  }

  lemma CallsPush(e: Env, e1: Env, c: CoId)
    requires CallsOk(e) && c in e.cos && c !in e.calls && !e.cos[c].isMain
    requires e1.calls == e.calls + [c] && SameShape(e, e1) && c in e1.cos && Live(e1.cos[c])
    ensures CallsOk(e1)
  {
    forall d | d in e1.calls ensures d in e1.cos && Live(e1.cos[d]) && (d != e1.calls[0] ==> !e1.cos[d].isMain) {
      if d != c {
        assert d in e.calls;
      }
      assert SameKind(e.cos[d], e1.cos[d]);
    }
  }

  function BeforeYield(e: Env, sp: nat): (r: Env)
    requires e.calls != [] && Running(e) in e.cos
  {
    MarkSp(e.(calls := DropLast(e.calls)), Running(e), sp)
  }

  lemma YieldReady(e: Env, sp: nat)
    requires Inv(e) && Enabled(e, Yield(sp))
    ensures Ready(e, BeforeYield(e, sp), sp, e.calls[|e.calls| - 2])
  {
    var e0 := BeforeYield(e, sp);
    MarkSpParks(e, sp, DropLast(e.calls));
    assert Running(e0) in e.calls && Running(e0) != Running(e);
    CallsPop(e, e0);
  }

  lemma YieldSwitches(e: Env, sp: nat)
    requires Inv(e) && Enabled(e, Yield(sp))
    ensures Inv(AfterYield(e, sp))
    ensures Switched(e, AfterYield(e, sp), sp, e.calls[|e.calls| - 2])
  {
    YieldReady(e, sp);
    ReadySwitches(e, BeforeYield(e, sp), sp, e.calls[|e.calls| - 2]);
  }

  lemma CallsPop(e: Env, e1: Env)
    requires CallsOk(e) && 2 <= |e.calls| && e1.calls == DropLast(e.calls) && SameShape(e, e1)
    ensures CallsOk(e1)
  {
    forall d | d in e1.calls ensures d in e1.cos && Live(e1.cos[d]) && (d != e1.calls[0] ==> !e1.cos[d].isMain) {
      assert d in e.calls;
      assert SameKind(e.cos[d], e1.cos[d]);
    }
  }

  /** The steps that do not hand over control. */
  predicate Quiet(ev: Event) {
    !ev.Resume? && !ev.Yield?
  }

  lemma VacateEffect(e: Env, c: CoId)
    requires c in e.cos && e.cos[c].stack in e.stacks
    ensures var e1 := Vacate(e, c);
            && e1.cos == e.cos && e1.calls == e.calls && e1.stacks.Keys == e.stacks.Keys
            && forall s :: s in e.stacks ==>
                 && e1.stacks[s].buffer == e.stacks[s].buffer && e1.stacks[s].base == e.stacks[s].base
                 && e1.stacks[s].occupant == (if s == e.cos[c].stack && e.stacks[s].occupant == Some(c)
                                              then None else e.stacks[s].occupant)
  {
  }

  lemma ResetCore(e: Env, c: CoId)
    requires Core(e) && c in e.cos
    ensures Core(AfterReset(e, c)) && AfterReset(e, c).calls == e.calls
    ensures AfterReset(e, c).cos.Keys == e.cos.Keys
    ensures forall d :: d in e.cos && d != c ==> AfterReset(e, c).cos[d] == e.cos[d]
  {
    assert HasStack(e, c);
    if e.cos[c].started && !e.cos[c].isMain {
      var e0 := e.(cos := e.cos[c := e.cos[c].(started := false, ended := false, saved := None)]);
      VacateEffect(e0, c);
      VacatedCore(e, AfterReset(e, c), c);
    }
  }

  /** A coroutine that is not marked as an occupant any more may be anything. */
  lemma VacatedCore(e: Env, e1: Env, c: CoId)
    requires Core(e) && c in e.cos && e1.cos.Keys == e.cos.Keys && e1.stacks.Keys == e.stacks.Keys
    requires forall d :: d in e.cos && d != c ==> e1.cos[d] == e.cos[d]
    requires e1.cos[c].stack == e.cos[c].stack && e1.cos[c].shared == e.cos[c].shared
    requires e1.cos[c].isMain == e.cos[c].isMain
    requires forall s :: s in e.stacks ==>
               && SameSize(e.stacks[s], e1.stacks[s])
               && e1.stacks[s].occupant == (if s == e.cos[c].stack && e.stacks[s].occupant == Some(c)
                                            then None else e.stacks[s].occupant)
    ensures Core(e1)
  {
    forall d | d in e1.cos ensures HasStack(e1, d) {
      assert HasStack(e, d);
    }
    forall s | s in e1.stacks ensures OccupantOk(e1, s) && Roomy(e1.stacks[s]) {
      assert OccupantOk(e, s) && Roomy(e.stacks[s]);
    }
  }

  lemma FreeCore(e: Env, c: CoId)
    requires Core(e) && c in e.cos
    ensures Core(AfterFree(e, c)) && AfterFree(e, c).calls == e.calls
    ensures AfterFree(e, c).cos == e.cos - {c}
  {
    assert HasStack(e, c);
    if e.cos[c].shared {
      VacateEffect(e, c);
    }
    var e1 := AfterFree(e, c);
    forall d | d in e1.cos ensures HasStack(e1, d) {
      assert HasStack(e, d);
    }
    forall s | s in e1.stacks ensures OccupantOk(e1, s) && Roomy(e1.stacks[s]) {
      assert OccupantOk(e, s) && Roomy(e.stacks[s]);
    }
  }

  lemma CreateCore(e: Env, ev: Event, word: seq<Byte>)
    requires Inv(e) && Enabled(e, ev) && |word| == WORD
    requires ev.AllocShared? || ev.CreateShared? || ev.CreatePrivate?
    ensures Core(Apply(e, ev, word)) && Apply(e, ev, word).calls == e.calls
  {
    var e1 := Apply(e, ev, word);
    forall c | c in e1.cos ensures HasStack(e1, c) {
      assert c in e.cos ==> HasStack(e, c);
    }
    forall s | s in e1.stacks ensures OccupantOk(e1, s) && Roomy(e1.stacks[s]) {
      assert s in e.stacks ==> OccupantOk(e, s) && Roomy(e.stacks[s]);
    }
  }

  lemma QuietCore(e: Env, ev: Event, word: seq<Byte>)
    requires Inv(e) && Enabled(e, ev) && |word| == WORD && Quiet(ev)
    ensures Core(Apply(e, ev, word)) && Apply(e, ev, word).calls == e.calls
  {
    if ev.Compute? || ev.End? {
      CoreKept(e, Apply(e, ev, word));
    } else if ev.Reset? {
      ResetCore(e, ev.co);
    } else if ev.Free? {
      FreeCore(e, ev.co);
    } else {
      CreateCore(e, ev, word);
    }
  }

  lemma VacatingKeeps(e: Env, e1: Env, x: CoId, c: CoId)
    requires Core(e) && Core(e1) && x in e.cos && x != c
    requires c in e.cos && Live(e.cos[c]) && Parked(e, c)
    requires c in e1.cos && e1.cos[c] == e.cos[c]
    requires var s := e.cos[c].stack;
             && e1.stacks[s].buffer == e.stacks[s].buffer && e1.stacks[s].base == e.stacks[s].base
             && (e1.stacks[s].occupant == e.stacks[s].occupant
                 || (e.stacks[s].occupant == Some(x) && e1.stacks[s].occupant.None?))
    ensures Keeps(e, e1, c)
  {
  }

  lemma ResetKeeps(e: Env, x: CoId, c: CoId)
    requires Core(e) && x in e.cos && x != c && Core(AfterReset(e, x))
    requires c in e.cos && Live(e.cos[c]) && Parked(e, c)
    ensures Keeps(e, AfterReset(e, x), c)
  {
    assert HasStack(e, x) && HasStack(e, c);
    VacateEffect(e.(cos := e.cos[x := e.cos[x].(started := false, ended := false, saved := None)]), x);
    VacatingKeeps(e, AfterReset(e, x), x, c);
  }

  lemma FreeKeeps(e: Env, x: CoId, c: CoId)
    requires Core(e) && x in e.cos && x != c && Core(AfterFree(e, x))
    requires c in e.cos && Live(e.cos[c]) && Parked(e, c)
    ensures Keeps(e, AfterFree(e, x), c)
  {
    assert HasStack(e, x) && HasStack(e, c);
    VacateEffect(e, x);
    VacatingKeeps(e, AfterFree(e, x), x, c);
  }

  lemma QuietKeeps(e: Env, ev: Event, word: seq<Byte>, c: CoId)
    requires Inv(e) && Enabled(e, ev) && |word| == WORD && Quiet(ev)
    requires Core(Apply(e, ev, word))
    requires c in e.cos && c != Running(e) && Live(e.cos[c]) && Parked(e, c)
    requires ev != Free(c) && (ev != Reset(c) || e.cos[c].isMain)
    ensures Keeps(e, Apply(e, ev, word), c)
  {
    assert HasStack(e, c);
    if ev.Compute? {
      assert HasStack(e, Running(e));
    } else if ev.Reset? {
      if ev.co != c {
        ResetKeeps(e, ev.co, c);
      }
    } else if ev.Free? {
      FreeKeeps(e, ev.co, c);
    } else {
      VacatingKeeps(e, Apply(e, ev, word), Running(e), c);
    }
  }

  lemma QuietInv(e: Env, ev: Event, word: seq<Byte>)
    requires Inv(e) && Enabled(e, ev) && |word| == WORD && Quiet(ev)
    ensures Inv(Apply(e, ev, word))
  {
    QuietCore(e, ev, word);
    var e1 := Apply(e, ev, word);
    var run := Running(e);
    assert run in e.calls;
    QuietCalls(e, ev, word);
    forall c | c in e1.cos && c != run && Live(e1.cos[c]) ensures Parked(e1, c) {
      assert c in e.cos;
      assert Live(e.cos[c]) && Parked(e, c);
      if ev != Free(c) && (ev != Reset(c) || e.cos[c].isMain) {
        QuietKeeps(e, ev, word, c);
      }
    }
  }

  lemma CallsSame(e: Env, e1: Env)
    requires CallsOk(e) && e1.calls == e.calls
    requires forall d :: d in e.calls ==> d in e1.cos && Live(e1.cos[d]) && e1.cos[d].isMain == e.cos[d].isMain
    ensures CallsOk(e1)
  {
  }

  /** What a quiet step leaves of the coroutines that are being run. */
  lemma QuietCalled(e: Env, ev: Event, word: seq<Byte>, d: CoId)
    requires Inv(e) && Enabled(e, ev) && |word| == WORD && Quiet(ev) && d in e.calls
    ensures d in Apply(e, ev, word).cos && Live(Apply(e, ev, word).cos[d])
    ensures SameKind(e.cos[d], Apply(e, ev, word).cos[d])
  {
    if ev.Reset? || ev.Free? {
      assert HasStack(e, ev.co);
      VacateEffect(e, ev.co);
      VacateEffect(e.(cos := e.cos[ev.co := e.cos[ev.co].(started := false, ended := false, saved := None)]), ev.co);
    }
  }

  lemma QuietHolds(e: Env, ev: Event, word: seq<Byte>)
    requires Inv(e) && Enabled(e, ev) && |word| == WORD && Quiet(ev) && HasStack(e, Running(e))
    requires Running(e) in e.calls && Running(e) in Apply(e, ev, word).cos
    requires SameKind(e.cos[Running(e)], Apply(e, ev, word).cos[Running(e)])
    ensures e.cos[Running(e)].stack in Apply(e, ev, word).stacks && Holds(Apply(e, ev, word), Running(e))
  {
    if ev.Reset? || ev.Free? {
      assert HasStack(e, ev.co);
      VacateEffect(e, ev.co);
      VacateEffect(e.(cos := e.cos[ev.co := e.cos[ev.co].(started := false, ended := false, saved := None)]), ev.co);
    }
  }

  lemma QuietCalls(e: Env, ev: Event, word: seq<Byte>)
    requires Inv(e) && Enabled(e, ev) && |word| == WORD && Quiet(ev) && Apply(e, ev, word).calls == e.calls
    ensures CallsOk(Apply(e, ev, word))
    ensures Running(e) in Apply(e, ev, word).cos && e.cos[Running(e)].stack in Apply(e, ev, word).stacks
    ensures Holds(Apply(e, ev, word), Running(e))
  {
    var e1 := Apply(e, ev, word);
    forall d | d in e.calls ensures d in e1.cos && Live(e1.cos[d]) && SameKind(e.cos[d], e1.cos[d]) {
      QuietCalled(e, ev, word, d);
    }
    CallsSame(e, e1);
    assert Running(e) in e.calls && HasStack(e, Running(e));
    QuietHolds(e, ev, word);
  }

  /** Where the running coroutine's stack pointer stands when it gives up control. */
  function SpOf(ev: Event): (sp: nat)
    requires !Quiet(ev)
  {
    ev.sp
  }

  lemma SwitchStep(e: Env, ev: Event, word: seq<Byte>)
    requires Inv(e) && Enabled(e, ev) && |word| == WORD && !Quiet(ev)
    ensures Inv(Apply(e, ev, word))
    ensures Switched(e, Apply(e, ev, word), SpOf(ev), Running(Apply(e, ev, word)))
  {
    if ev.Resume? {
      ResumeSwitches(e, ev.co, ev.sp, word);
    } else {
      YieldSwitches(e, ev.sp);
    }
  }

  /** What any step promises: either control stays where it is and every coroutine that
      is not reset or freed keeps its bytes, or control is handed over as `Switched` says. */
  ghost predicate Promise(e: Env, ev: Event, e1: Env) {
    && Inv(e) && Inv(e1)
    && if Quiet(ev) then
         && Running(e1) == Running(e)
         && forall c :: c in e.cos && c != Running(e) && Live(e.cos[c]) && ev != Reset(c) && ev != Free(c)
                        ==> Keeps(e, e1, c)
       else Switched(e, e1, SpOf(ev), Running(e1))
  }

  /** Every step the callers may take keeps the invariant and the promise. */
  lemma StepKeepsPromise(e: Env, ev: Event, word: seq<Byte>)
    requires Inv(e) && Enabled(e, ev) && |word| == WORD
    ensures Promise(e, ev, Apply(e, ev, word))
  {
    if Quiet(ev) {
      QuietInv(e, ev, word);
      QuietCore(e, ev, word);
      forall c | c in e.cos && c != Running(e) && Live(e.cos[c]) && ev != Reset(c) && ev != Free(c)
        ensures Keeps(e, Apply(e, ev, word), c)
      {
        QuietKeeps(e, ev, word, c);
      }
    } else {
      SwitchStep(e, ev, word);
    }
  }

  // -------------------------------------------------------------- every run

  /** `co_init_curr_thread_env`: only the thread's own routine exists and runs. */
  ghost predicate Initial(e: Env) {
    && |e.calls| == 1
    && e.cos == map[e.calls[0] := NewRoutine(Own(e.calls[0]), false).(isMain := true)]
    && e.stacks.Keys == {Own(e.calls[0])}
    && Roomy(e.stacks[Own(e.calls[0])]) && e.stacks[Own(e.calls[0])].occupant.None?
    && e.pending.None? && e.occupy.None?
  }

  /** A run: every event is one the callers may cause in the state it happens in. */
  ghost predicate IsRun(es: seq<Env>, evs: seq<Event>, word: seq<Byte>) {
    && |es| == |evs| + 1 && |word| == WORD && Initial(es[0])
    && forall i {:trigger StepAt(es, evs, word, i)} :: 0 <= i < |evs| ==> StepAt(es, evs, word, i)
  }

  ghost predicate StepAt(es: seq<Env>, evs: seq<Event>, word: seq<Byte>, i: nat)
    requires i < |evs| && |es| == |evs| + 1 && |word| == WORD
  {
    Inv(es[i]) ==> Enabled(es[i], evs[i]) && es[i + 1] == Apply(es[i], evs[i], word)
  }

  lemma InitialInv(e: Env)
    requires Initial(e)
    ensures Inv(e)
  {
    assert HasStack(e, e.calls[0]);
  }

  lemma StepPromised(es: seq<Env>, evs: seq<Event>, word: seq<Byte>, k: nat)
    requires IsRun(es, evs, word) && k < |evs| && Inv(es[k])
    ensures Promise(es[k], evs[k], es[k + 1]) && Inv(es[k + 1])
  {
    assert StepAt(es, evs, word, k);
    StepKeepsPromise(es[k], evs[k], word);
  }

  lemma {:induction false} RunKeepsInv(es: seq<Env>, evs: seq<Event>, word: seq<Byte>, n: nat)
    requires IsRun(es, evs, word) && n <= |evs|
    ensures Inv(es[n])
  {
    if n == 0 {
      InitialInv(es[0]);
    } else {
      RunKeepsInv(es, evs, word, n - 1);
      StepPromised(es, evs, word, n - 1);
    }
  }

  /** Every step of every run keeps its promise. */
  lemma RunKeepsPromises(es: seq<Env>, evs: seq<Event>, word: seq<Byte>)
    requires IsRun(es, evs, word)
    ensures Promises(es, evs)
  {
    forall k | 0 <= k < |evs| ensures Promise(es[k], evs[k], es[k + 1]) {
      RunKeepsInv(es, evs, word, k);
      StepPromised(es, evs, word, k);
    }
  }

  /** Coroutine `c` gives up control in step `i` and is not reset or freed before `k`,
      nor given control again. */
  ghost predicate Away(es: seq<Env>, evs: seq<Event>, c: CoId, i: nat, k: nat) {
    && i < k < |es| == |evs| + 1
    && es[i].calls != [] && Running(es[i]) == c
    && (forall n :: i < n <= k ==> es[n].calls != [] && Running(es[n]) != c)
    && (forall n :: i < n < k ==> evs[n] != Reset(c) && evs[n] != Free(c))
  }

  /** `e1` still holds, parked, the bytes that `c` had from `sp` up in `e`. */
  ghost predicate Preserved(e: Env, e1: Env, c: CoId, sp: nat)
    requires Core(e) && Core(e1)
  {
    && c in e.cos && c in e1.cos && Live(e1.cos[c]) && Parked(e1, c)
    && e1.cos[c].stack == e.cos[c].stack && e1.cos[c].sp == sp
    && SameSize(e.stacks[e.cos[c].stack], e1.stacks[e.cos[c].stack])
    && sp <= |e.stacks[e.cos[c].stack].buffer|
    && SameLive(e.stacks[e.cos[c].stack], sp, Frame(e1, c), Tail(e, c, sp))
  }

  lemma SwitchPreserves(e: Env, e1: Env, c: CoId, sp: nat)
    requires Inv(e) && Inv(e1) && Running(e) == c && Running(e1) != c && Switched(e, e1, sp, Running(e1))
    ensures Preserved(e, e1, c, sp)
  {
    assert SameKind(e.cos[c], e1.cos[c]);
    assert SameSize(e.stacks[e.cos[c].stack], e1.stacks[e.cos[c].stack]);
  }

  lemma KeepsPreserves(e: Env, e1: Env, e2: Env, c: CoId, sp: nat)
    requires Core(e) && Core(e1) && Core(e2) && Preserved(e, e1, c, sp) && Keeps(e1, e2, c)
    ensures Preserved(e, e2, c, sp)
  {
  }

  lemma StepPreserves(e: Env, e0: Env, ev: Event, e1: Env, c: CoId, sp: nat)
    requires Core(e) && Promise(e0, ev, e1) && Preserved(e, e0, c, sp)
    requires Running(e0) != c && Running(e1) != c && ev != Reset(c) && ev != Free(c)
    ensures Preserved(e, e1, c, sp)
  {
    KeepsPreserves(e, e0, e1, c, sp);
  }

  ghost predicate Promises(es: seq<Env>, evs: seq<Event>) {
    |es| == |evs| + 1 && forall k :: 0 <= k < |evs| ==> Promise(es[k], evs[k], es[k + 1])
  }

  lemma {:induction false} AwayKeepsFrame(es: seq<Env>, evs: seq<Event>, c: CoId, i: nat, k: nat)
    requires Promises(es, evs) && Away(es, evs, c, i, k)
    ensures Inv(es[i]) && Inv(es[k]) && !Quiet(evs[i]) && Preserved(es[i], es[k], c, SpOf(evs[i]))
    decreases k
  {
    if k == i + 1 {
      assert Promise(es[i], evs[i], es[i + 1]);
      SwitchPreserves(es[i], es[k], c, SpOf(evs[i]));
    } else {
      AwayKeepsFrame(es, evs, c, i, k - 1);
      var e0, ev, e1 := es[k - 1], evs[k - 1], es[k];
      assert Promise(e0, ev, e1);
      StepPreserves(es[i], e0, ev, e1, c, SpOf(evs[i]));
    }
  }

  /** In `e1` coroutine `c` has its stack pointer back at `sp` and finds from there up the
      bytes it had in `e`. */
  ghost predicate FindsBytes(e: Env, e1: Env, c: CoId, sp: nat)
    requires Core(e) && Core(e1)
  {
    && c in e.cos && c in e1.cos
    && e1.cos[c].stack == e.cos[c].stack && e1.cos[c].sp == sp <= |e.stacks[e.cos[c].stack].buffer|
    && SameSize(e.stacks[e.cos[c].stack], e1.stacks[e.cos[c].stack])
    && SameLive(e.stacks[e.cos[c].stack], sp, Tail(e1, c, sp), Tail(e, c, sp))
  }

  lemma ReturnFinds(e: Env, e0: Env, ev: Event, e1: Env, c: CoId, sp: nat)
    requires Inv(e) && Promise(e0, ev, e1) && Preserved(e, e0, c, sp)
    requires Running(e0) != c && Running(e1) == c
    ensures FindsBytes(e, e1, c, sp)
  {
    assert SameKind(e0.cos[c], e1.cos[c]);
    assert SameSize(e0.stacks[e0.cos[c].stack], e1.stacks[e0.cos[c].stack]);
  }

  lemma PromisedTransparency(es: seq<Env>, evs: seq<Event>, c: CoId, i: nat, j: nat)
    requires Promises(es, evs) && i + 1 < j < |es|
    requires Away(es, evs, c, i, j - 1) && es[j].calls != [] && Running(es[j]) == c
    ensures Inv(es[i]) && Inv(es[j]) && !Quiet(evs[i]) && FindsBytes(es[i], es[j], c, SpOf(evs[i]))
  {
    AwayKeepsFrame(es, evs, c, i, j - 1);
    assert Promise(es[j - 1], evs[j - 1], es[j - 1 + 1]);
    ReturnFinds(es[i], es[j - 1], evs[j - 1], es[j], c, SpOf(evs[i]));
  }

  /** Shared-stack transparency. In every run, a coroutine that gave up control in step
      `i` and gets it back in step `j` finds every byte from its stack pointer up exactly
      as it left it, whoever used the stack in between. */
  lemma Transparency(es: seq<Env>, evs: seq<Event>, word: seq<Byte>, c: CoId, i: nat, j: nat)
    requires IsRun(es, evs, word) && i + 1 < j < |es|
    requires Away(es, evs, c, i, j - 1) && es[j].calls != [] && Running(es[j]) == c
    ensures Inv(es[i]) && Inv(es[j]) && !Quiet(evs[i]) && FindsBytes(es[i], es[j], c, SpOf(evs[i]))
  {
    RunKeepsPromises(es, evs, word);
    PromisedTransparency(es, evs, c, i, j);
  }

  // ----------------------------------------------------- starting and ending

  /** Coroutine `c` has not started: it is not over, nothing is saved for it and nothing marks it
      as an occupant. */
  ghost predicate Unstarted(e: Env, c: CoId) {
    && c in e.cos && !Live(e.cos[c]) && !e.cos[c].ended && e.cos[c].saved.None?
    && (forall s :: s in e.stacks ==> e.stacks[s].occupant != Some(c))
    && e.occupy != Some(c)
  }

  /** No stack other than its own is marked for a coroutine. */
  lemma MarkedStack(e: Env, c: CoId, s: StackId)
    requires Core(e) && c in e.cos && s in e.stacks && e.stacks[s].occupant == Some(c)
    ensures s == e.cos[c].stack && e.cos[c].started
  {
    assert OccupantOk(e, s);
  }

  /** A reset takes a coroutine that has started back to the state of a new one, on the same stack;
      on one that has not, or on the thread's own, it does nothing. */
  lemma ResetClears(e: Env, c: CoId)
    requires Inv(e) && Enabled(e, Reset(c))
    ensures var e1 := AfterReset(e, c);
            if e.cos[c].started && !e.cos[c].isMain
            then Unstarted(e1, c) && e1.cos[c].stack == e.cos[c].stack && e1.cos[c].shared == e.cos[c].shared
            else e1 == e
  {
    if e.cos[c].started && !e.cos[c].isMain {
      var e0 := e.(cos := e.cos[c := e.cos[c].(started := false, ended := false, saved := None)]);
      assert HasStack(e, c);
      VacateEffect(e0, c);
      forall s | s in e.stacks ensures AfterReset(e, c).stacks[s].occupant != Some(c) {
        if e.stacks[s].occupant == Some(c) {
          MarkedStack(e, c, s);
        }
      }
    }
  }

  /** A new coroutine has not started, on the stack that it was given. */
  lemma CreatedUnstarted(e: Env, ev: Event, word: seq<Byte>)
    requires Inv(e) && Enabled(e, ev) && |word| == WORD && (ev.CreateShared? || ev.CreatePrivate?)
    requires OccupyKnown(e)
    ensures var e1 := Apply(e, ev, word);
            && Unstarted(e1, ev.co)
            && e1.cos[ev.co].stack == (if ev.CreateShared? then Pool(ev.n) else Own(ev.co))
            && (ev.CreatePrivate? ==> e1.stacks[Own(ev.co)] == ev.mem)
  {
    var e1 := Apply(e, ev, word);
    forall s | s in e1.stacks ensures e1.stacks[s].occupant != Some(ev.co) {
      assert s in e.stacks ==> OccupantOk(e, s);
    }
  }

  /** The environment's mark names a coroutine that is there. */
  ghost predicate OccupyKnown(e: Env) {
    e.occupy.Some? ==> e.occupy.value in e.cos && e.cos[e.occupy.value].shared
  }

  lemma DisplaceOccupy(e: Env, next: CoId)
    requires Core(e) && CanDisplace(e, next)
    ensures OccupyKnown(Displace(e, next))
    ensures CanRestore(Displace(e, next)) ==> OccupyKnown(Restore(Displace(e, next)))
  {
    assert OccupantOk(e, e.cos[next].stack);
  }

  lemma OccupyStays(e: Env, ev: Event, word: seq<Byte>)
    requires Inv(e) && Enabled(e, ev) && |word| == WORD && OccupyKnown(e)
    ensures OccupyKnown(Apply(e, ev, word))
  {
    if ev.Resume? {
      ResumeReady(e, ev.co, ev.sp, word);
      ResumeCanSwap(e, ev.co, ev.sp, word);
      DisplaceOccupy(BeforeSwap(e, ev.co, ev.sp, word), ev.co);
    } else if ev.Yield? {
      YieldReady(e, ev.sp);
      YieldCanSwap(e, ev.sp);
      DisplaceOccupy(BeforeYield(e, ev.sp), Running(BeforeYield(e, ev.sp)));
    } else if ev.Reset? || ev.Free? {
      assert HasStack(e, ev.co);
    }
  }

  lemma {:induction false} RunOccupy(es: seq<Env>, evs: seq<Event>, word: seq<Byte>, n: nat)
    requires IsRun(es, evs, word) && n <= |evs|
    ensures Inv(es[n]) && OccupyKnown(es[n])
  {
    RunKeepsInv(es, evs, word, n);
    if n > 0 {
      RunOccupy(es, evs, word, n - 1);
      assert StepAt(es, evs, word, n - 1);
      OccupyStays(es[n - 1], evs[n - 1], word);
    }
  }

  /** Freeing a coroutine leaves nothing of it: no mark, and no stack of its own. */
  lemma FreeForgets(e: Env, c: CoId)
    requires Inv(e) && Enabled(e, Free(c))
    ensures var e1 := AfterFree(e, c);
            && e1.cos == e.cos - {c} && (forall s :: s in e1.stacks ==> e1.stacks[s].occupant != Some(c))
            && e1.stacks.Keys == (if e.cos[c].shared then e.stacks.Keys else e.stacks.Keys - {Own(c)})
            && (e.cos[c].shared ==> e1.occupy != Some(c))
  {
    assert HasStack(e, c);
    VacateEffect(e, c);
    forall s | s in AfterFree(e, c).stacks ensures AfterFree(e, c).stacks[s].occupant != Some(c) {
      if e.stacks[s].occupant == Some(c) {
        MarkedStack(e, c, s);
      }
    }
  }

  /** Handing over control changes nothing about a coroutine that has not started. */
  lemma SwapSpares(e: Env, next: CoId, c: CoId)
    requires CanDisplace(e, next) && Core(e) && Unstarted(e, c) && c != next
    ensures Unstarted(Displace(e, next), c) && Displace(e, next).cos[c] == e.cos[c]
    ensures CanRestore(Displace(e, next)) ==>
              Unstarted(Restore(Displace(e, next)), c) && Restore(Displace(e, next)).cos[c] == e.cos[c]
  {
    assert OccupantOk(e, e.cos[next].stack);
  }

  lemma BeforeSpares(e: Env, d: CoId, sp: nat, word: seq<Byte>, c: CoId)
    requires Inv(e) && Enabled(e, Resume(d, sp)) && |word| == WORD && Unstarted(e, c) && c != d
    ensures Unstarted(BeforeSwap(e, d, sp, word), c) && BeforeSwap(e, d, sp, word).cos[c] == e.cos[c]
  {
    assert Running(e) in e.calls && HasStack(e, d);
    var e0 := BeforeSwap(e, d, sp, word);
    forall s | s in e0.stacks ensures e0.stacks[s].occupant != Some(c) {
      assert s in e.stacks && e0.stacks[s].occupant == e.stacks[s].occupant;
    }
  }

  lemma SwitchSpares(e: Env, ev: Event, word: seq<Byte>, c: CoId)
    requires Inv(e) && Enabled(e, ev) && |word| == WORD && !Quiet(ev) && Unstarted(e, c)
    requires ev.Resume? ==> ev.co != c
    ensures Unstarted(Apply(e, ev, word), c) && Apply(e, ev, word).cos[c] == e.cos[c]
  {
    if ev.Resume? {
      BeforeSpares(e, ev.co, ev.sp, word, c);
      ResumeReady(e, ev.co, ev.sp, word);
      ResumeCanSwap(e, ev.co, ev.sp, word);
      SwapSpares(BeforeSwap(e, ev.co, ev.sp, word), ev.co, c);
    } else {
      assert Running(e) in e.calls;
      YieldReady(e, ev.sp);
      YieldCanSwap(e, ev.sp);
      SwapSpares(BeforeYield(e, ev.sp), Running(BeforeYield(e, ev.sp)), c);
    }
  }

  /** Nor does anything else, except resuming or freeing it. */
  lemma StaysUnstarted(e: Env, ev: Event, word: seq<Byte>, c: CoId)
    requires Inv(e) && Enabled(e, ev) && |word| == WORD && Unstarted(e, c)
    requires ev != Free(c) && (ev.Resume? ==> ev.co != c)
    ensures Unstarted(Apply(e, ev, word), c) && Apply(e, ev, word).cos[c] == e.cos[c]
  {
    if !Quiet(ev) {
      SwitchSpares(e, ev, word, c);
    } else if ev.Reset? || ev.Free? {
      assert HasStack(e, ev.co);
      VacateEffect(e, ev.co);
      VacateEffect(e.(cos := e.cos[ev.co := e.cos[ev.co].(started := false, ended := false, saved := None)]), ev.co);
    } else if ev.End? {
      assert Running(e) in e.calls;
    }
  }

  /** The first turn of a coroutine: it runs, with the entry word in place at the top of its
      stack. */
  ghost predicate Entered(e: Env, c: CoId, word: seq<Byte>) {
    && e.calls != [] && Running(e) == c && c in e.cos && e.cos[c].started && e.cos[c].stack in e.stacks
    && Roomy(e.stacks[e.cos[c].stack]) && |word| == WORD
    && var m := e.stacks[e.cos[c].stack];
       m.buffer[BootAt(m)..BootAt(m) + WORD] == word
  }

  lemma BootedWord(e: Env, c: CoId, sp: nat, word: seq<Byte>)
    requires Inv(e) && Enabled(e, Resume(c, sp)) && |word| == WORD && Unstarted(e, c)
    ensures e.cos[c].stack in e.stacks && Roomy(e.stacks[e.cos[c].stack])
    ensures var m, e0 := e.stacks[e.cos[c].stack], BeforeSwap(e, c, sp, word);
            && e0.cos[c] == e.cos[c].(started := true) && e0.stacks.Keys == e.stacks.Keys
            && e0.stacks[e.cos[c].stack] == m.(buffer := Overwrite(m.buffer, BootAt(m), word))
  {
    assert HasStack(e, c) && c != Running(e);
  }

  lemma OverwriteAt(buffer: seq<Byte>, at: nat, data: seq<Byte>)
    requires at + |data| <= |buffer|
    ensures Overwrite(buffer, at, data)[at..at + |data|] == data
  {
  }

  lemma EnteredIs(e: Env, c: CoId, m: StackMem, word: seq<Byte>)
    requires e.calls != [] && Running(e) == c && c in e.cos && e.cos[c].started && e.cos[c].stack in e.stacks
    requires Roomy(m) && |word| == WORD
    requires var m1 := e.stacks[e.cos[c].stack];
             m1.base == m.base && m1.buffer == Overwrite(m.buffer, BootAt(m), word)
    ensures Entered(e, c, word)
  {
    OverwriteAt(m.buffer, BootAt(m), word);
  }

  lemma ResumeEnters(e: Env, c: CoId, sp: nat, word: seq<Byte>)
    requires Inv(e) && Enabled(e, Resume(c, sp)) && |word| == WORD && Unstarted(e, c)
    ensures Entered(AfterResume(e, c, sp, word), c, word)
  {
    BootedWord(e, c, sp, word);
    var m, e0 := e.stacks[e.cos[c].stack], BeforeSwap(e, c, sp, word);
    ResumeCanSwap(e, c, sp, word);
    DisplaceEffect(e0, c);
    DisplaceBase(e0, c);
    EnteredIs(Displace(e0, c), c, m, word);
  }

  lemma DisplaceBase(e: Env, next: CoId)
    requires CanDisplace(e, next)
    ensures forall s :: s in e.stacks ==> Displace(e, next).stacks[s].base == e.stacks[s].base
  {
  }

  lemma {:induction false} UnstartedUntil(es: seq<Env>, evs: seq<Event>, word: seq<Byte>, c: CoId, i: nat, k: nat)
    requires IsRun(es, evs, word) && i <= k < |es| && Unstarted(es[i], c)
    requires forall n :: i <= n < k ==> evs[n] != Free(c) && (evs[n].Resume? ==> evs[n].co != c)
    ensures Unstarted(es[k], c) && es[k].cos[c] == es[i].cos[c]
  {
    if i < k {
      UnstartedUntil(es, evs, word, c, i, k - 1);
      RunKeepsInv(es, evs, word, k - 1);
      assert StepAt(es, evs, word, k - 1);
      StaysUnstarted(es[k - 1], evs[k - 1], word, c);
    }
  }

  /** Step `i` makes coroutine `c`, or resets it when it has started. */
  ghost predicate Renews(es: seq<Env>, evs: seq<Event>, c: CoId, i: nat)
    requires i < |evs| < |es|
  {
    match evs[i]
    case CreateShared(x, _) => x == c
    case CreatePrivate(x, _) => x == c
    case Reset(x) => x == c && c in es[i].cos && es[i].cos[c].started && !es[i].cos[c].isMain
    case _ => false
  }

  lemma RenewsUnstarted(es: seq<Env>, evs: seq<Event>, word: seq<Byte>, c: CoId, i: nat)
    requires IsRun(es, evs, word) && i < |evs| && Renews(es, evs, c, i)
    ensures Unstarted(es[i + 1], c)
    ensures evs[i].Reset? ==> es[i + 1].cos[c].stack == es[i].cos[c].stack
  {
    RunOccupy(es, evs, word, i);
    assert StepAt(es, evs, word, i);
    if evs[i].Reset? {
      ResetClears(es[i], c);
    } else {
      CreatedUnstarted(es[i], evs[i], word);
    }
  }

  /** In every run, the first time that a coroutine is resumed after it was made or reset, it starts
      at its entry: the entry word is in place on its stack, whatever ran in between, and after a
      reset that is the stack it had. */
  lemma StartsAtEntry(es: seq<Env>, evs: seq<Event>, word: seq<Byte>, c: CoId, i: nat, k: nat)
    requires IsRun(es, evs, word) && i < k < |evs| && Renews(es, evs, c, i) && evs[k].Resume? && evs[k].co == c
    requires forall n :: i < n < k ==> evs[n] != Free(c) && (evs[n].Resume? ==> evs[n].co != c)
    ensures Entered(es[k + 1], c, word)
    ensures evs[i].Reset? ==> es[k + 1].cos[c].stack == es[i].cos[c].stack
  {
    RenewsUnstarted(es, evs, word, c, i);
    UnstartedUntil(es, evs, word, c, i + 1, k);
    RunKeepsInv(es, evs, word, k);
    assert StepAt(es, evs, word, k);
    ResumeEnters(es[k], c, evs[k].sp, word);
    ResumeSwitches(es[k], c, evs[k].sp, word);
    assert SameKind(es[k].cos[c], es[k + 1].cos[c]);
  }

  /** Once a coroutine has ended it stays so, and cannot be resumed, until it is reset or freed. */
  lemma StaysEnded(e: Env, ev: Event, word: seq<Byte>, c: CoId)
    requires Inv(e) && Enabled(e, ev) && |word| == WORD && c in e.cos && ev != Free(c) && ev != Reset(c)
    requires e.cos[c].ended || (ev.End? && Running(e) == c)
    ensures c in Apply(e, ev, word).cos && Apply(e, ev, word).cos[c].ended
    ensures e.cos[c].ended ==> !(ev.Resume? && ev.co == c)
  {
    if !Quiet(ev) {
      SwitchEnded(e, ev, word, c);
    } else if ev.Reset? || ev.Free? {
      assert HasStack(e, ev.co);
      VacateEffect(e, ev.co);
      VacateEffect(e.(cos := e.cos[ev.co := e.cos[ev.co].(started := false, ended := false, saved := None)]), ev.co);
    }
  }

  lemma SwapEnded(e0: Env, next: CoId, c: CoId)
    requires CanDisplace(e0, next) && c in e0.cos
    ensures c in Displace(e0, next).cos && Displace(e0, next).cos[c].ended == e0.cos[c].ended
    ensures CanRestore(Displace(e0, next)) ==> Restore(Displace(e0, next)).cos == Displace(e0, next).cos
  {
    DisplaceEffect(e0, next);
  }

  lemma SwitchEnded(e: Env, ev: Event, word: seq<Byte>, c: CoId)
    requires Inv(e) && Enabled(e, ev) && |word| == WORD && !Quiet(ev) && c in e.cos
    ensures c in Apply(e, ev, word).cos && Apply(e, ev, word).cos[c].ended == e.cos[c].ended
  {
    if ev.Resume? {
      ResumeCanSwap(e, ev.co, ev.sp, word);
      SwapEnded(BeforeSwap(e, ev.co, ev.sp, word), ev.co, c);
    } else {
      YieldCanSwap(e, ev.sp);
      SwapEnded(BeforeYield(e, ev.sp), Running(BeforeYield(e, ev.sp)), c);
    }
  }

  // ------------------------------------------------------------- the library

  /** The thread's environment as libco updates it in place. */
  class Thread {
    var cos: map<CoId, Routine>
    var stacks: map<StackId, StackMem>
    var calls: seq<CoId>
    var pending: Option<CoId>
    var occupy: Option<CoId>

    ghost function State(): (e: Env)
      reads this
    {
      Env(cos, stacks, calls, pending, occupy)
    }

    constructor (main: CoId, mem: StackMem)
      requires Roomy(mem) && mem.occupant.None?
      ensures Initial(State()) && Inv(State())
    {
      cos := map[main := NewRoutine(Own(main), false).(isMain := true)];
      stacks := map[Own(main) := mem];
      calls := [main];
      pending, occupy := None, None;
      new;
      InitialInv(State());
    }

    /** `share` names the pool entry that `co_get_stackmem` handed out, if any. */
    method CoCreateEnv(co: CoId, share: Option<nat>, mem: StackMem)
      requires Inv(State())
      requires share.Some? ==> Enabled(State(), CreateShared(co, share.value))
      requires share.None? ==> Enabled(State(), CreatePrivate(co, mem))
      modifies this
      ensures forall word: seq<Byte> :: |word| == WORD ==>
                State() == Apply(old(State()),
                                 if share.Some? then CreateShared(co, share.value) else CreatePrivate(co, mem), word)
    {
      var stack := Own(co);
      if share.Some? {
        stack := Pool(share.value);
      } else {
        stacks := stacks[stack := mem];
      }
      cos := cos[co := Routine(stack, share.Some?, false, false, false, 0, None)];
    }

    method SaveStackBuffer(co: CoId)
      requires co in cos && cos[co].stack in stacks && cos[co].sp <= |stacks[cos[co].stack].buffer|
      modifies this`cos
      ensures State() == Save(old(State()), co)
    {
      var buffer := stacks[cos[co].stack].buffer;
      cos := cos[co := cos[co].(saved := None)];
      cos := cos[co := cos[co].(saved := Some(buffer[cos[co].sp..]))];
    }

    /** `co_swap`; `first` says that `next` starts at its entry point and so does not
        return into the second half. */
    method CoSwap(curr: CoId, next: CoId, sp: nat, first: bool)
      requires curr in cos && CanDisplace(MarkSp(State(), curr, sp), next)
      requires !first ==> CanRestore(Displace(MarkSp(State(), curr, sp), next))
      modifies this
      ensures var e1 := Displace(MarkSp(old(State()), curr, sp), next);
              State() == if first then e1 else Restore(e1)
    {
      cos := cos[curr := cos[curr].(sp := sp)];
      if !cos[next].shared {
        pending, occupy := None, None;
      } else {
        pending := Some(next);
        var s := cos[next].stack;
        var occ := stacks[s].occupant;
        stacks := stacks[s := stacks[s].(occupant := Some(next))];
        occupy := occ;
        if occ.Some? && occ.value != next {
          SaveStackBuffer(occ.value);
        }
      }
      if !first {
        if pending.Some? && occupy != pending {
          var r := cos[pending.value];
          if r.saved.Some? && |r.saved.value| > 0 {
            var b := stacks[r.stack].buffer;
            b := b[..r.sp] + r.saved.value + b[r.sp + |r.saved.value|..];
            stacks := stacks[r.stack := stacks[r.stack].(buffer := b)];
          }
        }
      }
    }

    method CoResume(co: CoId, sp: nat, word: seq<Byte>)
      requires Inv(State()) && Enabled(State(), Resume(co, sp)) && |word| == WORD
      modifies this
      ensures State() == AfterResume(old(State()), co, sp, word)
    {
      ghost var e := State();
      ResumeCanSwap(e, co, sp, word);
      var curr := calls[|calls| - 1];
      var first := !cos[co].started;
      if first {
        CoctxMake(co, word);
        cos := cos[co := cos[co].(started := true)];
      }
      calls := calls + [co];
      assert MarkSp(State(), curr, sp) == BeforeSwap(e, co, sp, word);
      CoSwap(curr, co, sp, first);
    }

    method CoctxMake(co: CoId, word: seq<Byte>)
      requires co in cos && cos[co].stack in stacks && Roomy(stacks[cos[co].stack]) && |word| == WORD
      modifies this`stacks
      ensures stacks == old(stacks)[cos[co].stack := old(stacks)[cos[co].stack].(buffer :=
                Overwrite(old(stacks)[cos[co].stack].buffer, BootAt(old(stacks)[cos[co].stack]), word))]
    {
      var m := stacks[cos[co].stack];
      var at := (m.base + |m.buffer| - WORD) / 16 * 16 - m.base;
      stacks := stacks[cos[co].stack := m.(buffer := m.buffer[..at] + word + m.buffer[at + WORD..])];
    }

    method CoYieldEnv(sp: nat)
      requires Inv(State()) && Enabled(State(), Yield(sp))
      modifies this
      ensures State() == AfterYield(old(State()), sp)
    {
      ghost var e := State();
      YieldCanSwap(e, sp);
      var last := calls[|calls| - 2];
      var curr := calls[|calls| - 1];
      calls := calls[..|calls| - 1];
      CoSwap(curr, last, sp, false);
    }

    method CoReset(co: CoId)
      requires co in cos && cos[co].stack in stacks
      modifies this
      ensures State() == AfterReset(old(State()), co)
    {
      if !cos[co].started || cos[co].isMain {
        return;
      }
      cos := cos[co := cos[co].(started := false, ended := false)];
      if cos[co].saved.Some? {
        cos := cos[co := cos[co].(saved := None)];
      }
      if occupy == Some(co) {
        occupy := None;
      }
      var s := cos[co].stack;
      if stacks[s].occupant == Some(co) {
        stacks := stacks[s := stacks[s].(occupant := None)];
      }
    }

    method CoFree(co: CoId)
      requires co in cos && cos[co].stack in stacks
      modifies this
      ensures State() == AfterFree(old(State()), co)
    {
      var s := cos[co].stack;
      if !cos[co].shared {
        stacks := stacks - {s};
      } else {
        if occupy == Some(co) {
          occupy := None;
        }
        if stacks[s].occupant == Some(co) {
          stacks := stacks[s := stacks[s].(occupant := None)];
        }
      }
      cos := cos - {co};
    }
  }
}
