/**
 The connection tables of a process (src/core/network.cpp): connections by id, and the id
 that owns each descriptor. The operating system hands out a descriptor number again as
 soon as it is free, so a connection can be created on a descriptor that an older, not yet
 closed connection still names.

 The tables are related to the log of what has happened: who was created on which
 descriptor, and who has been closed.
 */
module ConnTable {
  import opened Common
  import opened ServerLoop

  type Id = nat
  type Fd = int

  datatype Entry = Entry(fd: Fd, state: State)
  datatype Birth = Birth(id: Id, fd: Fd)

  /** A descriptor that was closed for a connection when the log had `when` births. */
  datatype Release = Release(id: Id, fd: Fd, when: nat)

  /** `seqNo`, `conns` and `owners` are the process's own; the rest is the log. */
  datatype Table = Table(
    seqNo: nat, conns: map<Id, Entry>, owners: map<Fd, Id>,
    births: seq<Birth>, ended: set<Id>, released: seq<Release>)

  const Empty := Table(0, map[], map[], [], {}, [])

  // ---------------------------------------------------------- the operations

  function Created(t: Table, fd: Fd, state: State): (r: Table) {
    var id := t.seqNo + 1;
    t.(seqNo := id, conns := t.conns[id := Entry(fd, state)], owners := t.owners[fd := id],
       births := t.births + [Birth(id, fd)])
  }

  predicate Owns(t: Table, id: Id) {
    id in t.conns && t.conns[id].fd in t.owners && t.owners[t.conns[id].fd] == id
  }

  /** Closing a connection closes its descriptor only if it still owns it. */
  function Closed(t: Table, id: Id): (r: Table) {
    if id !in t.conns then t
    else
      var fd := t.conns[id].fd;
      var gone := t.(conns := t.conns - {id}, ended := t.ended + {id});
      if Owns(t, id)
      then gone.(owners := t.owners - {fd}, released := t.released + [Release(id, fd, |t.births|)])
      else gone
  }

  predicate IsValid(t: Table, id: Id) {
    id in t.conns && !IsInvalid(t.conns[id].state) && Owns(t, id)
  }

  function StateSet(t: Table, id: Id, state: State): (r: Table) {
    if id in t.conns then t.(conns := t.conns[id := t.conns[id].(state := state)]) else t
  }

  datatype Event =
    | Create(fd: Fd, state: State) | Close(id: Id) | SetState(id: Id, state: State) | NewSeq

  function Apply(t: Table, e: Event): (r: Table) {
    match e
    case Create(fd, state) => Created(t, fd, state)
    case Close(id) => Closed(t, id)
    case SetState(id, state) => StateSet(t, id, state)
    case NewSeq => t.(seqNo := t.seqNo + 1)
  }

  function Run(t: Table, es: seq<Event>): (r: Table)
    decreases |es|
  {
    if es == [] then t else Run(Apply(t, es[0]), es[1..])
  }

  // ----------------------------------------------------- what the log says

  /** The connection created last on a descriptor. */
  function Latest(births: seq<Birth>, fd: Fd): (r: Option<Id>) {
    if births == [] then None
    else if Last(births).fd == fd then Some(Last(births).id)
    else Latest(DropLast(births), fd)
  }

  lemma LatestAppend(births: seq<Birth>, b: Birth, fd: Fd)
    ensures Latest(births + [b], fd) == if fd == b.fd then Some(b.id) else Latest(births, fd)
  {
    assert DropLast(births + [b]) == births && Last(births + [b]) == b;
  }

  /** The k-th birth is that of a connection which is listed unless it has been closed. */
  predicate BirthOk(t: Table, k: nat)
    requires k < |t.births|
  {
    var b := t.births[k];
    && b.id <= t.seqNo
    && (b.id in t.conns <==> b.id !in t.ended)
    && (b.id in t.conns ==> t.conns[b.id].fd == b.fd)
  }

  predicate EntryOk(t: Table, id: Id)
    requires id in t.conns
  {
    id <= t.seqNo && id !in t.ended && Birth(id, t.conns[id].fd) in t.births
  }

  /** A descriptor is owned by the last connection created on it, until that is closed. */
  predicate OwnerOk(t: Table, fd: Fd) {
    var last := Latest(t.births, fd);
    && (last.Some? ==> Birth(last.value, fd) in t.births)
    && if last.Some? && last.value !in t.ended then fd in t.owners && t.owners[fd] == last.value
       else fd !in t.owners
  }

  /** The descriptor was released for its owner of that time, which is closed since. */
  predicate ReleaseOk(t: Table, k: nat)
    requires k < |t.released|
  {
    var r := t.released[k];
    && r.when <= |t.births| && r.id in t.ended && Latest(t.births[..r.when], r.fd) == Some(r.id)
    && forall j :: 0 <= j < k ==> t.released[j].id != r.id
  }

  ghost predicate Inv(t: Table) {
    && (forall k: nat :: k < |t.births| ==> BirthOk(t, k))
    && (forall id :: id in t.conns ==> EntryOk(t, id))
    && (forall fd :: OwnerOk(t, fd))
    && (forall k: nat :: k < |t.released| ==> ReleaseOk(t, k))
    && (forall id :: id in t.ended ==> id <= t.seqNo)
  }

  lemma BirthEntry(t: Table, b: Birth)
    requires Inv(t) && b in t.births
    ensures b.id <= t.seqNo
    ensures b.id !in t.ended ==> b.id in t.conns && t.conns[b.id].fd == b.fd
  {
    var k: nat :| k < |t.births| && t.births[k] == b;
    assert BirthOk(t, k);
  }

  lemma CreateKeepsInv(t: Table, fd: Fd, state: State)
    requires Inv(t)
    ensures Inv(Created(t, fd, state))
  {
    var r := Created(t, fd, state);
    var b := Birth(t.seqNo + 1, fd);
    forall k: nat | k < |r.births| ensures BirthOk(r, k) {
      assert k < |t.births| ==> BirthOk(t, k);
    }
    forall id | id in r.conns ensures EntryOk(r, id) {
      assert id in t.conns ==> EntryOk(t, id);
      assert r.births[|t.births|] == b;
    }
    forall x ensures OwnerOk(r, x) {
      assert OwnerOk(t, x);
      LatestAppend(t.births, b, x);
      assert r.births[|t.births|] == b;
    }
    forall k: nat | k < |r.released| ensures ReleaseOk(r, k) {
      assert ReleaseOk(t, k);
      assert r.births[..t.released[k].when] == t.births[..t.released[k].when];
    }
  }

  lemma CloseOwners(t: Table, id: Id, fd: Fd)
    requires Inv(t) && id in t.conns
    ensures OwnerOk(Closed(t, id), fd)
  {
    assert OwnerOk(t, fd) && EntryOk(t, id) && OwnerOk(t, t.conns[id].fd);
    var last := Latest(t.births, fd);
    if last.Some? {
      BirthEntry(t, Birth(last.value, fd));
    }
  }

  lemma CloseKeepsInv(t: Table, id: Id)
    requires Inv(t)
    ensures Inv(Closed(t, id))
  {
    if id in t.conns {
      var r := Closed(t, id);
      assert EntryOk(t, id);
      forall k: nat | k < |r.births| ensures BirthOk(r, k) {
        assert BirthOk(t, k);
      }
      forall x | x in r.conns ensures EntryOk(r, x) {
        assert EntryOk(t, x);
      }
      forall fd ensures OwnerOk(r, fd) {
        CloseOwners(t, id, fd);
      }
      forall k: nat | k < |r.released| ensures ReleaseOk(r, k) {
        assert k < |t.released| ==> ReleaseOk(t, k);
        assert t.births[..|t.births|] == t.births;
        assert OwnerOk(t, t.conns[id].fd);
        forall j | 0 <= j < k ensures r.released[j].id != r.released[k].id {
          assert ReleaseOk(t, j);
        }
      }
    }
  }

  lemma SetStateKeepsInv(t: Table, id: Id, state: State)
    requires Inv(t)
    ensures Inv(StateSet(t, id, state))
  {
    var r := StateSet(t, id, state);
    forall k: nat | k < |r.births| ensures BirthOk(r, k) {
      assert BirthOk(t, k);
    }
    forall x | x in r.conns ensures EntryOk(r, x) {
      assert EntryOk(t, x);
    }
    forall fd ensures OwnerOk(r, fd) {
      assert OwnerOk(t, fd);
    }
    forall k: nat | k < |r.released| ensures ReleaseOk(r, k) {
      assert ReleaseOk(t, k);
    }
  }

  lemma NewSeqKeepsInv(t: Table)
    requires Inv(t)
    ensures Inv(t.(seqNo := t.seqNo + 1))
  {
    var r := t.(seqNo := t.seqNo + 1);
    forall k: nat | k < |r.births| ensures BirthOk(r, k) {
      assert BirthOk(t, k);
    }
    forall x | x in r.conns ensures EntryOk(r, x) {
      assert EntryOk(t, x);
    }
    forall fd ensures OwnerOk(r, fd) {
      assert OwnerOk(t, fd);
    }
    forall k: nat | k < |r.released| ensures ReleaseOk(r, k) {
      assert ReleaseOk(t, k);
    }
  }

  lemma StepKeepsInv(t: Table, e: Event)
    requires Inv(t)
    ensures Inv(Apply(t, e))
  {
    match e {
      case Create(fd, state) => CreateKeepsInv(t, fd, state);
      case Close(id) => CloseKeepsInv(t, id);
      case SetState(id, state) => SetStateKeepsInv(t, id, state);
      case NewSeq => NewSeqKeepsInv(t);
    }
  }

  lemma {:induction false} RunKeepsInv(t: Table, es: seq<Event>)
    requires Inv(t)
    ensures Inv(Run(t, es))
    decreases |es|
  {
    if es != [] {
      StepKeepsInv(t, es[0]);
      RunKeepsInv(Apply(t, es[0]), es[1..]);
    }
  }

  // ----------------------------------------------------------- the theorems

  /** Over every run, whatever descriptors the system hands out: a descriptor's owner is a
      listed connection on that descriptor; a connection is valid exactly if it is the last
      one created on its descriptor, has not been closed and is in a valid state; and a
      descriptor is closed only for the connection created last on it, at most once each. */
  lemma OwnershipUnderReuse(es: seq<Event>)
    ensures var t := Run(Empty, es);
            && (forall fd :: fd in t.owners ==> t.owners[fd] in t.conns && t.conns[t.owners[fd]].fd == fd)
            && (forall b :: b in t.births ==>
                  (IsValid(t, b.id) <==>
                   && Latest(t.births, b.fd) == Some(b.id) && b.id !in t.ended
                   && b.id in t.conns && !IsInvalid(t.conns[b.id].state)))
            && (forall k: nat :: k < |t.released| ==> ReleaseOk(t, k))
  {
    var t := Run(Empty, es);
    RunKeepsInv(Empty, es);
    forall fd | fd in t.owners ensures t.owners[fd] in t.conns && t.conns[t.owners[fd]].fd == fd {
      assert OwnerOk(t, fd);
      BirthEntry(t, Birth(t.owners[fd], fd));
    }
    forall b | b in t.births
      ensures IsValid(t, b.id) <==>
              && Latest(t.births, b.fd) == Some(b.id) && b.id !in t.ended
              && b.id in t.conns && !IsInvalid(t.conns[b.id].state)
    {
      BirthEntry(t, b);
      assert OwnerOk(t, b.fd);
      if b.id in t.conns {
        assert EntryOk(t, b.id);
      }
    }
  }

  /** A stale connection leaves the descriptor of its successor alone: closing it closes
      nothing and changes the validity of no other connection. */
  lemma StaleCloseIsHarmless(es: seq<Event>, id: Id, other: Id)
    requires id in Run(Empty, es).conns && other != id
    requires Latest(Run(Empty, es).births, Run(Empty, es).conns[id].fd) != Some(id)
    ensures var t := Run(Empty, es);
            var r := Closed(t, id);
            r.released == t.released && r.owners == t.owners && (IsValid(r, other) <==> IsValid(t, other))
  {
    var t := Run(Empty, es);
    RunKeepsInv(Empty, es);
    assert OwnerOk(t, t.conns[id].fd);
  }

  /** The descriptor is open for the connection created last on it, or has been closed for it. */
  predicate LeakOk(t: Table, fd: Fd) {
    var last := Latest(t.births, fd);
    last.Some? && last.value in t.ended ==> WasReleased(t, last.value, fd)
  }

  predicate WasReleased(t: Table, id: Id, fd: Fd) {
    exists k :: 0 <= k < |t.released| && t.released[k].id == id && t.released[k].fd == fd
  }

  lemma CloseLeaks(t: Table, id: Id, fd: Fd)
    requires Inv(t) && id in t.conns && LeakOk(t, fd)
    ensures LeakOk(Closed(t, id), fd)
  {
    var r, last := Closed(t, id), Latest(t.births, fd);
    assert OwnerOk(t, fd) && EntryOk(t, id);
    if last == Some(id) {
      BirthEntry(t, Birth(id, fd));
      assert r.released[|t.released|] == Release(id, fd, |t.births|);
    } else if last.Some? && last.value in t.ended {
      var k :| 0 <= k < |t.released| && t.released[k].id == last.value && t.released[k].fd == fd;
      assert r.released[k] == t.released[k];
    }
  }

  lemma StepLeaks(t: Table, e: Event, fd: Fd)
    requires Inv(t) && LeakOk(t, fd)
    ensures LeakOk(Apply(t, e), fd)
  {
    if e.Create? {
      LatestAppend(t.births, Birth(t.seqNo + 1, e.fd), fd);
      assert t.seqNo + 1 !in t.ended;
    } else if e.Close? && e.id in t.conns {
      CloseLeaks(t, e.id, fd);
    }
  }

  lemma {:induction false} RunLeaks(t: Table, es: seq<Event>, fd: Fd)
    requires Inv(t) && LeakOk(t, fd)
    ensures LeakOk(Run(t, es), fd)
    decreases |es|
  {
    if es != [] {
      StepKeepsInv(t, es[0]);
      StepLeaks(t, es[0], fd);
      RunLeaks(Apply(t, es[0]), es[1..], fd);
    }
  }

  /** No descriptor leaks: over every run, the connection created last on a descriptor is listed as
      its owner, or the descriptor has been closed for it. */
  lemma NoLeak(es: seq<Event>, fd: Fd)
    ensures var t := Run(Empty, es);
            var last := Latest(t.births, fd);
            last.Some? ==> (fd in t.owners && t.owners[fd] == last.value) || WasReleased(t, last.value, fd)
  {
    var t := Run(Empty, es);
    RunKeepsInv(Empty, es);
    RunLeaks(Empty, es, fd);
    assert OwnerOk(t, fd);
  }

  /** What happens to a connection from its creation on: its state, whether it is closed, and
      whether another one is created on its descriptor. */
  function StateAfter(es: seq<Event>, id: Id, state: State): (r: State)
    decreases |es|
  {
    if es == [] then state
    else StateAfter(es[1..], id, if es[0].SetState? && es[0].id == id then es[0].state else state)
  }

  predicate Reuses(es: seq<Event>, fd: Fd) {
    exists k :: 0 <= k < |es| && es[k].Create? && es[k].fd == fd
  }

  predicate Follows(t: Table, id: Id, fd: Fd, state: State, closed: bool, reused: bool) {
    && id <= t.seqNo
    && (closed ==> id !in t.conns)
    && (!closed ==> id in t.conns && t.conns[id] == Entry(fd, state))
    && (!closed && !reused ==> fd in t.owners && t.owners[fd] == id)
    && (reused && fd in t.owners ==> t.owners[fd] != id)
  }

  lemma {:induction false} FollowsRun(
    t: Table, es: seq<Event>, id: Id, fd: Fd, state: State, closed: bool, reused: bool)
    requires Follows(t, id, fd, state, closed, reused)
    ensures Follows(Run(t, es), id, fd, StateAfter(es, id, state), closed || Close(id) in es, reused || Reuses(es, fd))
    decreases |es|
  {
    if es != [] {
      var e, rest := es[0], es[1..];
      assert es == [e] + rest;
      assert Reuses(es, fd) <==> (e.Create? && e.fd == fd) || Reuses(rest, fd) by {
        assert Reuses(rest, fd) ==> exists k :: 0 <= k < |es| && k > 0 && es[k].Create? && es[k].fd == fd by {
          if k :| 0 <= k < |rest| && rest[k].Create? && rest[k].fd == fd {
            assert es[k + 1] == rest[k];
          }
        }
        if k :| 0 <= k < |es| && es[k].Create? && es[k].fd == fd {
          assert k > 0 ==> rest[k - 1] == es[k];
        }
      }
      FollowsRun(Apply(t, e), rest, id, fd,
                 if e.SetState? && e.id == id then e.state else state,
                 closed || e == Close(id), reused || (e.Create? && e.fd == fd));
    }
  }

  /** A new connection is valid exactly until it is closed, another one is created on its
      descriptor, or its state is set to one that is not valid. */
  lemma ValidUntil(before: seq<Event>, fd: Fd, state: State, es: seq<Event>)
    ensures var t := Created(Run(Empty, before), fd, state);
            var id := t.seqNo;
            IsValid(Run(t, es), id) <==>
              Close(id) !in es && !Reuses(es, fd) && !IsInvalid(StateAfter(es, id, state))
  {
    var t := Created(Run(Empty, before), fd, state);
    FollowsRun(t, es, t.seqNo, fd, state, false, false);
  }

  // ------------------------------------------------------------- the object

  class Network {
    var seqNo: nat
    var conns: map<Id, Entry>
    var fdConns: map<Fd, Id>
    ghost var births: seq<Birth>
    ghost var ended: set<Id>
    ghost var released: seq<Release>

    ghost function Value(): (t: Table)
      reads this
    {
      Table(seqNo, conns, fdConns, births, ended, released)
    }

    constructor ()
      ensures Value() == Empty
    {
      seqNo, conns, fdConns := 0, map[], map[];
      births, ended, released := [], {}, [];
    }

    /** `create_conn` in its two forms, which leave the connection in `state`. */
    method CreateConn(fd: Fd, state: State) returns (id: Id)
      modifies this
      ensures Value() == Created(old(Value()), fd, state) && id == seqNo
    {
      seqNo := seqNo + 1;
      id := seqNo;
      conns := conns[id := Entry(fd, state)];
      fdConns := fdConns[fd := id];
      births := births + [Birth(id, fd)];
    }

    /** `close_conn`; `freed` is the descriptor passed to `close`. */
    method CloseConn(id: Id) returns (found: bool, freed: Option<Fd>)
      modifies this
      ensures Value() == Closed(old(Value()), id) && found == (id in old(conns))
      ensures freed == if Owns(old(Value()), id) then Some(old(conns)[id].fd) else None
    {
      freed := None;
      if id !in conns {
        return false, None;
      }
      var fd := conns[id].fd;
      conns, ended := conns - {id}, ended + {id};
      if fd in fdConns && fdConns[fd] == id {
        fdConns := fdConns - {fd};
        freed := Some(fd);
        released := released + [Release(id, fd, |births|)];
      }
      return true, freed;
    }

    method IsValidConn(id: Id) returns (valid: bool)
      ensures valid == IsValid(Value(), id)
    {
      if id !in conns || IsInvalid(conns[id].state) {
        return false;
      }
      var fd := conns[id].fd;
      if fd !in fdConns {
        return false;
      }
      return fdConns[fd] == id;
    }

    /** `update_conn_state`, and a holder setting the state of a listed connection. */
    method UpdateConnState(id: Id, state: State) returns (found: bool)
      modifies this`conns
      ensures Value() == StateSet(old(Value()), id, state) && found == (id in old(conns))
    {
      if id !in conns {
        return false;
      }
      conns := conns[id := conns[id].(state := state)];
      return true;
    }
  }
}
