/**
 The registry of remote nodes (src/core/nodes.cpp): the ZooKeeper nodes by path, the path
 that owns each host, the workers they stand for, and a ring of workers for each node type.
 The ring points of a worker are an arbitrary function of its id.
 */
module Registry {
  import opened Common
  import opened Ring

  const TWO_31 := 0x8000_0000
  const TWO_32 := 0x1_0000_0000

  type U32 = x: int | 0 <= x < TWO_32

  datatype ZkNode = ZkNode(path: string, host: string, port: U32, kind: string, workers: nat, active: nat, extra: int)

  datatype Node = Node(id: string, kind: string, host: string, port: U32, worker: nat, points: seq<Point>)

  datatype State = State(
    hostPaths: map<string, string>, zk: map<string, ZkNode>,
    nodes: map<string, Node>, rings: map<string, Ring<Node>>)

  const Empty := State(map[], map[], map[], map[])

  /** How hosts and workers are named, and where workers are put on the ring. */
  datatype Names =
    Names(host: (string, U32) -> string, id: (string, U32, nat) -> string, points: string -> seq<Point>)

  // ------------------------------------------------------------------ names

  /** What `snprintf` leaves of a text in a buffer of `room` bytes. */
  function Cut(s: string, room: nat): (r: string) {
    if |s| < room || room == 0 then s else s[..room - 1]
  }

  /** An unsigned number as `%d` prints it. */
  function Signed(n: U32): (s: string) {
    if n < TWO_31 then Decimal(n) else "-" + Decimal(TWO_32 - n)
  }

  function HostText(host: string, port: U32): (s: string) {
    host + ":" + Signed(port)
  }

  function IdText(host: string, port: U32, worker: nat): (s: string) {
    HostText(host, port) + "." + Decimal(worker)
  }

  function HostOf(host: string, port: U32): (s: string) {
    Cut(HostText(host, port), 256)
  }

  function IdOf(host: string, port: U32, worker: nat): (s: string) {
    Cut(IdText(host, port, worker), 128)
  }

  /** A name is as much of its text as fits before the terminating byte. */
  lemma NamesFit(host: string, port: U32, worker: nat)
    ensures var h, t := HostOf(host, port), HostText(host, port);
            h <= t && |h| == Min(|t|, 255)
    ensures var i, t := IdOf(host, port, worker), IdText(host, port, worker);
            i <= t && |i| == Min(|t|, 127)
  {
  }

  /** So all workers of a host whose name takes up the room have the same id. */
  lemma CutIdsCollide(host: string, port: U32, w1: nat, w2: nat)
    requires 127 <= |HostText(host, port)|
    ensures IdOf(host, port, w1) == IdOf(host, port, w2)
  {
    var t := HostText(host, port);
    assert IdText(host, port, w1)[..127] == t[..127] == IdText(host, port, w2)[..127];
  }

  /** The id of the worker is not cut, and so neither is the name of the host. */
  predicate Short(host: string, port: U32, worker: nat) {
    |IdText(host, port, worker)| < 128
  }

  lemma ShortDown(host: string, port: U32, j: nat, k: nat)
    requires j <= k && Short(host, port, k)
    ensures Short(host, port, j)
  {
    DecimalLength(j, k);
  }

  lemma {:induction false} DecimalLength(m: nat, n: nat)
    requires m <= n
    ensures |Decimal(m)| <= |Decimal(n)|
  {
    if 10 <= m {
      DecimalLength(m / 10, n / 10);
    }
  }

  lemma NotInDecimal(n: nat, c: char)
    requires !IsDigit(c)
    ensures c !in Decimal(n)
  {
  }

  lemma SignedInjective(a: U32, b: U32)
    requires Signed(a) == Signed(b)
    ensures a == b
  {
    NotInDecimal(a, '-');
    NotInDecimal(b, '-');
    assert a < TWO_31 <==> Signed(a)[0] != '-';
    assert b < TWO_31 <==> Signed(b)[0] != '-';
    if a < TWO_31 {
      DecimalInjective(a, b);
    } else {
      assert Signed(a)[1..] == Decimal(TWO_32 - a) && Signed(b)[1..] == Decimal(TWO_32 - b);
      DecimalInjective(TWO_32 - a, TWO_32 - b);
    }
  }

  lemma HostTextInjective(h1: string, p1: U32, h2: string, p2: U32)
    requires HostText(h1, p1) == HostText(h2, p2)
    ensures h1 == h2 && p1 == p2
  {
    NotInDecimal(p1, ':');
    NotInDecimal(p2, ':');
    assert p1 >= TWO_31 ==> ':' !in Decimal(TWO_32 - p1);
    assert p2 >= TWO_31 ==> ':' !in Decimal(TWO_32 - p2);
    SplitUnique(h1, Signed(p1), h2, Signed(p2), ':');
    SignedInjective(p1, p2);
  }

  /** Different hosts have different names, as long as these are not cut. */
  lemma HostInjective(h1: string, p1: U32, h2: string, p2: U32)
    requires |HostText(h1, p1)| < 256 && |HostText(h2, p2)| < 256 && HostOf(h1, p1) == HostOf(h2, p2)
    ensures h1 == h2 && p1 == p2
  {
    HostTextInjective(h1, p1, h2, p2);
  }

  /** Different workers have different ids, as long as these are not cut. */
  lemma IdInjective(h1: string, p1: U32, w1: nat, h2: string, p2: U32, w2: nat)
    requires Short(h1, p1, w1) && Short(h2, p2, w2) && IdOf(h1, p1, w1) == IdOf(h2, p2, w2)
    ensures h1 == h2 && p1 == p2 && w1 == w2
  {
    NotInDecimal(w1, '.');
    NotInDecimal(w2, '.');
    SplitUnique(HostText(h1, p1), Decimal(w1), HostText(h2, p2), Decimal(w2), '.');
    DecimalInjective(w1, w2);
    HostTextInjective(h1, p1, h2, p2);
  }

  /** The names of the code, with any placement of workers. */
  function Formatted(points: string -> seq<Point>): (e: Names) {
    Names(HostOf, IdOf, points)
  }

  /** Names that do not mix up short hosts and workers. */
  ghost predicate Distinctive(e: Names) {
    && (forall h1, p1: U32, h2, p2: U32 ::
          Short(h1, p1, 0) && Short(h2, p2, 0) && e.host(h1, p1) == e.host(h2, p2) ==> h1 == h2 && p1 == p2)
    && (forall h1, p1: U32, w1: nat, h2, p2: U32, w2: nat ::
          Short(h1, p1, w1) && Short(h2, p2, w2) && e.id(h1, p1, w1) == e.id(h2, p2, w2) ==>
          h1 == h2 && p1 == p2 && w1 == w2)
  }

  lemma FormattedDistinctive(points: string -> seq<Point>)
    ensures Distinctive(Formatted(points))
  {
    var e := Formatted(points);
    forall h1, p1: U32, h2, p2: U32 | Short(h1, p1, 0) && Short(h2, p2, 0) && e.host(h1, p1) == e.host(h2, p2)
      ensures h1 == h2 && p1 == p2
    {
      HostInjective(h1, p1, h2, p2);
    }
    forall h1, p1: U32, w1: nat, h2, p2: U32, w2: nat
      | Short(h1, p1, w1) && Short(h2, p2, w2) && e.id(h1, p1, w1) == e.id(h2, p2, w2)
      ensures h1 == h2 && p1 == p2 && w1 == w2
    {
      IdInjective(h1, p1, w1, h2, p2, w2);
    }
  }

  // ---------------------------------------------------------------- workers

  function RingOf(s: State, kind: string): (r: Ring<Node>) {
    if kind in s.rings then s.rings[kind] else map[]
  }

  function NodeFor(z: ZkNode, worker: nat, e: Names): (n: Node) {
    var id := e.id(z.host, z.port, worker);
    Node(id, z.kind, z.host, z.port, worker, e.points(id))
  }

  /** `add_node`. */
  function NodeAdded(s: State, z: ZkNode, worker: nat, e: Names): (t: State) {
    var n := NodeFor(z, worker, e);
    if n.id in s.nodes then s
    else
      var ring := Added(RingOf(s, z.kind), n, n.points);
      var filled := s.(rings := s.rings[z.kind := ring]);
      if ring.Keys == RingOf(s, z.kind).Keys then filled else filled.(nodes := s.nodes[n.id := n])
  }

  /** `del_node`. */
  function NodeDeleted(s: State, id: string): (t: State) {
    if id !in s.nodes then s
    else
      var n := s.nodes[id];
      s.(nodes := s.nodes - {id},
         rings := if n.kind in s.rings then s.rings[n.kind := Erased(s.rings[n.kind], n.points)] else s.rings)
  }

  function NodesAdded(s: State, z: ZkNode, k: nat, e: Names): (t: State) {
    if k == 0 then s else NodeAdded(NodesAdded(s, z, k - 1, e), z, k, e)
  }

  function NodesDeleted(s: State, z: ZkNode, k: nat, e: Names): (t: State) {
    if k == 0 then s else NodeDeleted(NodesDeleted(s, z, k - 1, e), e.id(z.host, z.port, k))
  }

  // --------------------------------------------------------- zookeeper nodes

  predicate IsValidZk(z: ZkNode) {
    z.path != "" && z.host != "" && z.port != 0 && z.kind != "" && z.workers != 0 && z.active != 0
  }

  function ZkDeleted(s: State, path: string, e: Names): (t: State) {
    if path !in s.zk then s
    else
      var z := s.zk[path];
      var d := NodesDeleted(s, z, z.workers, e);
      d.(hostPaths := d.hostPaths - {e.host(z.host, z.port)}, zk := d.zk - {path})
  }

  /** `check_zk_node_host`: a host belongs to the newest path that claims it. */
  function HostChecked(s: State, z: ZkNode, e: Names): (r: (bool, State)) {
    var h := e.host(z.host, z.port);
    if h !in s.hostPaths then (true, s)
    else if s.hostPaths[h] !in s.zk then (true, s.(hostPaths := s.hostPaths - {h}))
    else
      var holder := s.zk[s.hostPaths[h]];
      if z.path == holder.path then (true, s)
      else if z.active <= holder.active then (false, s)
      else (true, ZkDeleted(s, holder.path, e))
  }

  /** The update branch. It looks at the old node only after the new one has taken its place,
      so that what it deletes are workers of the new one, and not the last of these. */
  function ZkUpdated(s: State, z: ZkNode, e: Names): (t: State)
    requires 0 < z.workers
  {
    NodesAdded(NodesDeleted(s.(zk := s.zk[z.path := z]), z, z.workers - 1, e), z, z.workers, e)
  }

  function Claimed(s: State, z: ZkNode, e: Names): (t: State) {
    s.(hostPaths := s.hostPaths[e.host(z.host, z.port) := z.path])
  }

  /** `add_zk_node`. */
  function ZkAdded(s: State, z: ZkNode, e: Names): (t: State) {
    if !IsValidZk(z) then s
    else
      var checked := HostChecked(s, z, e);
      var c := checked.1;
      if !checked.0 then s
      else if z.path !in c.zk then Claimed(NodesAdded(c.(zk := c.zk[z.path := z]), z, z.workers, e), z, e)
      else if c.zk[z.path] != z then Claimed(ZkUpdated(c, z, e), z, e)
      else Claimed(c, z, e)
  }

  /** The host belongs to another path that is at least as new. */
  predicate Refused(s: State, z: ZkNode, e: Names) {
    var h := e.host(z.host, z.port);
    && h in s.hostPaths && s.hostPaths[h] in s.zk
    && s.zk[s.hostPaths[h]].path != z.path && z.active <= s.zk[s.hostPaths[h]].active
  }

  lemma {:induction false} DeletedKeepMaps(s: State, z: ZkNode, k: nat, e: Names)
    ensures NodesDeleted(s, z, k, e).zk == s.zk && NodesDeleted(s, z, k, e).hostPaths == s.hostPaths
  {
    if k > 0 {
      DeletedKeepMaps(s, z, k - 1, e);
    }
  }

  /** Every valid node is registered under its path and its host, unless the host is held by a newer
      one: then nothing changes. Of the other paths only the former holder of the host goes. */
  lemma AddRegisters(s: State, z: ZkNode, e: Names)
    ensures var t, h := ZkAdded(s, z, e), e.host(z.host, z.port);
            if !IsValidZk(z) || Refused(s, z, e) then t == s
            else
              && z.path in t.zk && t.zk[z.path] == z && h in t.hostPaths && t.hostPaths[h] == z.path
              && (forall p :: p in t.zk && p != z.path ==> p in s.zk && t.zk[p] == s.zk[p])
              && (forall p :: p in s.zk && p !in t.zk ==>
                    h in s.hostPaths && s.hostPaths[h] in s.zk && p == s.zk[s.hostPaths[h]].path)
  {
    if IsValidZk(z) && !Refused(s, z, e) {
      CheckedMaps(s, z, e);
      AddedMaps(s, z, e);
    }
  }

  lemma AddedMaps(s: State, z: ZkNode, e: Names)
    requires IsValidZk(z) && HostChecked(s, z, e).0
    ensures var c, t := HostChecked(s, z, e).1, ZkAdded(s, z, e);
            t.zk == c.zk[z.path := z] && t.hostPaths == c.hostPaths[e.host(z.host, z.port) := z.path]
  {
    var c := HostChecked(s, z, e).1;
    if z.path !in c.zk {
      NodesAddedKeepMaps(c.(zk := c.zk[z.path := z]), z, z.workers, e);
    } else if c.zk[z.path] != z {
      UpdatedMaps(c, z, e);
    } else {
      assert c.zk[z.path := z] == c.zk;
    }
  }

  lemma UpdatedMaps(c: State, z: ZkNode, e: Names)
    requires 0 < z.workers
    ensures ZkUpdated(c, z, e).zk == c.zk[z.path := z] && ZkUpdated(c, z, e).hostPaths == c.hostPaths
  {
    var d := c.(zk := c.zk[z.path := z]);
    DeletedKeepMaps(d, z, z.workers - 1, e);
    NodesAddedKeepMaps(NodesDeleted(d, z, z.workers - 1, e), z, z.workers, e);
  }

  lemma CheckedMaps(s: State, z: ZkNode, e: Names)
    ensures var (ok, c) := HostChecked(s, z, e);
            var h := e.host(z.host, z.port);
            && (ok <==> !Refused(s, z, e))
            && (forall p :: p in c.zk ==> p in s.zk && c.zk[p] == s.zk[p])
            && (forall p :: p in s.zk && p !in c.zk ==>
                  h in s.hostPaths && s.hostPaths[h] in s.zk && p == s.zk[s.hostPaths[h]].path)
  {
    var h := e.host(z.host, z.port);
    if h in s.hostPaths && s.hostPaths[h] in s.zk {
      var holder := s.zk[s.hostPaths[h]];
      if holder.path in s.zk {
        var y := s.zk[holder.path];
        DeletedKeepMaps(s, y, y.workers, e);
      }
    }
  }

  datatype Event = Add(z: ZkNode) | Del(path: string)

  function Apply(s: State, ev: Event, e: Names): (t: State) {
    match ev
    case Add(z) => ZkAdded(s, z, e)
    case Del(path) => ZkDeleted(s, path, e)
  }

  function Run(s: State, es: seq<Event>, e: Names): (t: State)
    decreases |es|
  {
    if es == [] then s else Run(Apply(s, es[0], e), es[1..], e)
  }

  // ------------------------------------------------- every run: sound rings

  /** A ring entry is a live worker of that type that lists the point. */
  predicate EntryOk(s: State, kind: string, p: Point)
    requires kind in s.rings && p in s.rings[kind]
  {
    var n := s.rings[kind][p];
    n.id in s.nodes && s.nodes[n.id] == n && n.kind == kind && p in n.points
  }

  ghost predicate Sound(s: State) {
    && (forall kind, p {:trigger EntryOk(s, kind, p)} ::
          kind in s.rings && p in s.rings[kind] ==> EntryOk(s, kind, p))
    && (forall id :: id in s.nodes ==> s.nodes[id].id == id)
  }

  lemma NodeAddedEntry(s: State, z: ZkNode, worker: nat, e: Names, p: Point)
    requires Sound(s) && NodeFor(z, worker, e).id !in s.nodes
    requires p in RingOf(NodeAdded(s, z, worker, e), z.kind)
    ensures EntryOk(NodeAdded(s, z, worker, e), z.kind, p)
  {
    var n, ring := NodeFor(z, worker, e), RingOf(s, z.kind);
    if p in ring.Keys {
      assert EntryOk(s, z.kind, p);
    } else {
      assert p in n.points;
    }
  }

  lemma NodeAddedSound(s: State, z: ZkNode, worker: nat, e: Names)
    requires Sound(s)
    ensures Sound(NodeAdded(s, z, worker, e))
  {
    var t := NodeAdded(s, z, worker, e);
    if NodeFor(z, worker, e).id !in s.nodes {
      forall kind, p | kind in t.rings && p in t.rings[kind] ensures EntryOk(t, kind, p) {
        if kind == z.kind {
          NodeAddedEntry(s, z, worker, e, p);
        } else {
          assert EntryOk(s, kind, p);
        }
      }
    }
  }

  lemma NodeDeletedSound(s: State, id: string)
    requires Sound(s)
    ensures Sound(NodeDeleted(s, id))
  {
    var t := NodeDeleted(s, id);
    forall kind, p | kind in t.rings && p in t.rings[kind] ensures EntryOk(t, kind, p) {
      assert EntryOk(s, kind, p);
    }
  }

  lemma {:induction false} NodesAddedSound(s: State, z: ZkNode, k: nat, e: Names)
    requires Sound(s)
    ensures Sound(NodesAdded(s, z, k, e))
  {
    if k > 0 {
      NodesAddedSound(s, z, k - 1, e);
      NodeAddedSound(NodesAdded(s, z, k - 1, e), z, k, e);
    }
  }

  lemma {:induction false} NodesDeletedSound(s: State, z: ZkNode, k: nat, e: Names)
    requires Sound(s)
    ensures Sound(NodesDeleted(s, z, k, e))
  {
    if k > 0 {
      NodesDeletedSound(s, z, k - 1, e);
      NodeDeletedSound(NodesDeleted(s, z, k - 1, e), e.id(z.host, z.port, k));
    }
  }

  /** The paths and hosts have no part in it. */
  lemma SameRingsSound(s: State, t: State)
    requires Sound(s) && t.nodes == s.nodes && t.rings == s.rings
    ensures Sound(t)
  {
    forall kind, p | kind in t.rings && p in t.rings[kind] ensures EntryOk(t, kind, p) {
      assert EntryOk(s, kind, p);
    }
  }

  lemma ZkDeletedSound(s: State, path: string, e: Names)
    requires Sound(s)
    ensures Sound(ZkDeleted(s, path, e))
  {
    if path in s.zk {
      var z := s.zk[path];
      NodesDeletedSound(s, z, z.workers, e);
      SameRingsSound(NodesDeleted(s, z, z.workers, e), ZkDeleted(s, path, e));
    }
  }

  lemma HostCheckedSound(s: State, z: ZkNode, e: Names)
    requires Sound(s)
    ensures Sound(HostChecked(s, z, e).1)
  {
    var h := e.host(z.host, z.port);
    if h in s.hostPaths {
      SameRingsSound(s, s.(hostPaths := s.hostPaths - {h}));
      if s.hostPaths[h] in s.zk {
        ZkDeletedSound(s, s.zk[s.hostPaths[h]].path, e);
      }
    }
  }

  lemma ZkAddedSound(s: State, z: ZkNode, e: Names)
    requires Sound(s)
    ensures Sound(ZkAdded(s, z, e))
  {
    if IsValidZk(z) && HostChecked(s, z, e).0 {
      var c, t := HostChecked(s, z, e).1, ZkAdded(s, z, e);
      HostCheckedSound(s, z, e);
      var stored := c.(zk := c.zk[z.path := z]);
      SameRingsSound(c, stored);
      if z.path !in c.zk {
        NodesAddedSound(stored, z, z.workers, e);
        SameRingsSound(NodesAdded(stored, z, z.workers, e), t);
      } else if c.zk[z.path] != z {
        var k: nat := z.workers - 1;
        NodesDeletedSound(stored, z, k, e);
        NodesAddedSound(NodesDeleted(stored, z, k, e), z, z.workers, e);
        SameRingsSound(ZkUpdated(c, z, e), t);
      } else {
        SameRingsSound(c, t);
      }
    }
  }

  lemma {:induction false} SoundUntil(s: State, es: seq<Event>, e: Names)
    requires Sound(s)
    ensures Sound(Run(s, es, e))
    decreases |es|
  {
    if es != [] {
      match es[0] {
        case Add(z) => ZkAddedSound(s, z, e);
        case Del(path) => ZkDeletedSound(s, path, e);
      }
      SoundUntil(Apply(s, es[0], e), es[1..], e);
    }
  }

  /** In every reachable state, whatever is added and deleted and however points collide, each
      ring entry is a live worker of the ring's type that lists the point. */
  lemma RingsAlwaysSound(es: seq<Event>, e: Names)
    ensures Sound(Run(Empty, es, e))
  {
    SoundUntil(Empty, es, e);
  }

  // ----------------------------- no collisions: workers keep their points

  /** The points of the workers in `ids` do not collide, and each worker has some. */
  ghost predicate Apart(ids: set<string>, e: Names) {
    && (forall a :: a in ids ==> e.points(a) != [])
    && (forall a, b, p :: a in ids && b in ids && p in e.points(a) && p in e.points(b) ==> a == b)
  }

  /** A worker is one of `ids`, and all its points are its own. */
  predicate NodeFull(s: State, id: string, ids: set<string>, e: Names)
    requires id in s.nodes
  {
    var n := s.nodes[id];
    && id in ids && n.points == e.points(id)
    && forall p :: p in n.points ==> p in RingOf(s, n.kind) && RingOf(s, n.kind)[p] == n
  }

  ghost predicate Full(s: State, ids: set<string>, e: Names) {
    Sound(s) && forall id {:trigger NodeFull(s, id, ids, e)} :: id in s.nodes ==> NodeFull(s, id, ids, e)
  }

  /** The points of a worker that is not there are free. */
  lemma PointsFree(s: State, id: string, kind: string, p: Point, ids: set<string>, e: Names)
    requires Full(s, ids, e) && Apart(ids, e) && id in ids && id !in s.nodes && p in e.points(id)
    ensures p !in RingOf(s, kind)
  {
    if kind in s.rings && p in s.rings[kind] {
      TakenBy(s, kind, p, ids, e);
    }
  }

  lemma TakenBy(s: State, kind: string, p: Point, ids: set<string>, e: Names)
    requires Full(s, ids, e) && kind in s.rings && p in s.rings[kind]
    ensures var n := s.rings[kind][p];
            n.id in s.nodes && n.id in ids && p in e.points(n.id)
  {
    assert EntryOk(s, kind, p);
    assert NodeFull(s, s.rings[kind][p].id, ids, e);
  }

  /** Adding a worker succeeds and leaves the others alone. */
  lemma NodeAddedFull(s: State, z: ZkNode, worker: nat, ids: set<string>, e: Names)
    requires Full(s, ids, e) && Apart(ids, e) && e.id(z.host, z.port, worker) in ids
    ensures var t, n := NodeAdded(s, z, worker, e), NodeFor(z, worker, e);
            && Full(t, ids, e) && t.hostPaths == s.hostPaths && t.zk == s.zk
            && t.nodes == if n.id in s.nodes then s.nodes else s.nodes[n.id := n]
  {
    var t, n, ring := NodeAdded(s, z, worker, e), NodeFor(z, worker, e), RingOf(s, z.kind);
    NodeAddedSound(s, z, worker, e);
    if n.id !in s.nodes {
      var r := Added(ring, n, n.points);
      forall p | p in n.points ensures p !in ring && p in r && r[p] == n {
        PointsFree(s, n.id, z.kind, p, ids, e);
      }
      assert n.points[0] in n.points;
      assert n.points[0] in r.Keys && n.points[0] !in ring.Keys;
      forall id | id in t.nodes ensures NodeFull(t, id, ids, e) {
        if id != n.id {
          assert NodeFull(s, id, ids, e);
        }
      }
    }
  }

  lemma NodeDeletedFull(s: State, id: string, ids: set<string>, e: Names)
    requires Full(s, ids, e) && Apart(ids, e)
    ensures var t := NodeDeleted(s, id);
            Full(t, ids, e) && t.hostPaths == s.hostPaths && t.zk == s.zk && t.nodes == s.nodes - {id}
  {
    var t := NodeDeleted(s, id);
    NodeDeletedSound(s, id);
    if id in s.nodes {
      assert NodeFull(s, id, ids, e);
      forall x | x in t.nodes ensures NodeFull(t, x, ids, e) {
        assert NodeFull(s, x, ids, e);
      }
    } else {
      assert s.nodes - {id} == s.nodes;
    }
  }

  /** The paths and hosts have no part in it. */
  lemma SameFull(s: State, t: State, ids: set<string>, e: Names)
    requires Full(s, ids, e) && t.nodes == s.nodes && t.rings == s.rings
    ensures Full(t, ids, e)
  {
    SameRingsSound(s, t);
    forall id | id in t.nodes ensures NodeFull(t, id, ids, e) {
      assert NodeFull(s, id, ids, e);
    }
  }

  function Ids(z: ZkNode, k: nat, e: Names): (ids: set<string>) {
    if k == 0 then {} else Ids(z, k - 1, e) + {e.id(z.host, z.port, k)}
  }

  /** A worker of `z` with an index up to k. */
  predicate WorkerOf(n: Node, z: ZkNode, k: nat, e: Names) {
    && n.host == z.host && n.port == z.port && n.kind == z.kind && 1 <= n.worker <= k
    && n.id == e.id(z.host, z.port, n.worker)
  }

  /** What adding the workers of a node comes to. */
  predicate Extends(was: map<string, Node>, now: map<string, Node>, z: ZkNode, k: nat, e: Names) {
    && now.Keys == was.Keys + Ids(z, k, e)
    && (forall id :: id in was ==> now[id] == was[id])
    && (forall id :: id in now && id !in was ==> WorkerOf(now[id], z, k, e))
  }

  lemma ExtendsMore(was: map<string, Node>, now: map<string, Node>, z: ZkNode, k: nat, e: Names)
    requires 0 < k && Extends(was, now, z, k - 1, e)
    ensures var n := NodeFor(z, k, e);
            Extends(was, if n.id in now then now else now[n.id := n], z, k, e)
  {
    forall id | id in now && id !in was ensures WorkerOf(now[id], z, k, e) {
      assert WorkerOf(now[id], z, k - 1, e);
    }
  }

  lemma {:induction false} NodesAddedFull(s: State, z: ZkNode, k: nat, ids: set<string>, e: Names)
    requires Full(s, ids, e) && Apart(ids, e) && Ids(z, k, e) <= ids
    ensures var t := NodesAdded(s, z, k, e);
            Full(t, ids, e) && t.hostPaths == s.hostPaths && t.zk == s.zk && Extends(s.nodes, t.nodes, z, k, e)
  {
    if k > 0 {
      var t := NodesAdded(s, z, k - 1, e);
      NodesAddedFull(s, z, k - 1, ids, e);
      NodeAddedFull(t, z, k, ids, e);
      ExtendsMore(s.nodes, t.nodes, z, k, e);
    }
  }

  lemma {:induction false} NodesDeletedFull(s: State, z: ZkNode, k: nat, ids: set<string>, e: Names)
    requires Full(s, ids, e) && Apart(ids, e)
    ensures var t := NodesDeleted(s, z, k, e);
            Full(t, ids, e) && t.hostPaths == s.hostPaths && t.zk == s.zk && t.nodes == s.nodes - Ids(z, k, e)
  {
    if k > 0 {
      NodesDeletedFull(s, z, k - 1, ids, e);
      NodeDeletedFull(NodesDeleted(s, z, k - 1, e), e.id(z.host, z.port, k), ids, e);
    } else {
      assert s.nodes - {} == s.nodes;
    }
  }

  // ----------------------------------------- careful runs: everything agrees

  predicate ZkOk(s: State, path: string, e: Names)
    requires path in s.zk
  {
    var z := s.zk[path];
    var h := e.host(z.host, z.port);
    && z.path == path && IsValidZk(z) && Short(z.host, z.port, z.workers)
    && h in s.hostPaths && s.hostPaths[h] == path
    && Ids(z, z.workers, e) <= s.nodes.Keys
  }

  predicate HostOk(s: State, h: string, e: Names)
    requires h in s.hostPaths
  {
    s.hostPaths[h] in s.zk && e.host(s.zk[s.hostPaths[h]].host, s.zk[s.hostPaths[h]].port) == h
  }

  predicate NodeOk(s: State, id: string, e: Names)
    requires id in s.nodes
  {
    var n := s.nodes[id];
    var h := e.host(n.host, n.port);
    && n.id == id && h in s.hostPaths && s.hostPaths[h] in s.zk
    && WorkerOf(n, s.zk[s.hostPaths[h]], s.zk[s.hostPaths[h]].workers, e)
  }

  ghost predicate ZkAgree(s: State, e: Names) {
    forall path {:trigger ZkOk(s, path, e)} :: path in s.zk ==> ZkOk(s, path, e)
  }

  ghost predicate HostsAgree(s: State, e: Names) {
    forall h {:trigger HostOk(s, h, e)} :: h in s.hostPaths ==> HostOk(s, h, e)
  }

  ghost predicate NodesAgree(s: State, e: Names) {
    forall id {:trigger NodeOk(s, id, e)} :: id in s.nodes ==> NodeOk(s, id, e)
  }

  /** Hosts and paths name each other, and the workers are exactly those of the registered nodes. */
  ghost predicate Agree(s: State, e: Names) {
    ZkAgree(s, e) && HostsAgree(s, e) && NodesAgree(s, e)
  }

  lemma {:induction false} IdsOf(z: ZkNode, k: nat, n: Node, e: Names)
    requires WorkerOf(n, z, k, e)
    ensures n.id in Ids(z, k, e)
  {
    if n.worker < k {
      IdsOf(z, k - 1, n, e);
    }
  }

  /** Nodes at different hosts have no worker id in common. */
  lemma {:induction false} IdsDisjoint(y: ZkNode, j: nat, z: ZkNode, k: nat, e: Names)
    requires Distinctive(e) && Short(y.host, y.port, j) && Short(z.host, z.port, k)
    requires y.host != z.host || y.port != z.port
    ensures Ids(y, j, e) !! Ids(z, k, e)
    decreases j + k
  {
    if j > 0 && k > 0 {
      ShortDown(y.host, y.port, j - 1, j);
      ShortDown(z.host, z.port, k - 1, k);
      IdsDisjoint(y, j - 1, z, k, e);
      IdsDisjoint(y, j, z, k - 1, e);
    }
  }

  /** `t` is `s` without a path, its host and its workers. */
  ghost predicate Without(s: State, t: State, path: string, e: Names) {
    path in s.zk &&
    var z := s.zk[path];
    && t.zk == s.zk - {path} && t.hostPaths == s.hostPaths - {e.host(z.host, z.port)}
    && t.nodes == s.nodes - Ids(z, z.workers, e)
  }

  lemma DeleteZk(s: State, t: State, path: string, p: string, e: Names)
    requires Without(s, t, path, e) && Distinctive(e) && p in t.zk && ZkOk(s, path, e) && ZkOk(s, p, e)
    ensures ZkOk(t, p, e)
  {
    var y, z := s.zk[p], s.zk[path];
    IdsDisjoint(y, y.workers, z, z.workers, e);
  }

  lemma DeleteHost(s: State, t: State, path: string, h: string, e: Names)
    requires Without(s, t, path, e) && h in t.hostPaths && HostOk(s, h, e)
    ensures HostOk(t, h, e)
  {
  }

  lemma DeleteNode(s: State, t: State, path: string, id: string, e: Names)
    requires Without(s, t, path, e) && id in t.nodes && NodeOk(s, id, e) && ZkOk(s, path, e)
    requires var n := s.nodes[id];
             ZkOk(s, s.hostPaths[e.host(n.host, n.port)], e)
    ensures NodeOk(t, id, e)
  {
    var n, z := s.nodes[id], s.zk[path];
    if s.hostPaths[e.host(n.host, n.port)] == path {
      IdsOf(z, z.workers, n, e);
    }
  }

  lemma DeleteAgrees(s: State, t: State, path: string, e: Names)
    requires Agree(s, e) && Distinctive(e) && Without(s, t, path, e)
    ensures Agree(t, e)
  {
    assert ZkOk(s, path, e);
    forall p | p in t.zk ensures ZkOk(t, p, e) {
      assert ZkOk(s, p, e);
      DeleteZk(s, t, path, p, e);
    }
    forall h | h in t.hostPaths ensures HostOk(t, h, e) {
      assert HostOk(s, h, e);
      DeleteHost(s, t, path, h, e);
    }
    forall id | id in t.nodes ensures NodeOk(t, id, e) {
      assert NodeOk(s, id, e);
      var n := s.nodes[id];
      assert ZkOk(s, s.hostPaths[e.host(n.host, n.port)], e);
      DeleteNode(s, t, path, id, e);
    }
  }

  /** `t` is `s` with a new path at a free host, and its workers. */
  ghost predicate With(s: State, t: State, z: ZkNode, e: Names) {
    && IsValidZk(z) && Short(z.host, z.port, z.workers) && z.path !in s.zk && e.host(z.host, z.port) !in s.hostPaths
    && t.zk == s.zk[z.path := z] && t.hostPaths == s.hostPaths[e.host(z.host, z.port) := z.path]
    && Extends(s.nodes, t.nodes, z, z.workers, e)
  }

  lemma RegisterZk(s: State, t: State, z: ZkNode, p: string, e: Names)
    requires With(s, t, z, e) && p in t.zk && (p in s.zk ==> ZkOk(s, p, e))
    ensures ZkOk(t, p, e)
  {
  }

  lemma RegisterHost(s: State, t: State, z: ZkNode, h: string, e: Names)
    requires With(s, t, z, e) && h in t.hostPaths && (h in s.hostPaths ==> HostOk(s, h, e))
    ensures HostOk(t, h, e)
  {
  }

  lemma RegisterNode(s: State, t: State, z: ZkNode, id: string, e: Names)
    requires With(s, t, z, e) && id in t.nodes && t.nodes[id].id == id && (id in s.nodes ==> NodeOk(s, id, e))
    ensures NodeOk(t, id, e)
  {
  }

  lemma RegisterZkAgree(s: State, t: State, z: ZkNode, e: Names)
    requires ZkAgree(s, e) && With(s, t, z, e)
    ensures ZkAgree(t, e)
  {
    forall p | p in t.zk ensures ZkOk(t, p, e) {
      assert p in s.zk ==> ZkOk(s, p, e);
      RegisterZk(s, t, z, p, e);
    }
  }

  lemma RegisterNodesAgree(s: State, t: State, z: ZkNode, e: Names)
    requires NodesAgree(s, e) && With(s, t, z, e) && forall id :: id in t.nodes ==> t.nodes[id].id == id
    ensures NodesAgree(t, e)
  {
    forall id | id in t.nodes ensures NodeOk(t, id, e) {
      assert id in s.nodes ==> NodeOk(s, id, e);
      RegisterNode(s, t, z, id, e);
    }
  }

  lemma RegisterAgrees(s: State, t: State, z: ZkNode, e: Names)
    requires Agree(s, e) && With(s, t, z, e) && forall id :: id in t.nodes ==> t.nodes[id].id == id
    ensures Agree(t, e)
  {
    RegisterZkAgree(s, t, z, e);
    forall h | h in t.hostPaths ensures HostOk(t, h, e) {
      assert h in s.hostPaths ==> HostOk(s, h, e);
      RegisterHost(s, t, z, h, e);
    }
    RegisterNodesAgree(s, t, z, e);
  }

  ghost predicate Exact(s: State, ids: set<string>, e: Names) {
    Full(s, ids, e) && Agree(s, e)
  }

  /** What the names and points in use must satisfy. */
  ghost predicate Usable(ids: set<string>, e: Names) {
    Apart(ids, e) && Distinctive(e)
  }

  lemma ZkDeletedFull(s: State, path: string, ids: set<string>, e: Names)
    requires Full(s, ids, e) && Apart(ids, e) && path in s.zk
    ensures Full(ZkDeleted(s, path, e), ids, e) && Without(s, ZkDeleted(s, path, e), path, e)
  {
    var z := s.zk[path];
    NodesDeletedFull(s, z, z.workers, ids, e);
    SameFull(NodesDeleted(s, z, z.workers, e), ZkDeleted(s, path, e), ids, e);
  }

  lemma ZkDeletedExact(s: State, path: string, ids: set<string>, e: Names)
    requires Exact(s, ids, e) && Usable(ids, e) && path in s.zk
    ensures Exact(ZkDeleted(s, path, e), ids, e) && Without(s, ZkDeleted(s, path, e), path, e)
  {
    ZkDeletedFull(s, path, ids, e);
    DeleteAgrees(s, ZkDeleted(s, path, e), path, e);
  }

  /** What the host check does in a state where hosts and paths name each other. */
  lemma HostCheckedIs(s: State, z: ZkNode, e: Names)
    requires Agree(s, e)
    ensures var c, h := HostChecked(s, z, e), e.host(z.host, z.port);
            if h in s.hostPaths && s.hostPaths[h] != z.path
            then s.hostPaths[h] in s.zk && (c == (false, s) || c == (true, ZkDeleted(s, s.hostPaths[h], e)))
            else c == (true, s)
  {
    var h := e.host(z.host, z.port);
    if h in s.hostPaths {
      assert HostOk(s, h, e);
      assert ZkOk(s, s.hostPaths[h], e);
    }
  }

  /** `c` is `s`, possibly without another path that had the host. */
  ghost predicate Cleared(s: State, c: State, z: ZkNode, e: Names) {
    var h := e.host(z.host, z.port);
    c == s || (h in s.hostPaths && s.hostPaths[h] != z.path && Without(s, c, s.hostPaths[h], e))
  }

  /** After the host check, the host is free or belongs to the path already. */
  lemma HostCheckedExact(s: State, z: ZkNode, ids: set<string>, e: Names)
    requires Exact(s, ids, e) && Usable(ids, e)
    ensures var c := HostChecked(s, z, e);
            Exact(c.1, ids, e) && Cleared(s, c.1, z, e)
  {
    var h := e.host(z.host, z.port);
    HostCheckedIs(s, z, e);
    if h in s.hostPaths && s.hostPaths[h] != z.path {
      ZkDeletedExact(s, s.hostPaths[h], ids, e);
    }
  }

  lemma HostIsFree(s: State, z: ZkNode, e: Names)
    requires Agree(s, e) && HostChecked(s, z, e).0 && Cleared(s, HostChecked(s, z, e).1, z, e)
    ensures var c, h := HostChecked(s, z, e).1, e.host(z.host, z.port);
            && (h in c.hostPaths ==> c.hostPaths[h] == z.path)
            && (z.path in c.zk ==> z.path in s.zk && c.zk[z.path] == s.zk[z.path])
  {
    var h := e.host(z.host, z.port);
    HostCheckedIs(s, z, e);
    if h in s.hostPaths {
      assert HostOk(s, h, e);
    }
  }

  lemma RegisterExact(s: State, z: ZkNode, ids: set<string>, e: Names)
    requires Exact(s, ids, e) && Usable(ids, e) && Ids(z, z.workers, e) <= ids
    requires IsValidZk(z) && Short(z.host, z.port, z.workers)
    requires z.path !in s.zk && e.host(z.host, z.port) !in s.hostPaths
    ensures Exact(Claimed(NodesAdded(s.(zk := s.zk[z.path := z]), z, z.workers, e), z, e), ids, e)
  {
    var stored := s.(zk := s.zk[z.path := z]);
    var a := NodesAdded(stored, z, z.workers, e);
    var t := Claimed(a, z, e);
    SameFull(s, stored, ids, e);
    NodesAddedFull(stored, z, z.workers, ids, e);
    SameFull(a, t, ids, e);
    RegisterAgrees(s, t, z, e);
  }

  lemma FreeOrOwn(s: State, z: ZkNode, e: Names)
    requires Agree(s, e)
    requires e.host(z.host, z.port) in s.hostPaths ==> s.hostPaths[e.host(z.host, z.port)] == z.path
    ensures if z.path in s.zk && s.zk[z.path] == z then Claimed(s, z, e) == s
            else z.path !in s.zk ==> e.host(z.host, z.port) !in s.hostPaths
  {
    var h := e.host(z.host, z.port);
    assert h in s.hostPaths ==> HostOk(s, h, e);
    if z.path in s.zk {
      assert ZkOk(s, z.path, e);
      if s.zk[z.path] == z {
        assert s.hostPaths[h := z.path] == s.hostPaths;
      }
    }
  }

  /** A worker id belongs to a registered node. */
  ghost predicate Listed(s: State, id: string, e: Names) {
    exists path {:trigger s.zk[path]} :: path in s.zk && id in Ids(s.zk[path], s.zk[path].workers, e)
  }

  /** So the workers are exactly the ids host:port.i of the registered nodes. */
  lemma AgreeLists(s: State, e: Names, id: string)
    requires Agree(s, e)
    ensures id in s.nodes <==> Listed(s, id, e)
  {
    if id in s.nodes {
      assert NodeOk(s, id, e);
      var n := s.nodes[id];
      var path := s.hostPaths[e.host(n.host, n.port)];
      IdsOf(s.zk[path], s.zk[path].workers, n, e);
    }
    forall path | path in s.zk && id in Ids(s.zk[path], s.zk[path].workers, e) ensures id in s.nodes {
      assert ZkOk(s, path, e);
    }
  }

  // -------------------------------------------------------- the update branch

  lemma {:induction false} IdsMonotone(z: ZkNode, j: nat, k: nat, e: Names)
    requires j <= k
    ensures Ids(z, j, e) <= Ids(z, k, e)
    decreases k - j
  {
    if j < k {
      IdsMonotone(z, j + 1, k, e);
    }
  }

  lemma {:induction false} IdsSame(y: ZkNode, z: ZkNode, k: nat, e: Names)
    requires y.host == z.host && y.port == z.port
    ensures Ids(y, k, e) == Ids(z, k, e)
  {
    if k > 0 {
      IdsSame(y, z, k - 1, e);
    }
  }

  lemma {:induction false} IdsUpTo(z: ZkNode, k: nat, j: nat, e: Names)
    requires Distinctive(e) && Short(z.host, z.port, j) && k < j
    ensures e.id(z.host, z.port, j) !in Ids(z, k, e)
  {
    if k > 0 {
      IdsUpTo(z, k - 1, j, e);
      ShortDown(z.host, z.port, k, j);
    }
  }

  /** What an update comes to: the path has its new data, and of its workers those below the last
      are made anew, while the last one is made only if it was not there. */
  ghost predicate Updates(s: State, t: State, z: ZkNode, e: Names) {
    && t.zk == s.zk[z.path := z] && t.hostPaths == s.hostPaths[e.host(z.host, z.port) := z.path]
    && 0 < z.workers && Extends(s.nodes - Ids(z, z.workers - 1, e), t.nodes, z, z.workers, e)
  }

  lemma DeletedAndAdded(s: State, z: ZkNode, k: nat, ids: set<string>, e: Names)
    requires Full(s, ids, e) && Apart(ids, e) && Ids(z, z.workers, e) <= ids
    ensures var t := NodesAdded(NodesDeleted(s, z, k, e), z, z.workers, e);
            && Full(t, ids, e) && t.zk == s.zk && t.hostPaths == s.hostPaths
            && Extends(s.nodes - Ids(z, k, e), t.nodes, z, z.workers, e)
  {
    NodesDeletedFull(s, z, k, ids, e);
    NodesAddedFull(NodesDeleted(s, z, k, e), z, z.workers, ids, e);
  }

  lemma UpdatedFull(s: State, z: ZkNode, ids: set<string>, e: Names)
    requires Full(s, ids, e) && Apart(ids, e) && Ids(z, z.workers, e) <= ids && 0 < z.workers
    ensures var t := Claimed(ZkUpdated(s, z, e), z, e);
            Full(t, ids, e) && Updates(s, t, z, e)
  {
    var stored := s.(zk := s.zk[z.path := z]);
    SameFull(s, stored, ids, e);
    DeletedAndAdded(stored, z, z.workers - 1, ids, e);
    ClaimedUpdates(s, ZkUpdated(s, z, e), z, ids, e);
  }

  lemma ClaimedUpdates(s: State, a: State, z: ZkNode, ids: set<string>, e: Names)
    requires Full(a, ids, e) && a.zk == s.zk[z.path := z] && a.hostPaths == s.hostPaths
    requires 0 < z.workers && Extends(s.nodes - Ids(z, z.workers - 1, e), a.nodes, z, z.workers, e)
    ensures Full(Claimed(a, z, e), ids, e) && Updates(s, Claimed(a, z, e), z, e)
  {
    SameFull(a, Claimed(a, z, e), ids, e);
  }

  /** A path that is known comes again with a host that is free or its own. */
  ghost predicate Renews(s: State, t: State, z: ZkNode, e: Names) {
    && Agree(s, e) && Updates(s, t, z, e) && IsValidZk(z) && Short(z.host, z.port, z.workers) && z.path in s.zk
    && (e.host(z.host, z.port) in s.hostPaths ==> s.hostPaths[e.host(z.host, z.port)] == z.path)
  }

  lemma OldHostStays(s: State, t: State, z: ZkNode, e: Names)
    requires Renews(s, t, z, e) && Distinctive(e)
    requires s.zk[z.path].host != z.host || s.zk[z.path].port != z.port
    ensures var h := e.host(s.zk[z.path].host, s.zk[z.path].port);
            h in t.hostPaths && !HostOk(t, h, e)
  {
    assert ZkOk(s, z.path, e);
    ShortDown(z.host, z.port, 0, z.workers);
    ShortDown(s.zk[z.path].host, s.zk[z.path].port, 0, s.zk[z.path].workers);
  }

  predicate SameHost(y: ZkNode, z: ZkNode) {
    y.host == z.host && y.port == z.port
  }

  /** A worker id of a registered node names a worker of that node. */
  lemma WorkerIs(s: State, path: string, k: nat, e: Names)
    requires Agree(s, e) && Distinctive(e) && path in s.zk && 0 < k
    requires Short(s.zk[path].host, s.zk[path].port, k) && e.id(s.zk[path].host, s.zk[path].port, k) in s.nodes
    ensures var z := s.zk[path];
            var n := s.nodes[e.id(z.host, z.port, k)];
            n.worker == k && WorkerOf(n, z, z.workers, e)
  {
    var z := s.zk[path];
    var id := e.id(z.host, z.port, k);
    var n := s.nodes[id];
    assert NodeOk(s, id, e);
    var owner := s.hostPaths[e.host(n.host, n.port)];
    assert ZkOk(s, owner, e) && ZkOk(s, path, e);
    ShortDown(n.host, n.port, n.worker, s.zk[owner].workers);
  }

  /** What is left of the workers when the path's own are taken away. */
  lemma FewerLeft(s: State, z: ZkNode, e: Names)
    requires Agree(s, e) && Distinctive(e) && z.path in s.zk && SameHost(s.zk[z.path], z) && 0 < z.workers
    requires s.zk[z.path].workers < z.workers && Short(z.host, z.port, z.workers)
    ensures s.nodes - Ids(z, z.workers - 1, e) == s.nodes - Ids(z, s.zk[z.path].workers, e)
  {
    var was := s.zk[z.path];
    IdsMonotone(z, was.workers, z.workers - 1, e);
    forall id | id in s.nodes && id in Ids(z, z.workers - 1, e) ensures id in Ids(z, was.workers, e) {
      var k := IdsIndex(z, z.workers - 1, id, e);
      ShortDown(z.host, z.port, k, z.workers);
      WorkerIs(s, z.path, k, e);
      IdsOf(z, was.workers, s.nodes[id].(kind := z.kind), e);
    }
  }

  lemma {:induction false} IdsIndex(z: ZkNode, k: nat, id: string, e: Names) returns (j: nat)
    requires id in Ids(z, k, e)
    ensures 1 <= j <= k && id == e.id(z.host, z.port, j)
  {
    if id == e.id(z.host, z.port, k) {
      j := k;
    } else {
      j := IdsIndex(z, k - 1, id, e);
    }
  }

  /** The data a known path may come with: the same host, and more workers, or as many of the
      same type. */
  predicate Fitting(was: ZkNode, z: ZkNode) {
    SameHost(was, z) && (was.workers < z.workers || (was.workers == z.workers && was.kind == z.kind))
  }

  /** An update that fits is a deletion followed by a registration. */
  lemma FittingExtends(s: State, t: State, z: ZkNode, e: Names)
    requires Renews(s, t, z, e) && Distinctive(e) && Fitting(s.zk[z.path], z)
    ensures Extends(s.nodes - Ids(z, s.zk[z.path].workers, e), t.nodes, z, z.workers, e)
  {
    var was := s.zk[z.path];
    if was.workers < z.workers {
      FewerLeft(s, z, e);
    } else {
      var id := e.id(z.host, z.port, z.workers);
      assert ZkOk(s, z.path, e);
      assert id in Ids(was, was.workers, e);
      WorkerIs(s, z.path, z.workers, e);
      assert WorkerOf(s.nodes[id], z, z.workers, e);
      LastKept(s.nodes, t.nodes, z, e);
    }
  }

  lemma LastKept(was: map<string, Node>, now: map<string, Node>, z: ZkNode, e: Names)
    requires 0 < z.workers && Extends(was - Ids(z, z.workers - 1, e), now, z, z.workers, e)
    requires e.id(z.host, z.port, z.workers) in was ==> WorkerOf(was[e.id(z.host, z.port, z.workers)], z, z.workers, e)
    ensures Extends(was - Ids(z, z.workers, e), now, z, z.workers, e)
  {
  }

  /** The state without the path, its host and its workers. */
  function Dropped(s: State, z: ZkNode, e: Names): (m: State)
    requires z.path in s.zk
  {
    s.(zk := s.zk - {z.path}, hostPaths := s.hostPaths - {e.host(z.host, z.port)},
       nodes := s.nodes - Ids(z, s.zk[z.path].workers, e))
  }

  lemma DroppedAgrees(s: State, z: ZkNode, e: Names)
    requires Agree(s, e) && Distinctive(e) && z.path in s.zk && SameHost(s.zk[z.path], z)
    ensures Agree(Dropped(s, z, e), e)
  {
    IdsSame(s.zk[z.path], z, s.zk[z.path].workers, e);
    DeleteAgrees(s, Dropped(s, z, e), z.path, e);
  }

  lemma FittingRegisters(s: State, t: State, z: ZkNode, e: Names)
    requires Renews(s, t, z, e) && Distinctive(e) && Fitting(s.zk[z.path], z)
    ensures With(Dropped(s, z, e), t, z, e)
  {
    FittingExtends(s, t, z, e);
    DroppedWith(s, t, z, e);
  }

  lemma DroppedWith(s: State, t: State, z: ZkNode, e: Names)
    requires z.path in s.zk && IsValidZk(z) && Short(z.host, z.port, z.workers)
    requires t.zk == s.zk[z.path := z] && t.hostPaths == s.hostPaths[e.host(z.host, z.port) := z.path]
    requires Extends(s.nodes - Ids(z, s.zk[z.path].workers, e), t.nodes, z, z.workers, e)
    ensures With(Dropped(s, z, e), t, z, e)
  {
    var m, h := Dropped(s, z, e), e.host(z.host, z.port);
    assert t.zk == m.zk[z.path := z] && t.hostPaths == m.hostPaths[h := z.path];
  }

  lemma FittingAgrees(s: State, t: State, z: ZkNode, e: Names)
    requires Renews(s, t, z, e) && Distinctive(e) && Fitting(s.zk[z.path], z)
    requires forall id :: id in t.nodes ==> t.nodes[id].id == id
    ensures Agree(t, e)
  {
    DroppedAgrees(s, z, e);
    FittingRegisters(s, t, z, e);
    RegisterAgrees(Dropped(s, z, e), t, z, e);
  }

  /** The last worker of the old data is still there and belongs to nobody. */
  lemma LastWorkerStrays(s: State, t: State, z: ZkNode, e: Names)
    requires Renews(s, t, z, e) && Distinctive(e) && SameHost(s.zk[z.path], z) && z.workers < s.zk[z.path].workers
    ensures var was := s.zk[z.path];
            var id := e.id(was.host, was.port, was.workers);
            id in t.nodes && !Listed(t, id, e)
  {
    var was := s.zk[z.path];
    var id := e.id(was.host, was.port, was.workers);
    assert ZkOk(s, z.path, e);
    assert id in Ids(was, was.workers, e);
    IdsUpTo(z, z.workers, was.workers, e);
    IdsMonotone(z, z.workers - 1, z.workers, e);
    forall p | p in t.zk ensures id !in Ids(t.zk[p], t.zk[p].workers, e) {
      if p != z.path {
        OtherIds(s, z.path, p, e);
      }
    }
  }

  /** The last worker of a node that comes again with another type keeps the old type. */
  lemma LastWorkerKeepsType(s: State, t: State, z: ZkNode, e: Names)
    requires Renews(s, t, z, e) && Distinctive(e) && SameHost(s.zk[z.path], z)
    requires z.workers == s.zk[z.path].workers && z.kind != s.zk[z.path].kind
    ensures var id := e.id(z.host, z.port, z.workers);
            id in t.nodes && t.nodes[id].kind == s.zk[z.path].kind && !NodeOk(t, id, e)
  {
    var was := s.zk[z.path];
    var id := e.id(z.host, z.port, z.workers);
    assert ZkOk(s, z.path, e);
    assert id in Ids(was, was.workers, e);
    WorkerIs(s, z.path, z.workers, e);
    IdsUpTo(z, z.workers - 1, z.workers, e);
  }

  lemma OtherIds(s: State, path: string, p: string, e: Names)
    requires Agree(s, e) && Distinctive(e) && path in s.zk && p in s.zk && p != path
    ensures Ids(s.zk[p], s.zk[p].workers, e) !! Ids(s.zk[path], s.zk[path].workers, e)
  {
    assert ZkOk(s, path, e) && ZkOk(s, p, e);
    IdsDisjoint(s.zk[p], s.zk[p].workers, s.zk[path], s.zk[path].workers, e);
  }

  lemma RenewAgrees(s: State, t: State, z: ZkNode, e: Names)
    requires Renews(s, t, z, e) && Distinctive(e) && forall id :: id in t.nodes ==> t.nodes[id].id == id
    ensures Agree(t, e) <==> Fitting(s.zk[z.path], z)
  {
    var was := s.zk[z.path];
    if !SameHost(was, z) {
      OldHostStays(s, t, z, e);
    } else if z.workers < was.workers {
      LastWorkerStrays(s, t, z, e);
      if Agree(t, e) {
        AgreeLists(t, e, e.id(was.host, was.port, was.workers));
      }
    } else if Fitting(was, z) {
      FittingAgrees(s, t, z, e);
    } else {
      LastWorkerKeepsType(s, t, z, e);
    }
  }

  /** A path that comes again with other data, at a host that is free or its own, leaves the maps
      in agreement if and only if the data fits. */
  lemma UpdateAgrees(s: State, z: ZkNode, ids: set<string>, e: Names)
    requires Exact(s, ids, e) && Usable(ids, e) && Ids(z, z.workers, e) <= ids
    requires IsValidZk(z) && Short(z.host, z.port, z.workers) && z.path in s.zk
    requires e.host(z.host, z.port) in s.hostPaths ==> s.hostPaths[e.host(z.host, z.port)] == z.path
    ensures var t := Claimed(ZkUpdated(s, z, e), z, e);
            Full(t, ids, e) && (Agree(t, e) <==> Fitting(s.zk[z.path], z))
  {
    UpdatedFull(s, z, ids, e);
    RenewAgrees(s, Claimed(ZkUpdated(s, z, e), z, e), z, e);
  }

  // ----------------------------------------------------------- adding in general

  /** When an addition keeps the maps in agreement: it does nothing, the path is new, or its data
      is the same or fits. */
  predicate Agreeable(s: State, z: ZkNode, e: Names) {
    || !IsValidZk(z) || Refused(s, z, e) || z.path !in s.zk
    || s.zk[z.path] == z || Fitting(s.zk[z.path], z)
  }

  lemma RefusedIs(s: State, z: ZkNode, e: Names)
    requires Agree(s, e)
    ensures HostChecked(s, z, e).0 <==> !Refused(s, z, e)
  {
    var h := e.host(z.host, z.port);
    if h in s.hostPaths {
      assert HostOk(s, h, e);
      assert ZkOk(s, s.hostPaths[h], e);
    }
  }

  /** The host check leaves a path that is known as it is. */
  lemma StillKnown(s: State, z: ZkNode, e: Names)
    requires Agree(s, e) && HostChecked(s, z, e).0 && Cleared(s, HostChecked(s, z, e).1, z, e)
    ensures var c := HostChecked(s, z, e).1;
            z.path in c.zk <==> z.path in s.zk
  {
  }

  /** Adding keeps the maps in agreement, and every worker at all its ring points, if and only if
      it is agreeable. */
  lemma ZkAddedExact(s: State, z: ZkNode, ids: set<string>, e: Names)
    requires Exact(s, ids, e) && Usable(ids, e)
    requires Short(z.host, z.port, z.workers) && Ids(z, z.workers, e) <= ids
    ensures Full(ZkAdded(s, z, e), ids, e) && (Agree(ZkAdded(s, z, e), e) <==> Agreeable(s, z, e))
  {
    RefusedIs(s, z, e);
    if IsValidZk(z) && !Refused(s, z, e) {
      var c := HostChecked(s, z, e).1;
      HostCheckedExact(s, z, ids, e);
      HostIsFree(s, z, e);
      StillKnown(s, z, e);
      FreeOrOwn(c, z, e);
      if z.path !in c.zk {
        RegisterExact(c, z, ids, e);
      } else if c.zk[z.path] != z {
        UpdateAgrees(c, z, ids, e);
      }
    }
  }

  /** An event of a careful run: names are not cut, workers are among `ids`, and additions are
      agreeable. */
  predicate Careful(s: State, ev: Event, ids: set<string>, e: Names) {
    ev.Add? ==>
      && Short(ev.z.host, ev.z.port, ev.z.workers) && Ids(ev.z, ev.z.workers, e) <= ids
      && Agreeable(s, ev.z, e)
  }

  predicate CarefulRun(s: State, es: seq<Event>, ids: set<string>, e: Names)
    decreases |es|
  {
    es != [] ==> Careful(s, es[0], ids, e) && CarefulRun(Apply(s, es[0], e), es[1..], ids, e)
  }

  lemma {:induction false} ExactUntil(s: State, es: seq<Event>, ids: set<string>, e: Names)
    requires Exact(s, ids, e) && Usable(ids, e) && CarefulRun(s, es, ids, e)
    ensures Exact(Run(s, es, e), ids, e)
    decreases |es|
  {
    if es != [] {
      if es[0].Add? {
        ZkAddedExact(s, es[0].z, ids, e);
      } else if es[0].path in s.zk {
        ZkDeletedExact(s, es[0].path, ids, e);
      }
      ExactUntil(Apply(s, es[0], e), es[1..], ids, e);
    }
  }

  /** Over every careful run the four maps agree: hosts and paths name each other, the workers
      are exactly those of the registered nodes, and each holds all its ring points. */
  lemma MapsAgree(es: seq<Event>, ids: set<string>, e: Names)
    requires Usable(ids, e) && CarefulRun(Empty, es, ids, e)
    ensures Exact(Run(Empty, es, e), ids, e)
  {
    EmptyExact(ids, e);
    ExactUntil(Empty, es, ids, e);
  }

  lemma EmptyExact(ids: set<string>, e: Names)
    ensures Exact(Empty, ids, e)
  {
  }

  /** A node that is added, and added again with other data. */
  lemma AddedTwice(y: ZkNode, z: ZkNode, ids: set<string>, e: Names)
    requires Usable(ids, e) && IsValidZk(y) && IsValidZk(z) && z != y && z.path == y.path
    requires Short(y.host, y.port, y.workers) && Short(z.host, z.port, z.workers)
    requires Ids(y, y.workers, e) <= ids && Ids(z, z.workers, e) <= ids
    ensures Agree(Run(Empty, [Add(y), Add(z)], e), e) <==> Fitting(y, z)
  {
    var s := ZkAdded(Empty, y, e);
    EmptyExact(ids, e);
    ZkAddedExact(Empty, y, ids, e);
    AddedOnce(y, e);
    assert forall h :: h in s.hostPaths ==> s.hostPaths[h] == z.path;
    ZkAddedExact(s, z, ids, e);
    RunTwo(y, z, e);
  }

  /** Two concrete cases: a node at h:1 comes again with one worker instead of two, or with
      another type, and the maps no longer agree. */
  lemma UpdateExamples()
    ensures var e := Formatted(id => if id == "h:1.2" then [2] else [1]);
            var two := ZkNode("p", "h", 1, "t", 2, 1, 0);
            && !Agree(Run(Empty, [Add(two), Add(two.(workers := 1))], e), e)
            && !Agree(Run(Empty, [Add(two), Add(two.(kind := "u"))], e), e)
  {
    var e := Formatted(id => if id == "h:1.2" then [2] else [1]);
    var two, ids := ZkNode("p", "h", 1, "t", 2, 1, 0), {"h:1.1", "h:1.2"};
    FormattedDistinctive(e.points);
    ExampleIds(two, e);
    IdsSame(two.(kind := "u"), two, 2, e);
    AddedTwice(two, two.(workers := 1), ids, e);
    AddedTwice(two, two.(kind := "u"), ids, e);
  }

  lemma ExampleIds(z: ZkNode, e: Names)
    requires z.host == "h" && z.port == 1 && e.id == IdOf
    ensures Ids(z, 2, e) == {"h:1.1", "h:1.2"} && Ids(z.(workers := 1), 1, e) == {"h:1.1"}
  {
    assert Decimal(1) == "1" && Decimal(2) == "2" && Signed(1) == "1";
    assert "h" + ":" + "1" == "h:1" && "h:1" + "." + "1" == "h:1.1" && "h:1" + "." + "2" == "h:1.2";
    assert IdOf("h", 1, 1) == "h:1.1" && IdOf("h", 1, 2) == "h:1.2";
    assert Ids(z, 1, e) == {"h:1.1"};
  }

  lemma AddedOnce(z: ZkNode, e: Names)
    requires IsValidZk(z)
    ensures var s := ZkAdded(Empty, z, e);
            z.path in s.zk && s.zk[z.path] == z && e.host(z.host, z.port) in s.hostPaths
            && s.hostPaths == map[e.host(z.host, z.port) := z.path]
  {
    NodesAddedKeepMaps(Empty.(zk := map[z.path := z]), z, z.workers, e);
  }

  lemma {:induction false} NodesAddedKeepMaps(s: State, z: ZkNode, k: nat, e: Names)
    ensures NodesAdded(s, z, k, e).zk == s.zk && NodesAdded(s, z, k, e).hostPaths == s.hostPaths
  {
    if k > 0 {
      NodesAddedKeepMaps(s, z, k - 1, e);
    }
  }

  lemma RunTwo(y: ZkNode, z: ZkNode, e: Names)
    ensures Run(Empty, [Add(y), Add(z)], e) == ZkAdded(ZkAdded(Empty, y, e), z, e)
  {
    var s := ZkAdded(Empty, y, e);
    assert [Add(y), Add(z)][1..] == [Add(z)] && [Add(z)][1..] == [];
    assert Run(s, [Add(z)], e) == ZkAdded(s, z, e);
  }

  // -------------------------------------------------------------- the object

  class Nodes {
    var hostPaths: map<string, string>
    var zk: map<string, ZkNode>
    var nodes: map<string, Node>
    var rings: map<string, Ring<Node>>
    const names: Names

    ghost function Value(): (s: State)
      reads this
    {
      State(hostPaths, zk, nodes, rings)
    }

    constructor (points: string -> seq<Point>)
      ensures Value() == Empty && names == Formatted(points)
    {
      hostPaths, zk, nodes, rings := map[], map[], map[], map[];
      names := Formatted(points);
    }

    /** `add_node`. */
    method AddNode(z: ZkNode, worker: nat) returns (ok: bool)
      modifies this
      ensures Value() == NodeAdded(old(Value()), z, worker, names)
      ensures ok <==> names.id(z.host, z.port, worker) in nodes
    {
      var n := NodeFor(z, worker, names);
      if n.id in nodes {
        return true;
      }
      var ring := if z.kind in rings then rings[z.kind] else map[];
      var filled, more := AddPoints(ring, n, n.points);
      rings := rings[z.kind := filled];
      if !more {
        assert filled.Keys == ring.Keys;
        return false;
      }
      nodes := nodes[n.id := n];
      return true;
    }

    /** `del_node`. */
    method DelNode(id: string) returns (found: bool)
      modifies this
      ensures Value() == NodeDeleted(old(Value()), id) && found == (id in old(nodes))
    {
      if id !in nodes {
        return false;
      }
      var n := nodes[id];
      if n.kind in rings {
        var rest := ErasePoints(rings[n.kind], n.points);
        rings := rings[n.kind := rest];
      }
      nodes := nodes - {id};
      return true;
    }

    method AddWorkers(z: ZkNode)
      modifies this
      ensures Value() == NodesAdded(old(Value()), z, z.workers, names)
    {
      var i := 0;
      while i < z.workers
        invariant 0 <= i <= z.workers && Value() == NodesAdded(old(Value()), z, i, names)
      {
        i := i + 1;
        var _ := AddNode(z, i);
      }
    }

    method DelWorkers(z: ZkNode, k: nat)
      modifies this
      ensures Value() == NodesDeleted(old(Value()), z, k, names)
    {
      var i := 0;
      while i < k
        invariant 0 <= i <= k && Value() == NodesDeleted(old(Value()), z, i, names)
      {
        i := i + 1;
        var _ := DelNode(names.id(z.host, z.port, i));
      }
    }

    /** `del_zk_node`. */
    method DelZkNode(path: string) returns (found: bool)
      modifies this
      ensures Value() == ZkDeleted(old(Value()), path, names) && found == (path in old(zk))
    {
      if path !in zk {
        return false;
      }
      var z := zk[path];
      DelWorkers(z, z.workers);
      hostPaths := hostPaths - {names.host(z.host, z.port)};
      zk := zk - {path};
      return true;
    }

    /** `check_zk_node_host`. */
    method CheckZkNodeHost(z: ZkNode) returns (ok: bool)
      modifies this
      ensures (ok, Value()) == HostChecked(old(Value()), z, names)
    {
      var h := names.host(z.host, z.port);
      if h !in hostPaths {
        return true;
      }
      if hostPaths[h] !in zk {
        hostPaths := hostPaths - {h};
        return true;
      }
      var holder := zk[hostPaths[h]];
      if z.path == holder.path {
        return true;
      }
      if z.active <= holder.active {
        return false;
      }
      var _ := DelZkNode(holder.path);
      return true;
    }

    /** `add_zk_node`. */
    method AddZkNode(z: ZkNode) returns (ok: bool)
      modifies this
      ensures Value() == ZkAdded(old(Value()), z, names)
      ensures ok == (IsValidZk(z) && HostChecked(old(Value()), z, names).0)
    {
      if !IsValidZk(z) {
        return false;
      }
      var passed := CheckZkNodeHost(z);
      if !passed {
        return false;
      }
      if z.path !in zk {
        zk := zk[z.path := z];
        AddWorkers(z);
      } else if zk[z.path] != z {
        zk := zk[z.path := z];
        DelWorkers(z, z.workers - 1);
        AddWorkers(z);
      }
      hostPaths := hostPaths[names.host(z.host, z.port) := z.path];
      return true;
    }
  }
}
