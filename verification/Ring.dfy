/**
 The consistent-hash ring of a node type (src/core/nodes.cpp): nodes at points of a circle of
 2^32 points. A key belongs to the node at the first point at or after its hash, going
 around.
 */
module Ring {
  import opened Common

  const CIRCLE := 0x1_0000_0000

  type Point = x: int | 0 <= x < CIRCLE
  type Ring<T> = map<Point, T>

  // ---------------------------------------------------------------- lookup

  lemma {:induction false} MinOf(s: set<Point>) returns (m: Point)
    requires s != {}
    ensures m in s && forall q :: q in s ==> m <= q
    decreases |s|
  {
    var x :| x in s;
    var rest := s - {x};
    if rest == {} {
      assert s == {x};
      m := x;
    } else {
      var n := MinOf(rest);
      m := if x < n then x else n;
      forall q | q in s ensures m <= q {
        assert q == x || q in rest;
      }
    }
  }

  lemma LeastExists(s: set<Point>)
    requires s != {}
    ensures exists p :: p in s && forall q :: q in s ==> p <= q
  {
    var m := MinOf(s);
  }

  function AsSet(points: seq<Point>): (s: set<Point>) {
    set p | p in points
  }

  lemma AsSetCons(points: seq<Point>)
    requires points != []
    ensures AsSet(points) == {points[0]} + AsSet(points[1..])
  {
    assert points == [points[0]] + points[1..];
  }

  lemma AsSetSnoc(points: seq<Point>, i: nat)
    requires i < |points|
    ensures AsSet(points[..i + 1]) == AsSet(points[..i]) + {points[i]}
  {
    assert points[..i + 1] == points[..i] + [points[i]];
  }

  function Least(s: set<Point>): (p: Point)
    requires s != {}
    ensures p in s && forall q :: q in s ==> p <= q
  {
    LeastExists(s);
    var p :| p in s && forall q :: q in s ==> p <= q;
    p
  }

  function FromKey(points: set<Point>, key: Point): (s: set<Point>)
    ensures s <= points
  {
    set p | p in points && key <= p
  }

  /** The point whose node gets the key: the first at or after it, or else the first of all. */
  function Find(points: set<Point>, key: Point): (p: Point)
    requires points != {}
    ensures p in points
  {
    if FromKey(points, key) != {} then Least(FromKey(points, key)) else Least(points)
  }

  /** `get_node_in_hash`, from the hash of the key on. */
  function Lookup<T>(ring: Ring<T>, key: Point): (r: Option<T>) {
    if ring.Keys == {} then None else Some(ring[Find(ring.Keys, key)])
  }

  /** How far a point is from a key, going around the circle. */
  function Distance(key: Point, p: Point): (d: nat) {
    if key <= p then p - key else p - key + CIRCLE
  }

  lemma DistanceInjective(key: Point, p: Point, q: Point)
    requires Distance(key, p) == Distance(key, q)
    ensures p == q
  {
  }

  /** Lookup takes the nearest point, and that determines it. */
  lemma FindIsNearest(points: set<Point>, key: Point, p: Point)
    requires points != {}
    ensures p == Find(points, key) <==>
            p in points && forall q :: q in points ==> Distance(key, p) <= Distance(key, q)
  {
    var f, after := Find(points, key), FromKey(points, key);
    forall q | q in points ensures Distance(key, f) <= Distance(key, q) {
      if key <= q {
        assert q in after;
      }
    }
    if p in points && forall q :: q in points ==> Distance(key, p) <= Distance(key, q) {
      assert Distance(key, p) <= Distance(key, f) && Distance(key, f) <= Distance(key, p);
      DistanceInjective(key, p, f);
    }
  }

  lemma FindIs(points: set<Point>, key: Point, p: Point)
    requires p in points && forall q :: q in points ==> Distance(key, p) <= Distance(key, q)
    ensures points != {} && Find(points, key) == p
  {
    FindIsNearest(points, key, p);
  }

  // ---------------------------------------------------------------- changes

  /** Inserting points keeps those that are taken. */
  function Added<T>(ring: Ring<T>, node: T, points: seq<Point>): (r: Ring<T>)
    ensures r.Keys == ring.Keys + AsSet(points)
    ensures forall p :: p in r.Keys ==> r[p] == if p in ring.Keys then ring[p] else node
    decreases |points|
  {
    if points == [] then ring
    else
      AsSetCons(points);
      Added(if points[0] in ring.Keys then ring else ring[points[0] := node], node, points[1..])
  }

  function Erased<T>(ring: Ring<T>, points: seq<Point>): (r: Ring<T>) {
    ring - AsSet(points)
  }

  /** Adding a node moves keys only to that node, whether or not its points collide. */
  lemma AddMovesOnlyToNew<T>(ring: Ring<T>, node: T, points: seq<Point>, key: Point)
    ensures var before, after := Lookup(ring, key), Lookup(Added(ring, node, points), key);
            after == before || after == Some(node)
  {
    var r := Added(ring, node, points);
    if ring.Keys != {} && r.Keys != {} {
      var p := Find(r.Keys, key);
      if p in ring.Keys {
        FindIsNearest(r.Keys, key, p);
        FindIs(ring.Keys, key, p);
      }
    }
  }

  /** A key stays at its point when other points are erased. */
  lemma FindAfterErase<T>(ring: Ring<T>, points: seq<Point>, key: Point)
    requires ring.Keys != {} && Find(ring.Keys, key) !in points
    ensures Erased(ring, points).Keys != {} && Find(Erased(ring, points).Keys, key) == Find(ring.Keys, key)
  {
    var p, r := Find(ring.Keys, key), Erased(ring, points);
    FindIsNearest(ring.Keys, key, p);
    assert p in r.Keys;
    FindIs(r.Keys, key, p);
  }

  /** The points listed by a node that another node holds. */
  predicate Collides<T(==)>(ring: Ring<T>, node: T, points: seq<Point>) {
    exists p :: p in points && p in ring.Keys && ring[p] != node
  }

  /** Keys of other nodes keep their owner when a node's points are erased. */
  ghost predicate OthersKeep<T>(ring: Ring<T>, node: T, points: seq<Point>) {
    forall key: Point :: KeepsOwner(ring, node, points, key)
  }

  ghost predicate KeepsOwner<T>(ring: Ring<T>, node: T, points: seq<Point>, key: Point) {
    Lookup(ring, key) != Some(node) ==> Lookup(Erased(ring, points), key) == Lookup(ring, key)
  }

  /** The point is not held by another node, or the next point that stays is held by the same
      one. */
  ghost predicate Covered<T>(ring: Ring<T>, node: T, points: seq<Point>, p: Point) {
    p in ring.Keys && ring[p] != node ==> Lookup(Erased(ring, points), p) == Some(ring[p])
  }

  /** From a key, and from the point that it belongs to, the nearest of fewer points is the same. */
  lemma FindFromPoint(points: set<Point>, fewer: set<Point>, key: Point)
    requires points != {} && fewer <= points && fewer != {}
    ensures Find(fewer, key) == Find(fewer, Find(points, key))
  {
    var f := Find(points, key);
    var g := Find(fewer, f);
    FindIsNearest(points, key, f);
    FindIsNearest(fewer, f, g);
    forall q | q in fewer ensures Distance(key, g) <= Distance(key, q) {
      assert Distance(key, f) <= Distance(key, q) && Distance(key, f) <= Distance(key, g);
      assert Distance(key, q) == Distance(key, f) + Distance(f, q);
      assert Distance(key, g) == Distance(key, f) + Distance(f, g);
    }
    FindIs(fewer, key, g);
  }

  /** Deleting a node leaves every key of the others with its owner if and only if each of its
      listed points that another node holds is covered by that node's next point. */
  lemma DeleteKeepsOthers<T>(ring: Ring<T>, node: T, points: seq<Point>)
    ensures OthersKeep(ring, node, points) <==> forall p :: p in points ==> Covered(ring, node, points, p)
  {
    forall p | p in points && p in ring.Keys && ring[p] != node
      ensures KeepsOwner(ring, node, points, p) <==> Covered(ring, node, points, p)
    {
      FindIs(ring.Keys, p, p);
    }
    if forall p :: p in points ==> Covered(ring, node, points, p) {
      forall key: Point ensures KeepsOwner(ring, node, points, key) {
        CoveredKeeps(ring, node, points, key);
      }
    } else {
      var p :| p in points && !Covered(ring, node, points, p);
      assert !KeepsOwner(ring, node, points, p);
    }
  }

  lemma CoveredKeeps<T>(ring: Ring<T>, node: T, points: seq<Point>, key: Point)
    requires forall p :: p in points ==> Covered(ring, node, points, p)
    ensures KeepsOwner(ring, node, points, key)
  {
    var r := Erased(ring, points);
    if ring.Keys == {} {
      assert r.Keys == {};
    } else if Lookup(ring, key) != Some(node) {
      var f := Find(ring.Keys, key);
      if f in points {
        assert Covered(ring, node, points, f);
        FindFromPoint(ring.Keys, r.Keys, key);
      } else {
        FindAfterErase(ring, points, key);
      }
    }
  }

  /** A listed point of another node whose next point takes over: no key changes its owner. */
  lemma CollisionCovered()
    ensures var ring: Ring<string> := map[7 := "a", 8 := "a", 9 := "b"];
            Collides(ring, "b", [7, 9]) && OthersKeep(ring, "b", [7, 9])
  {
    var ring: Ring<string> := map[7 := "a", 8 := "a", 9 := "b"];
    assert 7 in [7, 9] && 7 in ring.Keys && ring[7] != "b";
    var r := Erased(ring, [7, 9]);
    assert r.Keys == {8};
    FindIs(r.Keys, 7, 8);
    assert Covered(ring, "b", [7, 9], 7) && Covered(ring, "b", [7, 9], 9);
    DeleteKeepsOthers(ring, "b", [7, 9]);
  }

  /** Without a collision only keys of the deleted node move. */
  lemma DeleteMovesOnlyOwn<T>(ring: Ring<T>, node: T, points: seq<Point>, key: Point)
    requires !Collides(ring, node, points) && Lookup(ring, key) != Some(node)
    ensures Lookup(Erased(ring, points), key) == Lookup(ring, key)
  {
    if ring.Keys != {} {
      FindAfterErase(ring, points, key);
    }
  }

  /** Adding a node and deleting it again restores the ring, and with it every lookup, if and
      only if none of its points was taken. */
  lemma AddThenDelete<T>(ring: Ring<T>, node: T, points: seq<Point>)
    ensures Erased(Added(ring, node, points), points) == ring <==> forall p :: p in points ==> p !in ring.Keys
  {
    var r := Erased(Added(ring, node, points), points);
    if forall p :: p in points ==> p !in ring.Keys {
      assert r.Keys == ring.Keys;
      assert r == ring;
    } else {
      var p :| p in points && p in ring.Keys;
      assert p !in r.Keys;
    }
  }

  /** A concrete case: the second node lists the first one's only point, and deleting it
      leaves the first node without any. */
  lemma CollisionLosesPoint()
    ensures var both := Added(map[7 := "a"], "b", [7, 9]);
            && Lookup(both, 3) == Some("a")
            && Lookup(Erased(both, [7, 9]), 3) == None
  {
    var both := Added(map[7 := "a"], "b", [7, 9]);
    FindIs(both.Keys, 3, 7);
    assert Erased(both, [7, 9]).Keys == {};
  }

  // ---------------------------------------------------------------- methods

  /** The insertion loop of `add_node`; it fails if the ring has not grown. */
  method AddPoints<T>(ring: Ring<T>, node: T, points: seq<Point>) returns (r: Ring<T>, grown: bool)
    ensures r == Added(ring, node, points)
    ensures grown <==> exists p :: p in points && p !in ring.Keys
  {
    r := ring;
    var i := 0;
    while i < |points|
      invariant 0 <= i <= |points| && Added(r, node, points[i..]) == Added(ring, node, points)
    {
      assert points[i..][1..] == points[i + 1..];
      if points[i] !in r.Keys {
        r := r[points[i] := node];
      }
      i := i + 1;
    }
    Grown(ring.Keys, r.Keys);
    grown := |r.Keys| != |ring.Keys|;
  }

  lemma Grown(a: set<Point>, b: set<Point>)
    requires a <= b
    ensures |a| == |b| <==> a == b
  {
    var d := b - a;
    assert b == a + d && a !! d;
    assert |b| == |a| + |d|;
    assert |d| == 0 <==> d == {};
  }

  /** The erasing loop of `del_node`. */
  method ErasePoints<T>(ring: Ring<T>, points: seq<Point>) returns (r: Ring<T>)
    ensures r == Erased(ring, points)
  {
    r := ring;
    var i := 0;
    assert AsSet(points[..0]) == {} && ring - {} == ring;
    while i < |points|
      invariant 0 <= i <= |points| && r == Erased(ring, points[..i])
    {
      AsSetSnoc(points, i);
      r := r - {points[i]};
      assert r == Erased(ring, points[..i + 1]);
      i := i + 1;
    }
    assert points[..i] == points;
  }
}
