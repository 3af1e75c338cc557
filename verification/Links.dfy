/**
 The intrusive doubly linked lists of libco (src/core/libco/co_routine.cpp:145-234).

 An item carries its own `prev` and `next` pointers and the list it is on. The
 module proves, on the heap and across any number of lists, that the four
 operations act on the lists' contents as append, tail, delete and concatenate.
 */
module Links {
  import opened Common

  /** The list pointers at the front of a `stTimeoutItem_t` or `stCoCondItem_t`. */
  class Item {
    var prev: Item?
    var next: Item?
    var link: Link?

    constructor ()
      ensures prev == null && next == null && link == null
    {
      prev, next, link := null, null, null;
    }
  }

  /** `stTimeoutItemLink_t` or `stCoCond_t`; `items` is the sequence the list stands for. */
  class Link {
    var head: Item?
    var tail: Item?
    ghost var items: seq<Item>

    constructor ()
      ensures items == [] && head == null && tail == null
    {
      head, tail, items := null, null, [];
    }

    /** The pointers spell out `items`, forwards and backwards. */
    ghost predicate Sound()
      reads this, items`prev, items`next, items`link
    {
      && Distinct(items)
      && head == (if items == [] then null else items[0])
      && tail == (if items == [] then null else items[|items| - 1])
      && (forall k {:trigger items[k].link} :: 0 <= k < |items| ==> items[k].link == this)
      && (forall k {:trigger items[k].prev} :: 0 <= k < |items| ==>
            items[k].prev == if k == 0 then null else items[k - 1])
      && (forall k {:trigger items[k].next} :: 0 <= k < |items| ==>
            items[k].next == if k == |items| - 1 then null else items[k + 1])
    }
  }

  /** Every list is sound, and an item's own `link` names the one list it is on. */
  ghost predicate WellLinked(links: set<Link>, items: set<Item>)
    reads links, items`prev, items`next, items`link
  {
    && (forall l, i :: l in links && i in l.items ==> i in items)
    && (forall l :: l in links ==> l.Sound())
    && (forall i :: i in items && i.link != null ==> i.link in links && i in i.link.items)
  }

  lemma Members(l: Link)
    requires l.Sound()
    ensures forall i :: i in l.items ==> i.link == l
  {
    forall i | i in l.items ensures i.link == l {
      var k :| 0 <= k < |l.items| && l.items[k] == i;
    }
  }

  lemma AllMembers(links: set<Link>)
    requires forall l :: l in links ==> l.Sound()
    ensures forall l, i :: l in links && i in l.items ==> i.link == l
  {
    forall l, i | l in links && i in l.items ensures i.link == l {
      Members(l);
    }
  }

  /** An item is on at most one list, the one its `link` names. */
  lemma OneList(links: set<Link>, items: set<Item>, a: Link, b: Link, i: Item)
    requires WellLinked(links, items) && a in links && b in links && i in a.items && i in b.items
    ensures a == b == i.link
  {
    Members(a);
    Members(b);
  }

  lemma Apart(a: Link, others: set<Link>)
    requires a.Sound() && a !in others && forall m :: m in others ==> m.Sound()
    ensures forall m, i :: m in others && i in m.items ==> i !in a.items
  {
    forall m, i | m in others && i in m.items ensures i !in a.items {
      Members(m);
      Members(a);
    }
  }

  /** A list none of whose items' pointers changed is still sound. */
  twostate lemma SoundKept(l: Link)
    requires old(l.Sound()) && unchanged(l)
    requires forall i :: i in l.items ==> unchanged(i`prev) && unchanged(i`next) && unchanged(i`link)
    ensures l.Sound()
  {
    forall k | 0 <= k < |l.items|
      ensures l.items[k].link == l
      ensures l.items[k].prev == (if k == 0 then null else l.items[k - 1])
      ensures l.items[k].next == (if k == |l.items| - 1 then null else l.items[k + 1])
    {
      assert l.items[k] in l.items;
      assert old(l.items[k].link) == l;
    }
  }

  method AddTail(l: Link, ap: Item, ghost links: set<Link>, ghost items: set<Item>)
    requires WellLinked(links, items) && l in links && ap in items
    modifies l, items`prev, items`next, items`link
    ensures WellLinked(links, items)
    ensures l.items == if old(ap.link) == null then old(l.items) + [ap] else old(l.items)
    ensures ap.link == if old(ap.link) == null then l else old(ap.link)
    ensures forall i :: i in items && i != ap ==> i.link == old(i.link)
  {
    if ap.link != null {
      return;
    }
    AllMembers(links);
    ghost var was := l.items;
    if l.tail != null {
      l.tail.next := ap;
      ap.next := null;
      ap.prev := l.tail;
      l.tail := ap;
    } else {
      l.head, l.tail := ap, ap;
      ap.next, ap.prev := null, null;
    }
    ap.link := l;
    l.items := was + [ap];
    assert l.Sound();
    forall m | m in links && m != l ensures m.Sound() {
      SoundKept(m);
    }
  }

  /** Pointers that skip position `k` of `was` spell `was` without it. */
  lemma SkipsOne(l: Link, was: seq<Item>, k: nat)
    requires k < |was| && Distinct(was) && l.items == was[..k] + was[k + 1..]
    requires l.head == (if |was| == 1 then null else if k == 0 then was[1] else was[0])
    requires l.tail == (if |was| == 1 then null else if k == |was| - 1 then was[k - 1] else was[|was| - 1])
    requires forall n {:trigger was[n].link} :: 0 <= n < |was| && n != k ==> was[n].link == l
    requires forall n {:trigger was[n].prev} :: 0 <= n < |was| && n != k ==>
               was[n].prev == var p := if n - 1 == k then k - 1 else n - 1; if p < 0 then null else was[p]
    requires forall n {:trigger was[n].next} :: 0 <= n < |was| && n != k ==>
               was[n].next == var q := if n + 1 == k then k + 1 else n + 1; if |was| <= q then null else was[q]
    ensures l.Sound()
  {
    forall n | 0 <= n < |l.items|
      ensures l.items[n].link == l
      ensures l.items[n].prev == (if n == 0 then null else l.items[n - 1])
      ensures l.items[n].next == (if n == |l.items| - 1 then null else l.items[n + 1])
    {
      var m := if n < k then n else n + 1;
      assert l.items[n] == was[m];
    }
  }

  /** The pointer surgery of `RemoveFromLink` on the list that holds `ap`. */
  method Unlink(l: Link, ap: Item)
    requires l.Sound() && ap in l.items
    modifies l, l.items`prev, l.items`next, ap`link
    ensures l.Sound() && l.items == Without(old(l.items), ap)
    ensures ap.link == null && ap.prev == null && ap.next == null
  {
    ghost var was := l.items;
    ghost var k := IndexOf(was, ap);
    assert was[k].prev == if k == 0 then null else was[k - 1];
    assert was[k].next == if k == |was| - 1 then null else was[k + 1];
    if ap == l.head {
      l.head := ap.next;
      if l.head != null {
        l.head.prev := null;
      }
    } else {
      if ap.prev != null {
        ap.prev.next := ap.next;
      }
    }
    if ap == l.tail {
      l.tail := ap.prev;
      if l.tail != null {
        l.tail.next := null;
      }
    } else {
      ap.next.prev := ap.prev;
    }
    ap.prev, ap.next := null, null;
    ap.link := null;
    l.items := was[..k] + was[k + 1..];
    SkipsOne(l, was, k);
    WithoutAt(was, ap);
  }

  method RemoveFromLink(ap: Item, ghost links: set<Link>, ghost items: set<Item>)
    requires WellLinked(links, items) && ap in items
    modifies ap.link, items`prev, items`next, items`link
    ensures WellLinked(links, items)
    ensures ap.link == null
    ensures old(ap.link) != null ==> ap in old(ap.link.items) && old(ap.link).items == Without(old(ap.link.items), ap)
    ensures forall i :: i in items && i != ap ==> i.link == old(i.link)
  {
    if ap.link == null {
      return;
    }
    AllMembers(links);
    ghost var l: Link := ap.link;
    ghost var was := l.items;
    ghost var others := set m | m in links && m != l;
    Apart(l, others);
    Unlink(ap.link, ap);
    WithoutMembers(was, ap);
    forall m | m in others ensures m.Sound() {
      assert m.items == old(m.items);
      assert forall i :: i in m.items ==> i !in was;
      SoundKept(m);
    }
  }

  method PopHead(l: Link, ghost links: set<Link>, ghost items: set<Item>)
    requires WellLinked(links, items) && l in links
    modifies l, items`prev, items`next, items`link
    ensures WellLinked(links, items)
    ensures l.items == if old(l.items) == [] then [] else old(l.items)[1..]
    ensures old(l.items) != [] ==> old(l.items)[0].link == null
    ensures forall i :: i in items && (old(l.items) == [] || i != old(l.items)[0]) ==> i.link == old(i.link)
  {
    if l.head == null {
      return;
    }
    AllMembers(links);
    ghost var was := l.items;
    var lp: Item := l.head;
    if l.head == l.tail {
      l.head, l.tail := null, null;
    } else {
      l.head := l.head.next;
    }
    lp.prev, lp.next := null, null;
    lp.link := null;
    if l.head != null {
      l.head.prev := null;
    }
    l.items := was[1..];
    assert l.Sound();
    forall m | m in links && m != l ensures m.Sound() {
      SoundKept(m);
    }
    assert forall i :: i in was && i != lp ==> i in l.items;
  }

  /** The loop of `Join`: every item of `other` is told that it is now on `l`. */
  method Relabel(l: Link, other: Link)
    requires other.Sound()
    modifies other.items`link
    ensures forall k :: 0 <= k < |other.items| ==> other.items[k].link == l
  {
    ghost var theirs := other.items;
    ghost var k := 0;
    var lp := other.head;
    while lp != null
      invariant 0 <= k <= |theirs|
      invariant lp == if k == |theirs| then null else theirs[k]
      invariant forall n :: 0 <= n < k ==> theirs[n].link == l
      decreases |theirs| - k
    {
      assert theirs[k].next == if k == |theirs| - 1 then null else theirs[k + 1];
      lp.link := l;
      lp := lp.next;
      k := k + 1;
    }
  }

  /** The pointers of `s` spell it out, and its items name `l` as their list. */
  ghost predicate Chained(l: Link, s: seq<Item>, before: Item?, after: Item?)
    reads s`prev, s`next, s`link
  {
    && (forall n {:trigger s[n].link} :: 0 <= n < |s| ==> s[n].link == l)
    && (forall n {:trigger s[n].prev} :: 0 <= n < |s| ==> s[n].prev == if n == 0 then before else s[n - 1])
    && (forall n {:trigger s[n].next} :: 0 <= n < |s| ==> s[n].next == if n == |s| - 1 then after else s[n + 1])
  }

  /** Pointers that lead from the end of `a` into `b` spell their concatenation. */
  lemma Bridges(l: Link, a: seq<Item>, b: seq<Item>)
    requires b != [] && Distinct(a + b) && l.items == a + b
    requires l.head == (a + b)[0] && l.tail == b[|b| - 1]
    requires Chained(l, a, null, b[0]) && Chained(l, b, if a == [] then null else a[|a| - 1], null)
    ensures l.Sound()
  {
    forall n | 0 <= n < |l.items|
      ensures l.items[n].link == l
      ensures l.items[n].prev == (if n == 0 then null else l.items[n - 1])
      ensures l.items[n].next == (if n == |l.items| - 1 then null else l.items[n + 1])
    {
      if n < |a| {
        assert l.items[n] == a[n];
      } else {
        assert l.items[n] == b[n - |a|];
      }
    }
  }

  /** The pointer surgery of `Join` on the two lists. */
  method Splice(l: Link, other: Link)
    requires l.Sound() && other.Sound() && l != other && other.head != null
    modifies l, other, other.items`link, l.items`next, other.items`prev
    ensures l.Sound() && l.items == old(l.items) + old(other.items)
    ensures other.Sound() && other.items == []
  {
    ghost var mine, theirs := l.items, other.items;
    Apart(l, {other});
    DistinctConcat(mine, theirs);
    assert forall n :: 0 <= n < |mine| ==> mine[n].link == l && mine[n] !in theirs;
    Relabel(l, other);
    assert Chained(l, mine, null, null) && Chained(l, theirs, null, null);
    Connect(l, other);
  }

  method Connect(l: Link, other: Link)
    requires l != other && other.items != [] && Distinct(l.items + other.items)
    requires l.head == (if l.items == [] then null else l.items[0])
    requires l.tail == (if l.items == [] then null else l.items[|l.items| - 1])
    requires other.head == other.items[0] && other.tail == other.items[|other.items| - 1]
    requires Chained(l, l.items, null, null) && Chained(l, other.items, null, null)
    modifies l, other, l.items`next, other.items`prev
    ensures l.Sound() && l.items == old(l.items) + old(other.items)
    ensures other.Sound() && other.items == []
  {
    ghost var mine, theirs := l.items, other.items;
    if l.tail != null {
      Tie(l, other.head, mine, theirs);
      l.tail := other.tail;
    } else {
      l.head := other.head;
      l.tail := other.tail;
    }
    other.head, other.tail := null, null;
    l.items, other.items := mine + theirs, [];
    Bridges(l, mine, theirs);
  }

  /** Makes the last item of `a` and the first of `b` neighbours. */
  method Tie(l: Link, lp: Item, ghost a: seq<Item>, ghost b: seq<Item>)
    requires a != [] && b != [] && Distinct(a + b) && l.tail == a[|a| - 1] && lp == b[0]
    requires Chained(l, a, null, null) && Chained(l, b, null, null)
    modifies l.tail`next, lp`prev
    ensures Chained(l, a, null, b[0]) && Chained(l, b, a[|a| - 1], null)
  {
    DistinctParts(a, b);
    assert forall n :: 0 <= n < |a| ==> a[n] in a && a[n] !in b;
    l.tail.next := lp;
    lp.prev := l.tail;
  }

  method Join(l: Link, other: Link, ghost links: set<Link>, ghost items: set<Item>)
    requires WellLinked(links, items) && l in links && other in links && l != other
    modifies l, other, items`prev, items`next, items`link
    ensures WellLinked(links, items)
    ensures l.items == old(l.items) + old(other.items) && other.items == []
    ensures forall i :: i in items ==> i.link == if old(i.link) == other then l else old(i.link)
  {
    if other.head == null {
      return;
    }
    AllMembers(links);
    ghost var mine, theirs := l.items, other.items;
    ghost var others := set m | m in links && m != l && m != other;
    Apart(l, others);
    Apart(other, others);
    Splice(l, other);
    Members(l);
    forall m | m in others ensures m.Sound() {
      assert m.items == old(m.items);
      assert forall i :: i in m.items ==> i !in mine && i !in theirs;
      SoundKept(m);
    }
  }
}
