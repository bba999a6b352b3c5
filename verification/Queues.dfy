/** The circular doubly linked list under every queue of the kernel.  A ring is the sequence of its
    nodes from the header on; the queue proper is what follows the header. */
module Queues {
  import opened PriorityLists

  class Node {
    var next: Node    // p_next
    var prev: Node    // p_prev

    // queue_initialize
    constructor ()
      ensures Ring([this])
    {
      next, prev := this, this;
    }
  }

  function Follow(n: nat, i: int): int {
    if i + 1 < n then i + 1 else 0
  }

  ghost predicate NoDup(ring: seq<Node>) {
    forall i, j :: 0 <= i < j < |ring| ==> ring[i] != ring[j]
  }

  // Each node and the one after it point at each other; the header follows the last node.
  ghost predicate Ring(ring: seq<Node>)
    reads ring
  {
    && |ring| > 0 && NoDup(ring)
    && forall i :: 0 <= i < |ring| ==> ring[i].next == ring[Follow(|ring|, i)] && ring[Follow(|ring|, i)].prev == ring[i]
  }

  // Where an entry put before the i-th node stands: at the end if that node is the header.
  ghost function Before(ring: seq<Node>, i: nat, e: Node): seq<Node>
    requires i < |ring|
  {
    if i == 0 then ring + [e] else ring[..i] + [e] + ring[i..]
  }

  ghost function Inserted(ring: seq<Node>, m: nat, e: Node): seq<Node>
    requires m <= |ring|
  {
    ring[..m] + [e] + ring[m..]
  }

  lemma BeforeIs(ring: seq<Node>, i: nat, e: Node)
    requires i < |ring|
    ensures Before(ring, i, e) == Inserted(ring, if i == 0 then |ring| else i, e)
  {
  }

  lemma NoDupInsert(ring: seq<Node>, i: nat, e: Node)
    requires NoDup(ring) && i <= |ring| && e !in ring
    ensures NoDup(ring[..i] + [e] + ring[i..])
  {
    var r := ring[..i] + [e] + ring[i..];
    forall j, k | 0 <= j < k < |r| ensures r[j] != r[k] {
      assert r[j] == if j < i then ring[j] else if j == i then e else ring[j - 1];
      assert r[k] == if k < i then ring[k] else if k == i then e else ring[k - 1];
    }
  }

  // The node before the i-th.
  lemma Predecessor(ring: seq<Node>, i: nat)
    requires Ring(ring) && i < |ring|
    ensures ring[i].prev == ring[if i == 0 then |ring| - 1 else i - 1]
    ensures ring[i].next == ring[Follow(|ring|, i)]
  {
    var j := if i == 0 then |ring| - 1 else i - 1;
    assert ring[Follow(|ring|, j)].prev == ring[j];
  }

  // e stands between the nodes at m - 1 and m, the latter being the header if m is the length.
  ghost predicate Spliced(ring: seq<Node>, m: nat, e: Node)
    requires 0 < m <= |ring|
    reads e, ring
  {
    && e.prev == ring[m - 1] && e.next == ring[Follow(|ring|, m - 1)]
    && (forall k :: 0 <= k < |ring| ==> ring[k].next == if k == m - 1 then e else ring[Follow(|ring|, k)])
    && (forall k :: 0 <= k < |ring| ==> ring[Follow(|ring|, k)].prev == if k == m - 1 then e else ring[k])
  }

  lemma SplicedRing(ring: seq<Node>, m: nat, e: Node)
    requires NoDup(ring) && 0 < m <= |ring| && e !in ring && Spliced(ring, m, e)
    ensures Ring(Inserted(ring, m, e))
  {
    var r := ring[..m] + [e] + ring[m..];
    NoDupInsert(ring, m, e);
    forall k | 0 <= k < |r| ensures r[k].next == r[Follow(|r|, k)] && r[Follow(|r|, k)].prev == r[k] {
      if k != m {
        var j := if k < m then k else k - 1;
        assert r[k] == ring[j];
        assert ring[j].next == if j == m - 1 then e else ring[Follow(|ring|, j)];
      }
    }
  }

  // queue_insert_prev on the i-th node
  method InsertPrev(p: Node, e: Node, ghost ring: seq<Node>, ghost i: nat)
    requires Ring(ring) && i < |ring| && p == ring[i] && e !in ring
    modifies e, ring
    ensures Ring(Before(ring, i, e))
  {
    hide Before, Inserted;
    Predecessor(ring, i);
    BeforeIs(ring, i, e);
    e.prev := p.prev;
    e.next := p;
    p.prev.next := e;
    p.prev := e;
    SplicedRing(ring, if i == 0 then |ring| else i, e);
  }

  // queue_insert_next on the i-th node
  method InsertNext(p: Node, e: Node, ghost ring: seq<Node>, ghost i: nat)
    requires Ring(ring) && i < |ring| && p == ring[i] && e !in ring
    modifies e, ring
    ensures Ring(Inserted(ring, i + 1, e))
  {
    hide Inserted;
    Predecessor(ring, i);
    e.prev := p;
    e.next := p.next;
    p.next.prev := e;
    p.next := e;
    SplicedRing(ring, i + 1, e);
  }

  // queue_delete of the i-th node, not the header
  method Delete(e: Node, ghost ring: seq<Node>, ghost i: nat)
    requires Ring(ring) && 0 < i < |ring| && e == ring[i]
    modifies ring
    ensures Ring(ring[..i] + ring[i + 1..]) && e.next == old(e.next)
  {
    Predecessor(ring, i);
    e.prev.next := e.next;
    e.next.prev := e.prev;
    ghost var r := ring[..i] + ring[i + 1..];
    forall k | 0 <= k < |r| ensures r[k].next == r[Follow(|r|, k)] && r[Follow(|r|, k)].prev == r[k] {
      var j := if k < i then k else k + 1;
      assert r[k] == ring[j];
      assert old(ring[j].next) == ring[Follow(|ring|, j)] && old(ring[Follow(|ring|, j)].prev) == ring[j];
    }
  }

  // queue_delete_next of the header
  method DeleteNext(q: Node, ghost ring: seq<Node>) returns (e: Node)
    requires Ring(ring) && q == ring[0] && |ring| > 1
    modifies ring
    ensures e == ring[1] && Ring([q] + ring[2..])
  {
    Predecessor(ring, 0);
    Predecessor(ring, 1);
    e := q.next;
    q.next := e.next;
    e.next.prev := q;
    ghost var r := [q] + ring[2..];
    forall k | 0 <= k < |r| ensures r[k].next == r[Follow(|r|, k)] && r[Follow(|r|, k)].prev == r[k] {
      if k > 0 {
        assert r[k] == ring[k + 1];
        assert old(ring[k + 1].next) == ring[Follow(|ring|, k + 1)] && old(ring[Follow(|ring|, k + 1)].prev) == ring[k + 1];
      }
    }
  }

  // queue_empty
  method Empty(q: Node, ghost ring: seq<Node>) returns (empty: bool)
    requires Ring(ring) && q == ring[0]
    ensures empty <==> |ring| == 1
  {
    Predecessor(ring, 0);
    empty := q.next == q;
    assert empty ==> q.prev == q;
  }

  // queue_insert_tpri: behind all entries of the same or higher priority, ahead of all others
  method InsertTpri(q: Node, e: Node, pri: map<Node, nat>, ghost ring: seq<Node>) returns (ghost n: nat)
    requires Ring(ring) && q == ring[0] && e !in ring && e in pri && forall k :: 1 <= k < |ring| ==> ring[k] in pri
    modifies e, ring
    ensures 0 < n <= |ring| && Ring(Inserted(ring, n, e))
    ensures (forall k :: 1 <= k < n ==> pri[ring[k]] <= pri[e]) && (n < |ring| ==> pri[e] < pri[ring[n]])
  {
    n := 1;
    Predecessor(ring, 0);
    var entry := q.next;
    while entry != q
      invariant Ring(ring) && 0 < n <= |ring| && entry == ring[Follow(|ring|, n - 1)]
      invariant forall k :: 1 <= k < n ==> pri[ring[k]] <= pri[e]
      decreases |ring| - n
    {
      if pri[e] < pri[entry] {
        break;
      }
      Predecessor(ring, n);
      entry := entry.next;
      n := n + 1;
    }
    InsertPrev(entry, e, ring, if n < |ring| then n else 0);
    BeforeIs(ring, if n < |ring| then n else 0, e);
  }
}
