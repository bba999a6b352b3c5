/** Priority data queues: a pool of nodes holding a list sorted by data priority and a free list,
    and a watermark below which every node has been used. */
module PriDataQueues {
  import opened Options
  import opened PriorityLists
  import opened LinkedChains

  datatype Er = E_OK | E_PAR | E_NOEXS | E_TMOUT
  datatype Outcome = Returns(er: Er) | Blocks

  datatype Item = Item(data: int, pri: nat)
  datatype Sender = Sender(task: nat, item: Item)
  // A task woken from waiting to receive, and the item it gets.
  datatype Receipt = Receipt(task: nat, item: Item)

  const TMIN_DPRI: nat := 1

  // How many leading items come before a new one of priority p.
  function Rank(items: seq<Item>, p: nat): (n: nat)
    ensures n <= |items| && (forall i :: 0 <= i < n ==> items[i].pri <= p) && (n < |items| ==> p < items[n].pri)
  {
    if items == [] || p < items[0].pri then 0 else 1 + Rank(items[1..], p)
  }

  function InsertItem(items: seq<Item>, x: Item): seq<Item> {
    items[..Rank(items, x.pri)] + [x] + items[Rank(items, x.pri)..]
  }

  ghost predicate ByPri(items: seq<Item>) {
    forall i, j :: 0 <= i < j < |items| ==> items[i].pri <= items[j].pri
  }

  // The places of the items after an insertion.
  lemma InsertPlaces(items: seq<Item>, x: Item)
    ensures var n, r := Rank(items, x.pri), InsertItem(items, x);
            && |r| == |items| + 1 && n < |r| && r[n] == x
            && (forall i :: 0 <= i < n ==> r[i] == items[i]) && (forall i :: n < i < |r| ==> r[i] == items[i - 1])
  {
  }

  lemma RankDivides(items: seq<Item>, p: nat)
    requires ByPri(items)
    ensures forall i :: 0 <= i < |items| ==> (items[i].pri <= p <==> i < Rank(items, p))
  {
    hide Rank;
    var n := Rank(items, p);
    forall i | n <= i < |items| ensures p < items[i].pri { assert n < i ==> items[n].pri <= items[i].pri; }
  }

  // Kept in order; a new item goes behind all of its priority and ahead of all later ones.
  lemma InsertKeepsOrder(items: seq<Item>, x: Item)
    requires ByPri(items)
    ensures ByPri(InsertItem(items, x))
    ensures forall i :: 0 <= i < |items| ==> (items[i].pri <= x.pri <==> i < Rank(items, x.pri))
  {
    hide Rank, InsertItem;
    InsertPlaces(items, x);
    RankDivides(items, x.pri);
  }

  // x has come in among the items: behind all of its priority or a higher one, ahead of all others.
  ghost predicate Arrived(items: seq<Item>, r: seq<Item>, x: Item) {
    && |r| == |items| + 1
    && exists n :: 0 <= n < |r| && r[n] == x
         && (forall i :: 0 <= i < n ==> r[i] == items[i] && items[i].pri <= x.pri)
         && (forall i :: n < i < |r| ==> r[i] == items[i - 1] && x.pri < items[i - 1].pri)
  }

  lemma InsertArrives(items: seq<Item>, x: Item)
    requires ByPri(items)
    ensures Arrived(items, InsertItem(items, x), x)
    ensures multiset(InsertItem(items, x)) == multiset(items) + multiset{x}
  {
    hide Rank;
    var n := Rank(items, x.pri);
    assert items == items[..n] + items[n..];
    InsertPlaces(items, x);
    RankDivides(items, x.pri);
  }

  // The items that waiting senders hold.
  function Offers(ws: seq<Sender>): (r: seq<Item>)
    ensures |r| == |ws|
  {
    seq(|ws|, i requires 0 <= i < |ws| => ws[i].item)
  }

  function Tasks(ws: seq<Sender>): (r: seq<nat>)
    ensures |r| == |ws|
  {
    seq(|ws|, i requires 0 <= i < |ws| => ws[i].task)
  }

  lemma FirstOffer(ws: seq<Sender>)
    requires ws != []
    ensures multiset(Offers(ws)) == multiset{ws[0].item} + multiset(Offers(ws[1..]))
  {
    assert Offers(ws) == [ws[0].item] + Offers(ws[1..]);
  }

  // One item is received from items, or from the first sender in ws; the others are all still there.
  lemma ReceivedOne(items: seq<Item>, ws: seq<Sender>, x: Item, items': seq<Item>, ws': seq<Sender>)
    requires ByPri(items) && (items != [] || ws != []) && ws' == (if ws == [] then [] else ws[1..])
    requires items != [] ==> x == items[0] && items' == if ws == [] then items[1..] else InsertItem(items[1..], ws[0].item)
    requires items == [] ==> x == ws[0].item && items' == []
    ensures multiset{x} + (multiset(items') + multiset(Offers(ws'))) == multiset(items) + multiset(Offers(ws))
    ensures items != [] && ws != [] ==> Arrived(items[1..], items', ws[0].item)
  {
    hide InsertItem, Arrived;
    if items != [] { FirstItem(items); }
    if ws != [] {
      FirstOffer(ws);
      if items != [] { InsertArrives(items[1..], ws[0].item); }
    }
  }

  lemma FirstItem(items: seq<Item>)
    requires items != []
    ensures multiset(items) == multiset{items[0]} + multiset(items[1..])
  {
    assert items == [items[0]] + items[1..];
  }

  lemma {:induction false} RankUnique(items: seq<Item>, p: nat, n: nat)
    requires n <= |items| && (forall i :: 0 <= i < n ==> items[i].pri <= p) && (n < |items| ==> p < items[n].pri)
    ensures Rank(items, p) == n
    decreases n
  {
    if n > 0 {
      assert items[0].pri <= p;
      RankUnique(items[1..], p, n - 1);
    }
  }

  // live and free list each node below the watermark once, and no other.
  ghost predicate Partition(live: seq<nat>, free: seq<nat>, unused: nat) {
    && Distinct(live) && Distinct(free) && (forall x :: x in live ==> x !in free)
    && (forall x: nat :: x < unused <==> x in live || x in free)
    && |live| + |free| == unused
  }

  lemma TakeFree(live: seq<nat>, free: seq<nat>, unused: nat, i: nat)
    requires Partition(live, free, unused) && free != [] && i <= |live|
    ensures free[0] < unused && free[0] !in live && free[0] !in free[1..] && Partition(Insert(live, i, free[0]), free[1..], unused)
  {
    assert free == [free[0]] + free[1..];
    assert free[0] in free;
    InsertMembers(live, i, free[0]);
  }

  lemma TakeUnused(live: seq<nat>, free: seq<nat>, unused: nat, i: nat)
    requires Partition(live, free, unused) && i <= |live|
    ensures unused !in live && unused !in free && Partition(Insert(live, i, unused), free, unused + 1)
  {
    InsertMembers(live, i, unused);
  }

  lemma GiveBack(live: seq<nat>, free: seq<nat>, unused: nat)
    requires Partition(live, free, unused) && live != []
    ensures live[0] !in free && live[0] !in live[1..] && Partition(live[1..], [live[0]] + free, unused)
  {
    assert live == [live[0]] + live[1..];
    assert live[0] in live;
  }

  function ItemAt(data: seq<int>, pri: seq<nat>, x: nat): Item {
    if x < |data| && x < |pri| then Item(data[x], pri[x]) else Item(0, 0)
  }

  // What the nodes of a list hold.
  function ItemsOf(data: seq<int>, pri: seq<nat>, ns: seq<nat>): (r: seq<Item>)
    ensures |r| == |ns|
  {
    seq(|ns|, i requires 0 <= i < |ns| => ItemAt(data, pri, ns[i]))
  }

  lemma ItemsInsert(data: seq<int>, pri: seq<nat>, ns: seq<nat>, i: nat, x: nat, item: Item)
    requires i <= |ns| && x < |data| == |pri| && x !in ns
    ensures var items := ItemsOf(data, pri, ns);
            ItemsOf(data[x := item.data], pri[x := item.pri], Insert(ns, i, x)) == items[..i] + [item] + items[i..]
  {
    var items, all := ItemsOf(data, pri, ns), Insert(ns, i, x);
    var r := ItemsOf(data[x := item.data], pri[x := item.pri], all);
    forall j | 0 <= j < |all| ensures r[j] == (items[..i] + [item] + items[i..])[j] {
      if j < i { assert all[j] == ns[j] && ns[j] in ns; }
      if j > i { assert all[j] == ns[j - 1] && ns[j - 1] in ns; }
    }
  }

  lemma ItemsOther(data: seq<int>, pri: seq<nat>, ns: seq<nat>, x: nat, item: Item)
    requires x < |data| == |pri| && x !in ns
    ensures ItemsOf(data[x := item.data], pri[x := item.pri], ns) == ItemsOf(data, pri, ns)
  {
    assert forall i :: 0 <= i < |ns| ==> ns[i] in ns;
  }

  class PriDataQueue {
    const data: array<int>          // the nodes of p_pdqmb: data,
    const datapri: array<nat>       // datapri
    const next: array<nat>          // and p_next; the length of the pool stands for NULL
    const maxdpri: nat
    const tpri: bool
    var noexs: bool
    var count: nat
    var p_head: nat
    var p_freelist: nat
    var unused: nat
    var swait: seq<Sender>
    var rwait: seq<nat>
    ghost var live: seq<nat>        // the nodes from p_head on
    ghost var free: seq<nat>        // the nodes from p_freelist on

    ghost predicate Shape() {
      data != next as object && datapri != next && data.Length == datapri.Length == next.Length
    }

    // Live, free and never used nodes divide the pool, and the watermark stays within it.
    ghost predicate PoolOk()
      reads this`count, this`p_head, this`p_freelist, this`unused, this`live, this`free, next
    {
      && Shape() && unused <= next.Length && count == |live| && Partition(live, free, unused)
      && Chain(next[..], p_head, live, next.Length) && Chain(next[..], p_freelist, free, next.Length)
    }

    // The items stored, in the order they will be received.
    ghost function Items(): seq<Item>
      requires PoolOk()
      reads this`count, this`p_head, this`p_freelist, this`unused, this`live, this`free, next, data, datapri
    {
      ItemsOf(data[..], datapri[..], live)
    }

    ghost predicate Valid()
      reads this, next, data, datapri
    {
      && PoolOk() && ByPri(Items())
      && (swait != [] ==> count == next.Length && rwait == [])
      && (rwait != [] ==> count == 0)
    }

    constructor (pdqcnt: nat, maxdpri: nat, tpri: bool)
      ensures Valid() && Items() == [] && swait == [] && rwait == [] && !noexs && next.Length == pdqcnt
      ensures fresh(next) && fresh(data) && fresh(datapri) && this.maxdpri == maxdpri && this.tpri == tpri
    {
      data, datapri, next := new int[pdqcnt], new nat[pdqcnt], new nat[pdqcnt];
      this.maxdpri, this.tpri := maxdpri, tpri;
      noexs, count, p_head, p_freelist, unused := false, 0, pdqcnt, pdqcnt, 0;
      swait, rwait, live, free := [], [], [], [];
    }

    // a node from the free list, or the first one never used
    method TakeNode(ghost i: nat) returns (node: nat)
      requires PoolOk() && count < next.Length && i <= |live|
      modifies this`p_freelist, this`unused, this`free
      ensures node < next.Length && node !in live && node !in free && Partition(Insert(live, i, node), free, unused) && unused <= next.Length
      ensures Chain(next[..], p_freelist, free, next.Length) && Distinct(live) && forall x :: x in live ==> x !in free
    {
      if p_freelist != next.Length {
        TakeFree(live, free, unused, i);
        ChainTail(next[..], p_freelist, free, next.Length);
        node := p_freelist;
        p_freelist := next[node];
        free := free[1..];
      } else {
        TakeUnused(live, free, unused, i);
        node := unused;
        unused := unused + 1;
      }
    }

    // the walk along the list in enqueue_pridata: prev's link, or p_head if prev is NULL, leads to cur
    method FindPlace(p: nat, ghost n: nat) returns (prev: nat, cur: nat)
      requires Shape() && Chain(next[..], p_head, live, next.Length) && n == Rank(ItemsOf(data[..], datapri[..], live), p)
      ensures cur == (if n < |live| then live[n] else next.Length) && prev == if n == 0 then next.Length else live[n - 1]
    {
      ghost var i, items := 0, ItemsOf(data[..], datapri[..], live);
      prev, cur := next.Length, p_head;
      while cur != next.Length
        invariant i <= |live| && cur == (if i < |live| then live[i] else next.Length) && prev == if i == 0 then next.Length else live[i - 1]
        invariant forall j :: 0 <= j < i ==> items[j].pri <= p
        invariant i < |live| ==> cur < next.Length
        decreases |live| - i
      {
        assert items[i] == ItemAt(data[..], datapri[..], live[i]);
        if datapri[cur] > p {
          break;
        }
        prev := cur;
        assert next[live[i]] == Succ(live, i, next.Length);
        cur := next[cur];
        i := i + 1;
      }
      RankUnique(items, p, i);
    }

    // the end of enqueue_pridata
    method LinkIn(node: nat, prev: nat, cur: nat, ghost n: nat)
      requires Shape() && n <= |live| && node < next.Length && node !in live && node !in free && Distinct(live)
      requires Chain(next[..], p_head, live, next.Length) && Chain(next[..], p_freelist, free, next.Length)
      requires forall x :: x in live ==> x !in free
      requires cur == (if n < |live| then live[n] else next.Length) && prev == if n == 0 then next.Length else live[n - 1]
      modifies next, this`p_head, this`live
      ensures live == Insert(old(live), n, node)
      ensures Chain(next[..], p_head, live, next.Length) && Chain(next[..], p_freelist, free, next.Length)
    {
      ChainInsert(next[..], p_head, live, next.Length, n, node);
      ChainOther(next[..], p_freelist, free, next.Length, node, cur);
      if n > 0 {
        assert live[n - 1] in live;
        ChainOther(next[..][node := cur], p_freelist, free, next.Length, prev, node);
      }
      next[node] := cur;
      if prev == next.Length {
        p_head := node;
      } else {
        next[prev] := node;
      }
      live := Insert(live, n, node);
    }

    // enqueue_pridata
    method EnqueuePridata(x: Item)
      requires PoolOk() && count < next.Length
      modifies next, data, datapri, this`count, this`p_head, this`p_freelist, this`unused, this`live, this`free
      ensures PoolOk() && count == old(count) + 1 && Items() == InsertItem(old(Items()), x)
    {
      hide Chain, Distinct;
      ghost var items := Items();
      ghost var n := Rank(items, x.pri);
      ghost var before := live;
      var node := TakeNode(n);
      ItemsOther(data[..], datapri[..], live, node, x);
      ItemsInsert(data[..], datapri[..], live, n, node, x);
      data[node] := x.data;
      datapri[node] := x.pri;
      var prev, cur := FindPlace(x.pri, n);
      LinkIn(node, prev, cur, n);
      count := count + 1;
    }

    // dequeue_pridata
    method DequeuePridata() returns (x: Item)
      requires PoolOk() && count > 0
      modifies next, this`count, this`p_head, this`p_freelist, this`live, this`free
      ensures PoolOk() && count == old(count) - 1 && [x] + Items() == old(Items())
    {
      hide Partition, Chain;
      GiveBack(live, free, unused);
      ChainTail(next[..], p_head, live, next.Length);
      var node := p_head;
      assert live == [node] + live[1..];
      ChainPush(next[..], p_freelist, free, next.Length, node);
      ChainOther(next[..], next[node], live[1..], next.Length, node, p_freelist);
      p_head := next[node];
      count := count - 1;
      x := Item(data[node], datapri[node]);
      next[node] := p_freelist;
      p_freelist := node;
      live, free := live[1..], [node] + free;
    }

    lemma CountBound()
      requires PoolOk()
      ensures count <= next.Length
    {
    }

    // send_pridata
    method SendPridata(x: Item) returns (ok: bool, woken: Option<Receipt>)
      requires Valid()
      modifies next, data, datapri, this`count, this`p_head, this`p_freelist, this`unused, this`live, this`free, this`rwait
      ensures Valid() && (ok <==> old(rwait) != [] || old(count) < next.Length) && (!ok ==> count == next.Length)
      ensures old(rwait) != [] ==> woken == Some(Receipt(old(rwait)[0], x)) && rwait == old(rwait)[1..] && Items() == old(Items())
      ensures old(rwait) == [] ==> woken == None && rwait == [] && Items() == if ok then InsertItem(old(Items()), x) else old(Items())
    {
      hide PoolOk, ItemsOf;
      CountBound();
      if rwait != [] {
        woken := Some(Receipt(rwait[0], x));
        rwait := rwait[1..];
        return true, woken;
      } else if count < next.Length {
        InsertKeepsOrder(Items(), x);
        EnqueuePridata(x);
        return true, None;
      } else {
        return false, None;
      }
    }

    // snd_pdq, psnd_pdq (poll), tsnd_pdq.  place: where the wait queue takes the caller in.
    method SndPdq(self: nat, x: Item, place: nat, poll: bool) returns (out: Outcome, woken: Option<Receipt>)
      requires Valid() && place <= |swait|
      modifies this, next, data, datapri
      ensures Valid() && noexs == old(noexs)
      ensures out == Returns(E_PAR) <==> x.pri < TMIN_DPRI || (!noexs && x.pri > maxdpri)
      ensures out == Returns(E_NOEXS) <==> TMIN_DPRI <= x.pri && noexs
      ensures out == Returns(E_OK) <==> !noexs && TMIN_DPRI <= x.pri <= maxdpri && (old(rwait) != [] || old(count) < next.Length)
      ensures out == Returns(E_TMOUT) ==> poll && old(count) == next.Length
      ensures out == Blocks ==> !poll && old(count) == next.Length
      ensures out != Returns(E_OK) && out != Blocks ==> woken == None && Items() == old(Items()) && rwait == old(rwait) && swait == old(swait)
      ensures out == Returns(E_OK) && old(rwait) == [] ==> Arrived(old(Items()), Items(), x) && woken == None && swait == old(swait) == [] && rwait == []
      ensures out == Returns(E_OK) && old(rwait) != [] ==> woken == Some(Receipt(old(rwait)[0], x)) && rwait == old(rwait)[1..] && Items() == []
      ensures out == Blocks ==> old(rwait) == rwait == [] && Items() == old(Items()) && woken == None
      ensures out == Blocks ==> swait == old(swait)[..place] + [Sender(self, x)] + old(swait)[place..]
    {
      hide Partition, Chain, InsertItem, ByPri, Arrived, ItemsOf, PoolOk;
      Sorted();
      if x.pri < TMIN_DPRI {
        return Returns(E_PAR), None;
      }
      if noexs {
        return Returns(E_NOEXS), None;
      }
      if x.pri > maxdpri {
        return Returns(E_PAR), None;
      }
      InsertArrives(Items(), x);
      var ok;
      ok, woken := SendPridata(x);
      if ok {
        return Returns(E_OK), woken;
      }
      if poll {
        return Returns(E_TMOUT), None;
      }
      swait := swait[..place] + [Sender(self, x)] + swait[place..];
      return Blocks, None;
    }

    // receive_pridata: the most urgent item stored; the room it leaves goes to the first waiting sender
    method ReceivePridata() returns (ok: bool, x: Item, woken: Option<nat>)
      requires Valid()
      modifies next, data, datapri, this`count, this`p_head, this`p_freelist, this`unused, this`live, this`free, this`swait
      ensures Valid() && (ok <==> old(Items()) != [] || old(swait) != [])
      ensures ok ==> woken == (if old(swait) == [] then None else Some(old(swait)[0].task)) && swait == (if old(swait) == [] then [] else old(swait)[1..])
      ensures old(Items()) != [] ==> x == old(Items())[0]
      ensures old(Items()) != [] ==> Items() == if old(swait) == [] then old(Items())[1..] else InsertItem(old(Items())[1..], old(swait)[0].item)
      ensures old(Items()) == [] && old(swait) != [] ==> x == old(swait)[0].item && Items() == []
      ensures !ok ==> woken == None && swait == old(swait) && Items() == []
    {
      hide Partition, Chain, InsertItem;
      x, woken := Item(0, 0), None;
      if count > 0 {
        ghost var all := Items();
        x := DequeuePridata();
        assert Items() == all[1..];
        if swait != [] {
          var w := swait[0];
          swait := swait[1..];
          InsertKeepsOrder(Items(), w.item);
          EnqueuePridata(w.item);
          woken := Some(w.task);
        }
        return true, x, woken;
      } else if swait != [] {
        var w := swait[0];
        swait := swait[1..];
        return true, w.item, Some(w.task);
      } else {
        return false, x, None;
      }
    }

    lemma Sorted()
      requires Valid()
      ensures PoolOk() && ByPri(Items()) && count == |Items()| <= next.Length && Shape()
      ensures (swait != [] ==> count == next.Length && rwait == []) && (rwait != [] ==> count == 0)
    {
    }

    // The items stored and those of waiting senders.
    ghost function Present(): multiset<Item>
      requires PoolOk()
      reads this`count, this`p_head, this`p_freelist, this`unused, this`live, this`free, this`swait, next, data, datapri
    {
      multiset(Items()) + multiset(Offers(swait))
    }

    // rcv_pdq, prcv_pdq (poll), trcv_pdq.  One item leaves, the most urgent one; if a sender waits, its
    // item comes in and it is woken.
    method RcvPdq(self: nat, poll: bool) returns (out: Outcome, x: Item, woken: Option<nat>)
      requires Valid()
      modifies this, next, data, datapri
      ensures Valid() && noexs == old(noexs)
      ensures out == Returns(E_NOEXS) <==> noexs
      ensures out == Returns(E_OK) <==> !noexs && (old(Items()) != [] || old(swait) != [])
      ensures out == Returns(E_TMOUT) <==> !noexs && old(Items()) == [] && old(swait) == [] && poll
      ensures out == Blocks <==> !noexs && old(Items()) == [] && old(swait) == [] && !poll
      ensures out == Returns(E_OK) ==> multiset{x} + Present() == old(Present()) && rwait == old(rwait)
      ensures out == Returns(E_OK) ==> woken == (if old(swait) == [] then None else Some(old(swait)[0].task))
      ensures out == Returns(E_OK) ==> swait == if old(swait) == [] then [] else old(swait)[1..]
      ensures out == Returns(E_OK) && old(Items()) != [] ==> x == old(Items())[0]
      ensures out == Returns(E_OK) && old(Items()) != [] && old(swait) == [] ==> Items() == old(Items())[1..]
      ensures out == Returns(E_OK) && old(Items()) != [] && old(swait) != [] ==> Arrived(old(Items())[1..], Items(), old(swait)[0].item)
      ensures out == Returns(E_OK) && old(Items()) == [] ==> x == old(swait)[0].item && Items() == []
      ensures out != Returns(E_OK) ==> woken == None && Items() == old(Items()) && swait == old(swait)
      ensures out != Returns(E_OK) ==> rwait == if out == Blocks then old(rwait) + [self] else old(rwait)
    {
      hide Partition, Chain, InsertItem, Arrived, ItemsOf, Offers, PoolOk, ByPri;
      x, woken := Item(0, 0), None;
      if noexs {
        return Returns(E_NOEXS), x, None;
      }
      Sorted();
      ghost var items, ws := Items(), swait;
      var ok;
      ok, x, woken := ReceivePridata();
      if ok {
        ReceivedOne(items, ws, x, Items(), swait);
        return Returns(E_OK), x, woken;
      }
      Sorted();
      if poll {
        return Returns(E_TMOUT), x, None;
      }
      rwait := rwait + [self];
      return Blocks, x, None;
    }

    // ini_pdq: everybody who waits is released with E_DLT, the pool is as new
    method IniPdq() returns (er: Er, released: seq<nat>)
      requires Valid()
      modifies this
      ensures Valid() && noexs == old(noexs) && er == if noexs then E_NOEXS else E_OK
      ensures er == E_OK ==> Items() == [] && swait == [] && rwait == [] && unused == 0 && released == Tasks(old(swait)) + old(rwait)
      ensures er != E_OK ==> released == [] && unchanged(this)
    {
      if noexs {
        return E_NOEXS, [];
      }
      released := Tasks(swait) + rwait;
      swait, rwait := [], [];
      count, p_head, unused, p_freelist := 0, next.Length, 0, next.Length;
      live, free := [], [];
      er := E_OK;
    }
  }
}
