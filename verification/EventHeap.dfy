/** Event times as the time-event manager keeps them: 32 bits, wrapping, compared relative to a
    moving boundary.  Beside each stands the time it stands for, without wrap-around. */
module EventTimes {
  const WRAP: int := 0x1_0000_0000
  const BOUNDARY_MARGIN: int := 200_000_000
  const TMAX_RELTIM: int := 4_000_000_000

  function Mod32(t: int): (r: nat)
    ensures r < WRAP
  {
    t % WRAP
  }

  // unsigned 32-bit subtraction
  function Sub32(a: int, b: int): (r: nat)
    ensures r < WRAP
  {
    (a - b) % WRAP
  }

  // EVTTIM_ADVANCE of time t is its true distance from the boundary as long as t lies
  // within 2^32 of it.
  lemma AdvanceIsTrue(t: int, edge: int)
    requires edge <= t < edge + WRAP
    ensures Sub32(Mod32(t), Mod32(edge)) == t - edge
  {
    var q := t / WRAP - edge / WRAP;
    assert t - edge == Mod32(t) - Mod32(edge) + WRAP * q;
    ModUnique(Mod32(t) - Mod32(edge), t - edge, -q);
  }

  lemma ModUnique(a: int, r: int, q: int)
    requires 0 <= r < WRAP && a == r + WRAP * q
    ensures a % WRAP == r
  {
  }

  lemma ModAdd(a: int, b: int)
    ensures Mod32(Mod32(a) + b) == Mod32(a + b)
  {
    assert a == WRAP * (a / WRAP) + Mod32(a);
    var x := Mod32(a) + b;
    assert x == WRAP * (x / WRAP) + x % WRAP;
    ModUnique(a + b, x % WRAP, a / WRAP + x / WRAP);
  }

  lemma ModSub(a: int, b: int)
    ensures Sub32(Mod32(a), b) == Mod32(a - b)
  {
    ModAdd(a, -b);
  }

  // The test whether an event of true time t is due at true time c, made on wrapped values.
  predicate SeenDue(t: int, c: int) {
    Sub32(Mod32(t), Mod32(c - BOUNDARY_MARGIN)) <= Sub32(Mod32(c), Mod32(c - BOUNDARY_MARGIN))
  }

  // An event in the past is seen as due exactly if it lags by no more than the margin.
  lemma DueTestExact(t: int, c: int)
    requires c - WRAP < t <= c
    ensures SeenDue(t, c) <==> c - t <= BOUNDARY_MARGIN
  {
    var edge := c - BOUNDARY_MARGIN;
    AdvanceIsTrue(c, edge);
    if edge <= t {
      AdvanceIsTrue(t, edge);
    } else {
      ModAdd(t, WRAP);
      assert Mod32(t + WRAP) == Mod32(t) by { ModUnique(t + WRAP, Mod32(t), t / WRAP + 1); }
      AdvanceIsTrue(t + WRAP, edge);
    }
  }

  // An event in the future, up to the longest time that can be asked for, is never seen as due.
  lemma FutureNotDue(t: int, c: int)
    requires c < t < c - BOUNDARY_MARGIN + WRAP
    ensures !SeenDue(t, c)
  {
    AdvanceIsTrue(c, c - BOUNDARY_MARGIN);
    AdvanceIsTrue(t, c - BOUNDARY_MARGIN);
  }

  // One tick beyond the margin and an overdue event is taken for one far in the future.
  lemma LateEventMissed()
    ensures !SeenDue(0, BOUNDARY_MARGIN + 1) && SeenDue(0, BOUNDARY_MARGIN)
  {
    DueTestExact(0, BOUNDARY_MARGIN + 1);
    DueTestExact(0, BOUNDARY_MARGIN);
  }
}

/** The time-event heap: events in slots 1 to n, each slot not before its parent i / 2.  While an
    event is being placed there is a hole, a slot whose content does not count. */
module HeapOrder {

  function At(tt: seq<int>, e: nat): int {
    if e < |tt| then tt[e] else 0
  }

  // Slots and back-pointers are inverse to each other on the events s.
  ghost predicate Slotted(h: seq<nat>, pos: seq<nat>, n: nat, hole: nat, s: set<nat>) {
    && n < |h|
    && (forall i :: 1 <= i <= n && i != hole ==> h[i] in s && h[i] < |pos| && pos[h[i]] == i)
    && (forall e: nat :: e in s ==> e < |pos| && 1 <= pos[e] <= n && pos[e] != hole && h[pos[e]] == e)
  }

  ghost predicate Ordered(h: seq<nat>, n: nat, hole: nat, tt: seq<int>) {
    n < |h| && forall i :: 2 <= i <= n && i != hole && i / 2 != hole ==> At(tt, h[i / 2]) <= At(tt, h[i])
  }

  // The parent of the hole is not after the hole's children.
  ghost predicate Bridged(h: seq<nat>, n: nat, hole: nat, tt: seq<int>) {
    n < |h| && (1 < hole <= n ==> forall i :: 2 <= i <= n && i / 2 == hole ==> At(tt, h[hole / 2]) <= At(tt, h[i]))
  }

  ghost predicate Below(h: seq<nat>, n: nat, hole: nat, tt: seq<int>, t: int) {
    n < |h| && forall i :: 2 <= i <= n && i / 2 == hole ==> t <= At(tt, h[i])
  }

  ghost predicate Above(h: seq<nat>, n: nat, hole: nat, tt: seq<int>, t: int) {
    n < |h| && (1 < hole <= n ==> At(tt, h[hole / 2]) <= t)
  }

  lemma InSlot(h: seq<nat>, pos: seq<nat>, n: nat, hole: nat, s: set<nat>, i: nat)
    requires Slotted(h, pos, n, hole, s) && 1 <= i <= n && i != hole
    ensures n < |h| && h[i] in s && h[i] < |pos| && pos[h[i]] == i
  {
  }

  lemma OfEvent(h: seq<nat>, pos: seq<nat>, n: nat, s: set<nat>, e: nat)
    requires Slotted(h, pos, n, 0, s) && e in s
    ensures n < |h| && e < |pos| && 1 <= pos[e] <= n && h[pos[e]] == e
  {
  }

  lemma SlotDistinct(h: seq<nat>, pos: seq<nat>, n: nat, hole: nat, s: set<nat>, i: nat, j: nat)
    requires Slotted(h, pos, n, hole, s) && 1 <= i <= n && 1 <= j <= n && i != hole && j != hole && i != j
    ensures h[i] != h[j]
  {
  }

  // The content of slot p moves to the hole, and p is the hole.
  lemma MoveSlots(h: seq<nat>, pos: seq<nat>, n: nat, hole: nat, s: set<nat>, p: nat)
    requires Slotted(h, pos, n, hole, s) && 1 <= hole <= n && 1 <= p <= n && p != hole
    ensures h[p] < |pos| && Slotted(h[hole := h[p]], pos[h[p] := hole], n, p, s)
  {
    var h', pos' := h[hole := h[p]], pos[h[p] := hole];
    forall i | 1 <= i <= n && i != p ensures h'[i] in s && h'[i] < |pos'| && pos'[h'[i]] == i {
      if i != hole { SlotDistinct(h, pos, n, hole, s, i, p); }
    }
  }

  lemma UpStep(h: seq<nat>, n: nat, hole: nat, tt: seq<int>, t: int)
    requires 1 < hole <= n && Ordered(h, n, hole, tt) && Bridged(h, n, hole, tt) && Below(h, n, hole, tt, t)
    requires t < At(tt, h[hole / 2])
    ensures var p := hole / 2; var h' := h[hole := h[p]];
            Ordered(h', n, p, tt) && Bridged(h', n, p, tt) && Below(h', n, p, tt, t)
  {
  }

  lemma DownStep(h: seq<nat>, n: nat, hole: nat, c: nat, tt: seq<int>, t: int)
    requires 1 <= hole < c <= n && c / 2 == hole && Ordered(h, n, hole, tt) && Bridged(h, n, hole, tt) && Above(h, n, hole, tt, t)
    requires forall i :: 2 <= i <= n && i / 2 == hole ==> At(tt, h[c]) <= At(tt, h[i])
    requires At(tt, h[c]) < t
    ensures var h' := h[hole := h[c]];
            Ordered(h', n, c, tt) && Bridged(h', n, c, tt) && Above(h', n, c, tt, t)
  {
  }

  // An event fills the hole.
  lemma Fill(h: seq<nat>, pos: seq<nat>, n: nat, hole: nat, s: set<nat>, tt: seq<int>, e: nat)
    requires Slotted(h, pos, n, hole, s) && 1 <= hole <= n && e !in s && e < |pos|
    requires Ordered(h, n, hole, tt) && Above(h, n, hole, tt, At(tt, e)) && Below(h, n, hole, tt, At(tt, e))
    ensures Slotted(h[hole := e], pos[e := hole], n, 0, s + {e}) && Ordered(h[hole := e], n, 0, tt)
  {
  }

  // A hole behind the last slot.
  lemma OpenLast(h: seq<nat>, pos: seq<nat>, n: nat, s: set<nat>, tt: seq<int>, t: int)
    requires Slotted(h, pos, n, 0, s) && Ordered(h, n, 0, tt) && n + 1 < |h|
    ensures var m := n + 1;
            Slotted(h, pos, m, m, s) && Ordered(h, m, m, tt) && Bridged(h, m, m, tt) && Below(h, m, m, tt, t)
  {
  }

  // Event e leaves its slot and the last event z is about to be placed again.
  lemma OpenAt(h: seq<nat>, pos: seq<nat>, n: nat, s: set<nat>, tt: seq<int>, e: nat)
    requires Slotted(h, pos, n, 0, s) && Ordered(h, n, 0, tt) && e in s && h[n] != e
    ensures var hole, m, z := pos[e], n - 1, h[n];
            && 1 <= hole <= m && z in s && Slotted(h, pos, m, hole, s - {e} - {z})
            && Ordered(h, m, hole, tt) && Bridged(h, m, hole, tt)
            && (hole > 1 && At(tt, z) < At(tt, h[hole / 2]) ==> Below(h, m, hole, tt, At(tt, z)))
  {
    var hole, m, z := pos[e], n - 1, h[n];
    forall i | 1 <= i <= m && i != hole ensures h[i] in s - {e} - {z} {
      SlotDistinct(h, pos, n, 0, s, i, n);
      SlotDistinct(h, pos, n, 0, s, i, hole);
    }
    assert forall i :: 2 <= i <= m && i / 2 == hole && hole > 1 ==> At(tt, h[hole / 2]) <= At(tt, h[hole]) <= At(tt, h[i]);
  }

  // The event in the last slot leaves.
  lemma CloseLast(h: seq<nat>, pos: seq<nat>, n: nat, s: set<nat>, tt: seq<int>)
    requires Slotted(h, pos, n, 0, s) && Ordered(h, n, 0, tt) && n >= 1
    ensures Slotted(h, pos, n - 1, 0, s - {h[n]}) && Ordered(h, n - 1, 0, tt)
  {
    forall i | 1 <= i <= n - 1 ensures h[i] in s - {h[n]} { SlotDistinct(h, pos, n, 0, s, i, n); }
  }

  // Its slot is then a hole behind the others.
  lemma ClosedHole(h: seq<nat>, pos: seq<nat>, n: nat, s: set<nat>, tt: seq<int>)
    requires Slotted(h, pos, n, 0, s) && Ordered(h, n, 0, tt) && n >= 1
    ensures var m, z := n - 1, h[n];
            && Slotted(h, pos, m, n, s - {z}) && Ordered(h, m, n, tt) && Bridged(h, m, n, tt)
            && (n > 1 ==> At(tt, h[n / 2]) <= At(tt, z)) && z in s && z < |pos| && pos[z] == n
  {
    CloseLast(h, pos, n, s, tt);
  }

  lemma RootAbove(h: seq<nat>, n: nat, tt: seq<int>, t: int)
    requires n < |h|
    ensures Above(h, n, 1, tt, t)
  {
  }

  // No event is before the one in slot 1.
  lemma {:induction false} TopIsFirst(h: seq<nat>, n: nat, tt: seq<int>, i: nat)
    requires Ordered(h, n, 0, tt) && 1 <= i <= n
    ensures At(tt, h[1]) <= At(tt, h[i])
    decreases i
  {
    if i > 1 { TopIsFirst(h, n, tt, i / 2); }
  }
}

/** The time-event heap as the kernel stores it: tmevt_heap, and in every time-event block its
    32-bit time and its place in the heap. */
module TimeEventHeap {
  import opened EventTimes
  import opened HeapOrder

  lemma {:induction false} SetBound(s: set<nat>, n: nat)
    requires forall e :: e in s ==> e < n
    ensures |s| <= n
    decreases n
  {
    if n == 0 {
      assert s == {};
    } else {
      SetBound(s - {n - 1}, n - 1);
    }
  }

  // The time of an event that is in no slot does not matter.
  lemma OrderedOther(h: seq<nat>, pos: seq<nat>, n: nat, s: set<nat>, tt: seq<int>, e: nat, t: int)
    requires Slotted(h, pos, n, 0, s) && Ordered(h, n, 0, tt) && e !in s && e < |tt|
    ensures Ordered(h, n, 0, tt[e := t])
  {
  }

  class EventHeap {
    const heap: array<nat>      // tmevt_heap: the event in each slot; slot 0 is not used as one
    const evttim: array<nat>    // evttim of each time-event block
    const pos: array<nat>       // p_tmevtn of each time-event block
    var last: nat               // p_last_tmevtn
    var boundary: nat           // boundary_evttim
    ghost var tt: seq<int>      // the time of each event, without wrap-around
    ghost var edge: int         // the boundary, without wrap-around
    ghost var pending: set<nat>

    ghost predicate Shape()
      reads this`tt
    {
      && heap != evttim && heap != pos && evttim != pos
      && evttim.Length == pos.Length == |tt| && heap.Length == |tt| + 1
    }

    // The events s have their true times within reach of the boundary.
    ghost predicate Timed(s: set<nat>)
      reads this`boundary, this`edge, this`tt, evttim
    {
      && boundary == Mod32(edge)
      && forall e: nat :: e in s ==> e < evttim.Length && e < |tt| && edge <= tt[e] < edge + WRAP && evttim[e] == Mod32(tt[e])
    }

    ghost predicate Valid()
      reads this, heap, evttim, pos
    {
      && Shape() && last == |pending| && last < heap.Length
      && Slotted(heap[..], pos[..], last, 0, pending) && Ordered(heap[..], last, 0, tt) && Timed(pending)
    }

    lemma Parts()
      requires Valid()
      ensures Shape() && last == |pending| && last < heap.Length && (last == 0 ==> pending == {})
      ensures Slotted(heap[..], pos[..], last, 0, pending) && Ordered(heap[..], last, 0, tt) && Timed(pending)
    {
    }

    lemma Whole()
      requires Shape() && last == |pending| && last < heap.Length
      requires Slotted(heap[..], pos[..], last, 0, pending) && Ordered(heap[..], last, 0, tt) && Timed(pending)
      ensures Valid()
    {
    }

    lemma TimedSubset(a: set<nat>, b: set<nat>)
      requires Timed(a) && b <= a
      ensures Timed(b)
    {
    }

    // EVTTIM_ADVANCE
    function Advance(t: nat): nat
      reads this`boundary
    {
      Sub32(t, boundary)
    }

    // Comparing wrapped times relative to the boundary compares true times.
    lemma Compare(a: nat, b: nat, s: set<nat>)
      requires Timed(s) && a in s && b in s
      ensures Advance(evttim[a]) < Advance(evttim[b]) <==> tt[a] < tt[b]
      ensures Advance(evttim[a]) <= Advance(evttim[b]) <==> tt[a] <= tt[b]
    {
      AdvanceIsTrue(tt[a], edge);
      AdvanceIsTrue(tt[b], edge);
    }

    constructor (n: nat)
      ensures Valid() && pending == {} && |tt| == n && edge == -BOUNDARY_MARGIN && fresh(heap) && fresh(evttim) && fresh(pos)
    {
      heap := new nat[n + 1];
      evttim := new nat[n];
      pos := new nat[n];
      last := 0;
      boundary := Mod32(-BOUNDARY_MARGIN);
      tt := seq(n, _ => 0);
      edge := -BOUNDARY_MARGIN;
      pending := {};
    }

    // tmevt_up: the hole moves up until event e, of wrapped time t, fits
    method Up(from: nat, t: nat, ghost e: nat, ghost s: set<nat>) returns (hole: nat)
      requires Shape() && 1 <= from <= last < heap.Length && e < evttim.Length && t == evttim[e] && Timed(s + {e})
      requires Slotted(heap[..], pos[..], last, from, s) && Ordered(heap[..], last, from, tt)
      requires Bridged(heap[..], last, from, tt) && Below(heap[..], last, from, tt, tt[e])
      modifies heap, pos
      ensures 1 <= hole <= last && Slotted(heap[..], pos[..], last, hole, s) && Ordered(heap[..], last, hole, tt)
      ensures Above(heap[..], last, hole, tt, tt[e]) && Below(heap[..], last, hole, tt, tt[e])
      ensures last + 1 < heap.Length ==> heap[last + 1] == old(heap[last + 1])
    {
      hide Slotted, Ordered, Bridged, Below, Timed;
      hole := from;
      while hole > 1
        invariant last + 1 < heap.Length ==> heap[last + 1] == old(heap[last + 1])
        invariant 1 <= hole <= last && Slotted(heap[..], pos[..], last, hole, s) && Ordered(heap[..], last, hole, tt)
        invariant Bridged(heap[..], last, hole, tt) && Below(heap[..], last, hole, tt, tt[e])
      {
        var parent := hole / 2;
        InSlot(heap[..], pos[..], last, hole, s, parent);
        Compare(heap[parent], e, s + {e});
        if Advance(evttim[heap[parent]]) <= Advance(t) {
          break;
        }
        MoveSlots(heap[..], pos[..], last, hole, s, parent);
        UpStep(heap[..], last, hole, tt, tt[e]);
        MoveNode(hole, parent);
        hole := parent;
      }
    }

    // tmevt_down: the hole moves down until event e, of wrapped time t, fits
    method Down(from: nat, t: nat, ghost e: nat, ghost s: set<nat>) returns (hole: nat)
      requires Shape() && 1 <= from <= last + 1 < heap.Length && e < evttim.Length && t == evttim[e] && Timed(s + {e})
      requires Slotted(heap[..], pos[..], last, from, s) && Ordered(heap[..], last, from, tt)
      requires Bridged(heap[..], last, from, tt) && Above(heap[..], last, from, tt, tt[e])
      modifies heap, pos
      ensures if from <= last then hole <= last else hole == from && heap[..] == old(heap[..]) && pos[..] == old(pos[..])
      ensures 1 <= hole && Slotted(heap[..], pos[..], last, hole, s) && Ordered(heap[..], last, hole, tt)
      ensures Above(heap[..], last, hole, tt, tt[e]) && Below(heap[..], last, hole, tt, tt[e])
      ensures heap[last + 1] == old(heap[last + 1])
    {
      hide Slotted, Ordered, Bridged, Above, Timed;
      hole := from;
      while 2 * hole <= last
        invariant if from <= last then hole <= last else hole == from && heap[..] == old(heap[..]) && pos[..] == old(pos[..])
        invariant 1 <= hole && Slotted(heap[..], pos[..], last, hole, s) && Ordered(heap[..], last, hole, tt)
        invariant Bridged(heap[..], last, hole, tt) && Above(heap[..], last, hole, tt, tt[e])
        invariant heap[last + 1] == old(heap[last + 1])
        decreases last - hole
      {
        TimedSubset(s + {e}, s);
        var child := EarlierChild(hole, s);
        InSlot(heap[..], pos[..], last, hole, s, child);
        Compare(e, heap[child], s + {e});
        if Advance(t) <= Advance(evttim[heap[child]]) {
          break;
        }
        MoveSlots(heap[..], pos[..], last, hole, s, child);
        DownStep(heap[..], last, hole, child, tt, tt[e]);
        MoveNode(hole, child);
        hole := child;
      }
    }

    // *p_tmevtn = *p_from; p_tmevtn->p_tmevtb->p_tmevtn = p_tmevtn;
    method MoveNode(to: nat, from: nat)
      requires heap != pos && to < heap.Length && from < heap.Length && heap[from] < pos.Length
      modifies heap, pos
      ensures heap[..] == old(heap[..])[to := old(heap[from])] && pos[..] == old(pos[..])[old(heap[from]) := to]
    {
      heap[to] := heap[from];
      pos[heap[to]] := to;
    }

    // the choice between the children in tmevt_down
    method EarlierChild(hole: nat, ghost s: set<nat>) returns (child: nat)
      requires Shape() && Timed(s) && 1 <= hole && 2 * hole <= last && Slotted(heap[..], pos[..], last, hole, s)
      ensures hole < child <= last && child / 2 == hole
      ensures forall i :: 2 <= i <= last && i / 2 == hole ==> At(tt, heap[child]) <= At(tt, heap[i])
    {
      child := 2 * hole;
      if child + 1 <= last {
        Compare(heap[child + 1], heap[child], s);
        if Advance(evttim[heap[child + 1]]) < Advance(evttim[heap[child]]) {
          child := child + 1;
        }
      }
      assert forall i :: 2 <= i <= last && i / 2 == hole ==> i == 2 * hole || i == 2 * hole + 1;
    }

    // tmevtb_insert
    method Insert(e: nat)
      requires Valid() && e !in pending && e < evttim.Length && Timed({e})
      modifies this`last, this`pending, heap, pos
      ensures Valid() && pending == old(pending) + {e}
    {
      hide Valid, Slotted, Ordered, Bridged, Below, Above, Timed;
      Parts();
      Room(e);
      TimedUnion(pending, {e});
      OpenLast(heap[..], pos[..], last, pending, tt, tt[e]);
      last := last + 1;
      var hole := Up(last, evttim[e], e, pending);
      Fill(heap[..], pos[..], last, hole, pending, tt, e);
      heap[hole] := e;
      pos[e] := hole;
      pending := pending + {e};
      Whole();
    }

    lemma TimedUnion(a: set<nat>, b: set<nat>)
      requires Timed(a) && Timed(b)
      ensures Timed(a + b)
    {
    }

    // tmevt_heap has a slot for every time-event block.
    lemma Room(e: nat)
      requires Valid() && e !in pending && e < evttim.Length
      ensures last + 1 < heap.Length && |pending + {e}| == last + 1
    {
      SetBound(pending + {e}, evttim.Length);
    }

    // The last event fills the hole that tmevtb_delete or tmevtb_delete_top has moved to its place.
    // If the last event is the deleted one, the hole is its own slot and nothing changes.
    method Refill(hole: nat, ghost s: set<nat>)
      requires Shape() && 1 <= hole <= last + 1 < heap.Length && heap[last + 1] < |tt|
      requires Slotted(heap[..], pos[..], last, hole, s) && Ordered(heap[..], last, hole, tt)
      requires hole <= last ==> heap[last + 1] !in s
      requires hole <= last ==> Above(heap[..], last, hole, tt, tt[heap[last + 1]]) && Below(heap[..], last, hole, tt, tt[heap[last + 1]])
      requires hole == last + 1 ==> pos[heap[hole]] == hole
      modifies heap, pos
      ensures Slotted(heap[..], pos[..], last, 0, if hole <= last then s + {old(heap[last + 1])} else s) && Ordered(heap[..], last, 0, tt)
    {
      if hole <= last {
        Fill(heap[..], pos[..], last, hole, s, tt, heap[last + 1]);
      }
      heap[hole] := heap[last + 1];
      pos[heap[hole]] := hole;
      assert hole == last + 1 ==> heap[..] == old(heap[..]) && pos[..] == old(pos[..]);
    }

    // One slot is a hole and the event z behind the last slot is about to be placed again;
    // or the hole is z's own slot, and z is the event being deleted.
    ghost predicate Opened(m: nat, hole: nat, s: set<nat>, z: nat)
      reads this`tt, this`boundary, this`edge, heap, evttim, pos
    {
      && Shape() && 1 <= hole <= m + 1 < heap.Length && z == heap[m + 1] && z < |tt| && Timed(s + {z})
      && Slotted(heap[..], pos[..], m, hole, s) && Ordered(heap[..], m, hole, tt) && Bridged(heap[..], m, hole, tt)
      && if hole <= m then z !in s && (hole > 1 && tt[z] < At(tt, heap[hole / 2]) ==> Below(heap[..], m, hole, tt, tt[z]))
         else pos[z] == hole && (hole > 1 ==> At(tt, heap[hole / 2]) <= tt[z])
    }

    lemma OpenForOther(e: nat)
      requires Valid() && e in pending && heap[last] != e
      ensures last >= 2 && pos[e] < last && var z := heap[last]; var s := pending - {e} - {z};
              Opened(last - 1, pos[e], s, z) && s + {z} == pending - {e}
    {
      hide Slotted, Ordered, Bridged, Below;
      OfEvent(heap[..], pos[..], last, pending, e);
      InSlot(heap[..], pos[..], last, 0, pending, last);
      OpenAt(heap[..], pos[..], last, pending, tt, e);
      assert pending - {e} - {heap[last]} + {heap[last]} == pending - {e};
    }

    lemma OpenForLast()
      requires Valid() && last >= 1
      ensures var z := heap[last]; var s := pending - {z};
              z in pending && pos[z] == last && Opened(last - 1, last, s, z)
    {
      hide Slotted, Ordered, Bridged, Below;
      InSlot(heap[..], pos[..], last, 0, pending, last);
      CloseLast(heap[..], pos[..], last, pending, tt);
      ClosedHole(heap[..], pos[..], last, pending, tt);
    }

    lemma OpenFor(e: nat)
      requires Valid() && e in pending
      ensures 1 <= last < heap.Length && e < pos.Length && |pending - {e}| == last - 1 && Timed(pending - {e})
      ensures var m, z := last - 1, heap[last]; var s := pending - {e} - {z};
              Opened(m, pos[e], s, z) && (if pos[e] <= m then s + {z} else s) == pending - {e}
    {
      hide Slotted, Ordered, Opened;
      OfEvent(heap[..], pos[..], last, pending, e);
      if heap[last] == e {
        OpenForLast();
        assert pending - {e} - {e} == pending - {e};
      } else {
        OpenForOther(e);
      }
    }

    lemma NoSlots(m: nat, hole: nat, s: set<nat>, z: nat)
      requires m == 0 && Opened(m, hole, s, z)
      ensures Slotted(heap[..], pos[..], 0, 0, s) && Ordered(heap[..], 0, 0, tt)
    {
    }

    // tmevtb_delete from the point where the last event has to be placed again
    method Replace(from: nat, ghost s: set<nat>)
      requires Shape() && last + 1 < heap.Length && Opened(last, from, s, heap[last + 1])
      modifies heap, pos
      ensures Slotted(heap[..], pos[..], last, 0, if from <= last then s + {old(heap[last + 1])} else s) && Ordered(heap[..], last, 0, tt)
    {
      hide Slotted, Ordered, Bridged, Below, Timed;
      var hole := from;
      ghost var z := heap[last + 1];
      var t := evttim[heap[last + 1]];
      if hole > 1 {
        InSlot(heap[..], pos[..], last, hole, s, hole / 2);
        Compare(z, heap[hole / 2], s + {z});
      }
      if hole > 1 && Advance(t) < Advance(evttim[heap[hole / 2]]) {
        var parent := hole / 2;
        MoveSlots(heap[..], pos[..], last, hole, s, parent);
        UpStep(heap[..], last, hole, tt, tt[z]);
        MoveNode(hole, parent);
        hole := Up(parent, t, z, s);
      } else {
        hole := Down(hole, t, z, s);
      }
      Refill(hole, s);
    }

    // tmevtb_delete
    method Delete(e: nat)
      requires Valid() && e in pending
      modifies this`last, this`pending, heap, pos
      ensures Valid() && pending == old(pending) - {e}
    {
      hide Valid, Slotted, Ordered, Timed, Opened;
      Parts();
      OpenFor(e);
      ghost var s := pending - {e} - {heap[last]};
      last := last - 1;
      pending := pending - {e};
      if last >= 1 {
        Replace(pos[e], s);
      } else {
        NoSlots(last, pos[e], s, heap[1]);
      }
      Whole();
    }

    // tmevtb_delete_top
    method DeleteTop() returns (e: nat)
      requires Valid() && pending != {}
      modifies this`last, this`pending, heap, pos
      ensures Valid() && e == old(heap[1]) && e in old(pending) && pending == old(pending) - {e}
      ensures e < |tt| && forall x :: x in old(pending) ==> tt[e] <= tt[x]
    {
      hide Valid, Slotted, Ordered, Bridged, Below, Above, Timed;
      Parts();
      Earliest();
      InSlot(heap[..], pos[..], last, 0, pending, 1);
      e := heap[1];
      OpenFor(e);
      ghost var z := heap[last];
      ghost var s := pending - {e} - {z};
      last := last - 1;
      pending := pending - {e};
      if last >= 1 {
        RootAbove(heap[..], last, tt, tt[z]);
        var hole := Down(1, evttim[heap[last + 1]], z, s);
        Refill(hole, s);
      } else {
        NoSlots(last, 1, s, z);
      }
      Whole();
    }

    // top_evttim
    lemma Earliest()
      requires Valid() && pending != {}
      ensures 1 <= last < heap.Length && heap[1] in pending && forall x :: x in pending ==> x < |tt| && tt[heap[1]] <= tt[x]
    {
      forall x | x in pending ensures tt[heap[1]] <= tt[x] {
        TopIsFirst(heap[..], last, tt, pos[x]);
      }
    }

    // A new boundary keeps the heap in order if every event stays within its reach.
    method MoveBoundary(b: nat, ghost newedge: int)
      requires Valid() && b == Mod32(newedge)
      requires forall e :: e in pending ==> newedge <= tt[e] < newedge + WRAP
      modifies this`boundary, this`edge
      ensures Valid() && edge == newedge
    {
      boundary := b;
      edge := newedge;
    }

    // The time of an event that is not pending is set.
    method SetTime(e: nat, t: nat, ghost truth: int)
      requires Valid() && e !in pending && e < evttim.Length && t == Mod32(truth) && edge <= truth < edge + WRAP
      modifies this`tt, evttim
      ensures Valid() && tt == old(tt)[e := truth] && Timed({e})
    {
      OrderedOther(heap[..], pos[..], last, pending, tt, e, truth);
      evttim[e] := t;
      tt := tt[e := truth];
    }
  }
}
