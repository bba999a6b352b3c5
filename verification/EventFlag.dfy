/** Event flags: set_flg walks the wait queue, a ring of nodes, and unlinks entries as it goes. */
module EventFlags {
  import opened Queues

  datatype Er = E_OK | E_PAR | E_NOEXS | E_ILUSE | E_TMOUT
  datatype Outcome = Returns(er: Er) | Blocks

  // What a waiting task's p_winfo holds: the bits waited for, and TWF_ORW or TWF_ANDW.
  datatype Wish = Wish(waiptn: bv32, orw: bool)

  // A task released from waiting, with the pattern it gets.
  datatype Released = Released(node: Node, flgptn: bv32)

  predicate Any(ptn: bv32, w: bv32) { ptn & w != 0 }

  predicate All(ptn: bv32, w: bv32) { ptn & w == w }

  predicate Holds(ptn: bv32, w: Wish) {
    if w.orw then Any(ptn, w.waiptn) else All(ptn, w.waiptn)
  }

  // Clearing bits makes no condition true.
  lemma FewerBits(ptn: bv32, mask: bv32, w: Wish)
    requires !Holds(ptn, w)
    ensures !Holds(ptn & mask, w)
  {
    hide Any, All;
    if w.orw { AnyFewer(ptn, mask, w.waiptn); } else { AllFewer(ptn, mask, w.waiptn); }
  }

  lemma AnyFewer(p: bv32, c: bv32, w: bv32)
    requires !Any(p, w)
    ensures !Any(p & c, w)
  {
  }

  lemma AllFewer(p: bv32, c: bv32, w: bv32)
    requires !All(p, w)
    ensures !All(p & c, w)
  {
  }

  // Nobody can be waiting for nothing, so the empty pattern satisfies nobody.
  lemma EmptyPattern(w: Wish)
    requires w.waiptn != 0
    ensures !Holds(0, w)
  {
  }

  ghost predicate Met(ptn: bv32, wish: map<Node, Wish>, x: Node) {
    x in wish && Holds(ptn, wish[x])
  }

  // The waiters whose condition holds, in queue order, and the others.
  ghost function Hits(ptn: bv32, wish: map<Node, Wish>, ws: seq<Node>): (r: seq<Node>)
    ensures forall x :: x in r ==> x in ws
  {
    if ws == [] then []
    else Hits(ptn, wish, ws[..|ws| - 1]) + if Met(ptn, wish, ws[|ws| - 1]) then [ws[|ws| - 1]] else []
  }

  ghost function Misses(ptn: bv32, wish: map<Node, Wish>, ws: seq<Node>): (r: seq<Node>)
    ensures forall x :: x in r ==> x in ws && !Met(ptn, wish, x)
  {
    if ws == [] then []
    else Misses(ptn, wish, ws[..|ws| - 1]) + if Met(ptn, wish, ws[|ws| - 1]) then [] else [ws[|ws| - 1]]
  }

  lemma {:induction false} AllMiss(ptn: bv32, wish: map<Node, Wish>, ws: seq<Node>)
    ensures Hits(ptn, wish, ws) == [] <==> forall x :: x in ws ==> !Met(ptn, wish, x)
    ensures Hits(ptn, wish, ws) == [] ==> Misses(ptn, wish, ws) == ws
  {
    hide Met;
    if ws != [] {
      AllMiss(ptn, wish, ws[..|ws| - 1]);
      assert ws == ws[..|ws| - 1] + [ws[|ws| - 1]];
    }
  }

  lemma Grow(ptn: bv32, wish: map<Node, Wish>, ws: seq<Node>, j: nat)
    requires j < |ws|
    ensures Hits(ptn, wish, ws[..j + 1]) == Hits(ptn, wish, ws[..j]) + if Met(ptn, wish, ws[j]) then [ws[j]] else []
    ensures Misses(ptn, wish, ws[..j + 1]) == Misses(ptn, wish, ws[..j]) + if Met(ptn, wish, ws[j]) then [] else [ws[j]]
  {
    hide Met;
    assert ws[..j + 1][..j] == ws[..j];
  }

  // The first satisfied waiter of a part is the first of all.
  lemma {:induction false} FirstHit(ptn: bv32, wish: map<Node, Wish>, ws: seq<Node>, j: nat)
    requires j <= |ws| && Hits(ptn, wish, ws[..j]) != []
    ensures Hits(ptn, wish, ws) != [] && Hits(ptn, wish, ws)[0] == Hits(ptn, wish, ws[..j])[0]
    decreases |ws| - j
  {
    hide Met;
    if j < |ws| {
      Grow(ptn, wish, ws, j);
      FirstHit(ptn, wish, ws, j + 1);
    } else {
      assert ws[..j] == ws;
    }
  }

  function Report(xs: seq<Node>, ptn: bv32): seq<Released> {
    seq(|xs|, i requires 0 <= i < |xs| => Released(xs[i], ptn))
  }

  lemma ReportMore(xs: seq<Node>, x: Node, ptn: bv32)
    ensures Report(xs + [x], ptn) == Report(xs, ptn) + [Released(x, ptn)] && Report([], ptn) == []
  {
  }

  // The entry after the kept ones leaves, or is kept.
  lemma Advance(kept: seq<Node>, ws: seq<Node>, j: nat)
    requires j < |ws|
    ensures (kept + ws[j..])[|kept|] == ws[j]
    ensures var q, i := kept + ws[j..], |kept|; q[..i] + q[i + 1..] == kept + ws[j + 1..]
    ensures kept + ws[j..] == kept + [ws[j]] + ws[j + 1..]
  {
  }

  // After j entries of ws have been looked at, i of them kept and the others released.
  ghost predicate Halfway(ptn: bv32, wish: map<Node, Wish>, ws: seq<Node>, q: seq<Node>, i: nat, j: nat, out: seq<Released>) {
    && j <= |ws| && q == Misses(ptn, wish, ws[..j]) + ws[j..] && i == |Misses(ptn, wish, ws[..j])|
    && out == Report(Hits(ptn, wish, ws[..j]), ptn)
  }

  lemma AtStart(p: bv32, wish: map<Node, Wish>, ws: seq<Node>)
    ensures forall clr :: Progress(clr, p, wish, ws, ws, 0, 0, [])
  {
    assert [] + ws[0..] == ws && Report([], p) == [];
  }

  lemma HalfwayStep(ptn: bv32, wish: map<Node, Wish>, ws: seq<Node>, q: seq<Node>, i: nat, j: nat, out: seq<Released>)
    requires Halfway(ptn, wish, ws, q, i, j, out) && i < |q|
    ensures j < |ws| && q[i] == ws[j]
    ensures if Met(ptn, wish, ws[j]) then Halfway(ptn, wish, ws, q[..i] + q[i + 1..], i, j + 1, out + [Released(ws[j], ptn)])
            else Halfway(ptn, wish, ws, q, i + 1, j + 1, out)
  {
    hide Met, Hits, Misses, Report;
    assert |q| == i + (|ws| - j);
    var kept, hits := Misses(ptn, wish, ws[..j]), Hits(ptn, wish, ws[..j]);
    Grow(ptn, wish, ws, j);
    Advance(kept, ws, j);
    ReportMore(hits, ws[j], ptn);
    if !Met(ptn, wish, ws[j]) { assert Misses(ptn, wish, ws[..j + 1]) == kept + [ws[j]]; } else { assert kept + [] == kept; }
    assert hits + [] == hits;
  }

  // Only the first satisfied waiter has been released.
  ghost predicate FirstOnly(ptn: bv32, wish: map<Node, Wish>, ws: seq<Node>, q: seq<Node>, out: seq<Released>) {
    exists i :: 0 <= i < |ws| && Met(ptn, wish, ws[i]) && (forall k :: 0 <= k < i ==> !Met(ptn, wish, ws[k]))
      && q == ws[..i] + ws[i + 1..] && out == [Released(ws[i], ptn)]
  }

  // What set_flg does with the pattern p, the waiters ws: q go on waiting, out are released, and
  // the pattern is then f.
  ghost predicate SetResult(clr: bool, p: bv32, wish: map<Node, Wish>, ws: seq<Node>, q: seq<Node>, out: seq<Released>, f: bv32) {
    if clr && Hits(p, wish, ws) != [] then FirstOnly(p, wish, ws, q, out) && f == 0
    else q == Misses(p, wish, ws) && out == Report(Hits(p, wish, ws), p) && f == p
  }

  lemma StopAtFirst(p: bv32, wish: map<Node, Wish>, ws: seq<Node>, j: nat, q: seq<Node>, out: seq<Released>)
    requires j < |ws| && Hits(p, wish, ws[..j]) == [] && Met(p, wish, ws[j])
    requires q == ws[..j] + ws[j + 1..] && out == [] + [Released(ws[j], p)]
    ensures SetResult(true, p, wish, ws, q, out, 0)
  {
    hide Met, Hits, Misses, Report;
    AllMiss(p, wish, ws[..j]);
    forall k | 0 <= k < j ensures !Met(p, wish, ws[k]) { assert ws[k] == ws[..j][k]; }
    Grow(p, wish, ws, j);
    FirstHit(p, wish, ws, j + 1);
  }

  // Halfway through the loop; with TA_CLR nobody has been released so far.
  ghost predicate Progress(clr: bool, p: bv32, wish: map<Node, Wish>, ws: seq<Node>, q: seq<Node>, i: nat, j: nat, out: seq<Released>) {
    && Halfway(p, wish, ws, q, i, j, out)
    && (clr ==> q == ws && i == j && Hits(p, wish, ws[..j]) == [] && out == [])
  }

  lemma ProgressStep(clr: bool, p: bv32, wish: map<Node, Wish>, ws: seq<Node>, q: seq<Node>, i: nat, j: nat, out: seq<Released>)
    requires Progress(clr, p, wish, ws, q, i, j, out) && i < |q|
    ensures j < |ws|
    ensures var q', out' := q[..i] + q[i + 1..], out + [Released(q[i], p)];
            if !Met(p, wish, q[i]) then Progress(clr, p, wish, ws, q, i + 1, j + 1, out)
            else if clr then SetResult(true, p, wish, ws, q', out', 0)
            else Progress(false, p, wish, ws, q', i, j + 1, out')
  {
    hide Met, Hits, Misses, Report, SetResult;
    HalfwayStep(p, wish, ws, q, i, j, out);
    Grow(p, wish, ws, j);
    if clr && Met(p, wish, q[i]) { StopAtFirst(p, wish, ws, j, q[..i] + q[i + 1..], out + [Released(q[i], p)]); }
  }

  lemma AtEnd(clr: bool, p: bv32, wish: map<Node, Wish>, ws: seq<Node>, q: seq<Node>, i: nat, j: nat, out: seq<Released>)
    requires Progress(clr, p, wish, ws, q, i, j, out) && i >= |q|
    ensures SetResult(clr, p, wish, ws, q, out, p)
  {
    hide Met, Hits, Misses, Report, FirstOnly;
    assert |q| == |Misses(p, wish, ws[..j])| + (|ws| - j);
    assert ws[..j] == ws;
    assert Misses(p, wish, ws) + [] == Misses(p, wish, ws);
  }

  // Afterwards nobody's condition holds.
  lemma Quiet(clr: bool, p: bv32, wish: map<Node, Wish>, ws: seq<Node>, q: seq<Node>, out: seq<Released>, ptn: bv32)
    requires forall x :: x in ws ==> x in wish && wish[x].waiptn != 0
    requires SetResult(clr, p, wish, ws, q, out, ptn)
    ensures forall x :: x in q ==> x in wish && wish[x].waiptn != 0 && !Holds(ptn, wish[x])
  {
    hide Holds, Hits, Report;
    forall x | x in q ensures x in wish && wish[x].waiptn != 0 && !Holds(ptn, wish[x]) {
      assert x in ws;
      if ptn == 0 { EmptyPattern(wish[x]); }
      assert q == Misses(p, wish, ws) ==> !Met(p, wish, x);
    }
  }

  class EventFlag {
    const wq: Node                  // the header of wait_queue
    const iflgptn: bv32
    const clr: bool                 // TA_CLR
    const wmul: bool                // TA_WMUL
    const tpri: bool                // TA_TPRI
    var noexs: bool
    var flgptn: bv32
    var wish: map<Node, Wish>       // the WINFO_FLG of each waiting task
    ghost var waiters: seq<Node>    // the ring without its header

    ghost predicate Linked()
      reads this`waiters, wq, waiters
    {
      Ring([wq] + waiters)
    }

    // No waiter's condition holds.
    ghost predicate Valid()
      reads this, wq, waiters
    {
      && Linked()
      && forall x :: x in waiters ==> x in wish && wish[x].waiptn != 0 && !Holds(flgptn, wish[x])
    }

    constructor (iflgptn: bv32, clr: bool, wmul: bool, tpri: bool)
      ensures Valid() && waiters == [] && flgptn == iflgptn && !noexs && fresh(wq)
      ensures this.iflgptn == iflgptn && this.clr == clr && this.wmul == wmul && this.tpri == tpri
    {
      wq := new Node();
      this.iflgptn, this.clr, this.wmul, this.tpri := iflgptn, clr, wmul, tpri;
      noexs, flgptn, wish, waiters := false, iflgptn, map[], [];
      new;
      assert [wq] + waiters == [wq];
    }

    // check_flg_cond
    method CheckFlgCond(w: Wish) returns (ok: bool, ptn: bv32)
      modifies this`flgptn
      ensures ok <==> Holds(old(flgptn), w)
      ensures ok ==> ptn == old(flgptn)
      ensures flgptn == if ok && clr then 0 else old(flgptn)
    {
      hide Any, All;
      ptn := 0;
      if if w.orw then Any(flgptn, w.waiptn) else All(flgptn, w.waiptn) {
        ptn := flgptn;
        if clr {
          flgptn := 0;
        }
        return true, ptn;
      }
      return false, ptn;
    }

    // clr_flg
    method ClrFlg(clrptn: bv32) returns (er: Er)
      requires Valid()
      modifies this`flgptn
      ensures Valid() && er == (if noexs then E_NOEXS else E_OK) && flgptn == if noexs then old(flgptn) else old(flgptn) & clrptn
    {
      if noexs {
        return E_NOEXS;
      }
      hide Any, All;
      forall x | x in waiters ensures !Holds(flgptn & clrptn, wish[x]) { FewerBits(flgptn, clrptn, wish[x]); }
      flgptn := flgptn & clrptn;
      return E_OK;
    }

    // queue_delete of the waiter at place i
    method Unlink(x: Node, ghost i: nat, ghost all: set<Node>)
      requires Linked() && (forall y :: y in waiters ==> y in all) && i < |waiters| && waiters[i] == x
      modifies this`waiters, wq, all
      ensures Linked() && waiters == old(waiters)[..i] + old(waiters)[i + 1..] && x.next == old(x.next)
    {
      ghost var ring := [wq] + waiters;
      Delete(x, ring, i + 1);
      waiters := waiters[..i] + waiters[i + 1..];
      assert [wq] + waiters == ring[..i + 1] + ring[i + 2..];
    }

    // p_next of the node before place i: the waiter there, or the header behind the last one
    lemma NextAt(i: nat)
      requires Linked() && i <= |waiters|
      ensures var p := if i == 0 then wq else waiters[i - 1]; p.next == if i < |waiters| then waiters[i] else wq
    {
      hide Ring;
      var ring := [wq] + waiters;
      Predecessor(ring, i);
      assert ring[i] == if i == 0 then wq else waiters[i - 1];
      if i < |waiters| { assert ring[i + 1] == waiters[i]; }
    }

    lemma HeaderApart()
      requires Linked()
      ensures wq !in waiters
    {
      var ring := [wq] + waiters;
      forall k | 0 <= k < |waiters| ensures waiters[k] != wq { assert ring[k + 1] == waiters[k] && ring[0] == wq; }
    }

    // one turn of set_flg's loop, at the waiter in place i
    method Visit(x: Node, ghost i: nat, ghost all: set<Node>) returns (ok: bool, ptn: bv32)
      requires Linked() && (forall y :: y in waiters ==> y in all) && i < |waiters| && waiters[i] == x && x in wish
      modifies this`flgptn, this`waiters, wq, all
      ensures Linked() && (ok <==> Met(old(flgptn), wish, x)) && (ok ==> ptn == old(flgptn))
      ensures flgptn == if ok && clr then 0 else old(flgptn)
      ensures waiters == if ok then old(waiters)[..i] + old(waiters)[i + 1..] else old(waiters)
      ensures forall y :: y in waiters ==> y in old(waiters)
    {
      hide Holds, Ring;
      ok, ptn := CheckFlgCond(wish[x]);
      if ok {
        Unlink(x, i, all);
      }
    }

    // the loop of set_flg, which saves p_next before an entry may be unlinked and ends at the
    // first release if TA_CLR is set
    method ReleaseSatisfied(ghost all: set<Node>) returns (out: seq<Released>)
      requires Linked() && (forall y :: y in waiters ==> y in all && y in wish)
      modifies this`flgptn, this`waiters, wq, all
      ensures Linked() && SetResult(clr, old(flgptn), wish, old(waiters), waiters, out, flgptn)
    {
      hide Met, Linked, Hits, SetResult, Progress;
      out := [];
      NextAt(0);
      HeaderApart();
      var entry := wq.next;
      ghost var p, ws, i, j := flgptn, waiters, 0, 0;
      AtStart(p, wish, ws);
      while entry != wq
        invariant Linked() && flgptn == p && wq !in waiters && Progress(clr, p, wish, ws, waiters, i, j, out)
        invariant entry == if i < |waiters| then waiters[i] else wq
        invariant forall x :: x in waiters ==> x in all && x in wish
        decreases |ws| - j
      {
        ProgressStep(clr, p, wish, ws, waiters, i, j, out);
        var x := entry;
        NextAt(i + 1);
        entry := entry.next;
        var ok, ptn := Visit(x, i, all);
        if ok {
          out := out + [Released(x, ptn)];
          if clr {
            return;
          }
        } else {
          i := i + 1;
        }
        j := j + 1;
        HeaderApart();
      }
      AtEnd(clr, p, wish, ws, waiters, i, j, out);
    }

    // set_flg releases exactly the waiters whose condition the new pattern satisfies, each with
    // that pattern; with TA_CLR only the first of them, and the pattern becomes 0.
    method SetFlg(setptn: bv32) returns (er: Er, out: seq<Released>)
      requires Valid()
      modifies this`flgptn, this`waiters, wq, waiters
      ensures Valid() && er == if noexs then E_NOEXS else E_OK
      ensures noexs ==> out == [] && flgptn == old(flgptn) && waiters == old(waiters)
      ensures !noexs ==> SetResult(clr, old(flgptn) | setptn, wish, old(waiters), waiters, out, flgptn)
    {
      hide Ring, Any, All, SetResult;
      if noexs {
        return E_NOEXS, [];
      }
      flgptn := flgptn | setptn;
      ghost var p, ws := flgptn, waiters;
      out := ReleaseSatisfied(set x | x in waiters);
      Quiet(clr, p, wish, ws, waiters, out, flgptn);
      return E_OK, out;
    }

    // wobj_make_wait's insertion: behind all of the same or higher priority with TA_TPRI, else at the end
    method QueueInsert(self: Node, pri: map<Node, nat>) returns (ghost n: nat)
      requires Linked() && self != wq && self !in waiters && (tpri ==> self in pri && forall x :: x in waiters ==> x in pri)
      modifies this`waiters, self, wq, waiters
      ensures Linked() && n <= |old(waiters)| && waiters == old(waiters)[..n] + [self] + old(waiters)[n..]
      ensures !tpri ==> n == |old(waiters)|
      ensures tpri ==> (forall k :: 0 <= k < n ==> pri[old(waiters)[k]] <= pri[self]) && (n < |old(waiters)| ==> pri[self] < pri[old(waiters)[n]])
    {
      hide Ring;
      ghost var ring := [wq] + waiters;
      assert forall k :: 1 <= k < |ring| ==> ring[k] == waiters[k - 1];
      if tpri {
        ghost var m := InsertTpri(wq, self, pri, ring);
        n := m - 1;
        assert ring[..m] + [self] + ring[m..] == [wq] + (waiters[..n] + [self] + waiters[n..]);
        assert forall k :: 0 <= k < n ==> waiters[k] == ring[k + 1];
        waiters := waiters[..n] + [self] + waiters[n..];
      } else {
        InsertPrev(wq, self, ring, 0);
        n := |waiters|;
        assert ring + [self] == [wq] + (waiters[..n] + [self] + waiters[n..]);
        waiters := waiters[..n] + [self] + waiters[n..];
      }
    }

    // wai_flg, pol_flg (poll), twai_flg
    method WaiFlg(self: Node, w: Wish, pri: map<Node, nat>, poll: bool) returns (out: Outcome, ptn: bv32, ghost n: nat)
      requires Valid() && self != wq && self !in waiters && (tpri ==> self in pri && forall x :: x in waiters ==> x in pri)
      modifies this`flgptn, this`wish, this`waiters, self, wq, waiters
      ensures Valid()
      ensures out == Returns(E_PAR) <==> w.waiptn == 0
      ensures out == Returns(E_NOEXS) <==> w.waiptn != 0 && noexs
      ensures out == Returns(E_ILUSE) <==> w.waiptn != 0 && !noexs && !wmul && old(waiters) != []
      ensures out == Returns(E_OK) <==> w.waiptn != 0 && !noexs && (wmul || old(waiters) == []) && Holds(old(flgptn), w)
      ensures out == Returns(E_TMOUT) <==> w.waiptn != 0 && !noexs && (wmul || old(waiters) == []) && !Holds(old(flgptn), w) && poll
      ensures out == Blocks <==> w.waiptn != 0 && !noexs && (wmul || old(waiters) == []) && !Holds(old(flgptn), w) && !poll
      ensures out == Returns(E_OK) ==> ptn == old(flgptn) && flgptn == if clr then 0 else old(flgptn)
      ensures out != Returns(E_OK) ==> flgptn == old(flgptn)
      ensures out == Blocks ==> !poll && n <= |old(waiters)| && waiters == old(waiters)[..n] + [self] + old(waiters)[n..] && self in wish && wish[self] == w
      ensures out == Blocks && !tpri ==> n == |old(waiters)|
      ensures out != Blocks ==> waiters == old(waiters) && wish == old(wish)
    {
      hide Linked, Any, All;
      ptn, n := 0, 0;
      if w.waiptn == 0 {
        return Returns(E_PAR), 0, 0;
      }
      if noexs {
        return Returns(E_NOEXS), 0, 0;
      }
      var empty := QueueEmpty();
      if !wmul && !empty {
        return Returns(E_ILUSE), 0, 0;
      }
      var ok;
      ok, ptn := CheckFlgCond(w);
      if ok {
        forall x | x in waiters && flgptn == 0 ensures !Holds(flgptn, wish[x]) { EmptyPattern(wish[x]); }
        return Returns(E_OK), ptn, 0;
      }
      if poll {
        return Returns(E_TMOUT), 0, 0;
      }
      wish := wish[self := w];
      n := QueueInsert(self, pri);
      return Blocks, 0, n;
    }

    // A waiter leaves without having been satisfied: timeout, rel_wai, termination.
    method Abandon(x: Node, ghost i: nat)
      requires Valid() && i < |waiters| && waiters[i] == x
      modifies this`waiters, wq, waiters
      ensures Valid() && waiters == old(waiters)[..i] + old(waiters)[i + 1..] && flgptn == old(flgptn)
    {
      hide Ring, Holds;
      Unlink(x, i, set y | y in waiters);
    }

    // queue_empty(&(p_flgcb->wait_queue))
    method QueueEmpty() returns (empty: bool)
      requires Linked()
      ensures empty <==> waiters == []
    {
      hide Ring;
      ghost var ring := [wq] + waiters;
      empty := Empty(wq, ring);
      assert |ring| == 1 + |waiters|;
    }

    // ini_flg: everybody who waits is released with E_DLT
    method IniFlg() returns (er: Er, released: seq<Node>)
      requires Valid()
      modifies this`flgptn, this`waiters, wq, waiters
      ensures Valid() && er == if noexs then E_NOEXS else E_OK
      ensures er == E_OK ==> waiters == [] && flgptn == iflgptn && released == old(waiters)
      ensures er != E_OK ==> waiters == old(waiters) && flgptn == old(flgptn)
    {
      hide Linked, Holds;
      released := [];
      if noexs {
        return E_NOEXS, [];
      }
      released := InitWaitQueue(set x | x in waiters);
      flgptn := iflgptn;
      return E_OK, released;
    }

    // queue_delete_next(p_wait_queue)
    method RemoveFirst(ghost all: set<Node>) returns (x: Node)
      requires Linked() && waiters != [] && forall y :: y in waiters ==> y in all
      modifies this`waiters, wq, all
      ensures Linked() && [x] + waiters == old(waiters)
    {
      hide Ring;
      ghost var ring := [wq] + waiters;
      assert ring[1] == waiters[0] && [wq] + ring[2..] == [wq] + waiters[1..];
      x := DeleteNext(wq, ring);
      waiters := waiters[1..];
    }

    // init_wait_queue
    method InitWaitQueue(ghost all: set<Node>) returns (released: seq<Node>)
      requires Linked() && forall y :: y in waiters ==> y in all
      modifies this`waiters, wq, all
      ensures Linked() && waiters == [] && released == old(waiters)
    {
      hide Linked;
      released := [];
      var empty := QueueEmpty();
      while !empty
        invariant Linked() && released + waiters == old(waiters) && (empty <==> waiters == []) && forall y :: y in waiters ==> y in all
        decreases |waiters|
      {
        ghost var before := waiters;
        var x := RemoveFirst(all);
        assert forall y :: y in waiters ==> y in [x] + waiters;
        assert released + before == released + [x] + waiters;
        released := released + [x];
        empty := QueueEmpty();
      }
    }
  }
}
