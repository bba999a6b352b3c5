/** Fixed-size memory pools: blocks from a free list or above the watermark, and a management table
    whose next field doubles as the mark of an allocated block. */
module MemPools {
  import opened Options
  import opened PriorityLists
  import opened LinkedChains

  const INDEX_NULL: nat := 0xFFFF_FFFF
  const INDEX_ALLOC: nat := 0xFFFF_FFFE

  datatype Er = E_OK | E_PAR | E_NOEXS | E_TMOUT
  datatype Outcome = Returns(er: Er) | Blocks

  // A task released with a block.
  datatype Handed = Handed(task: nat, blk: nat)

  function Address(mpf: nat, blksz: nat, i: nat): nat {
    mpf + blksz * i
  }

  // The offset tests accept exactly the addresses of blocks.
  lemma OffsetTest(mpf: nat, blksz: nat, blk: nat, i: nat)
    requires 0 < blksz && mpf <= blk
    ensures (blk - mpf) % blksz == 0 && (blk - mpf) / blksz == i <==> blk == Address(mpf, blksz, i)
  {
    var d := blk - mpf;
    DivMod(d, blksz);
    if d == blksz * i { Quotient(blksz, i, d); }
  }

  lemma DivMod(d: nat, b: nat)
    requires 0 < b
    ensures d == b * (d / b) + d % b
  {
  }

  lemma Quotient(b: nat, i: nat, d: nat)
    requires 0 < b && d == b * i
    ensures d / b == i && d % b == 0
  {
    DivMod(d, b);
    var q := d / b;
    if q < i { Grow(b, q + 1, i); }
    if i < q { Grow(b, i + 1, q); }
  }

  lemma Grow(b: nat, x: nat, y: nat)
    requires x <= y
    ensures b * x <= b * y
  {
  }

  // Different blocks do not share an address.
  lemma AddressDistinct(mpf: nat, blksz: nat, i: nat, j: nat)
    requires 0 < blksz && i != j
    ensures Address(mpf, blksz, i) != Address(mpf, blksz, j)
  {
    if i < j { Grow(blksz, i + 1, j); } else { Grow(blksz, j + 1, i); }
  }

  lemma HeadOff(ns: seq<nat>)
    requires Distinct(ns) && ns != []
    ensures Distinct(ns[1..]) && ns[0] !in ns[1..] && forall y :: y in ns <==> y == ns[0] || y in ns[1..]
  {
    assert ns == [ns[0]] + ns[1..];
  }

  lemma ChainHead(next: seq<nat>, head: nat, ns: seq<nat>, nil: nat)
    requires Chain(next, head, ns, nil)
    ensures ns == [] ==> head == nil
    ensures ns != [] ==> head == ns[0]
  {
  }

  class MemPool {
    const mpf: nat                  // address of the pool
    const blksz: nat
    const next: array<nat>          // the next field of p_mpfmb
    const tpri: bool
    var noexs: bool
    var fblkcnt: nat
    var unused: nat
    var freelist: nat
    var wait: seq<nat>              // wait_queue
    ghost var free: seq<nat>        // the blocks on the free list

    // Free and allocated blocks divide what lies below the watermark.
    ghost predicate PoolOk()
      reads this`fblkcnt, this`unused, this`freelist, this`free, next
    {
      && 0 < blksz && next.Length <= INDEX_ALLOC && unused <= next.Length
      && Distinct(free) && Chain(next[..], freelist, free, INDEX_NULL)
      && (forall x :: x in free ==> x < unused)
      && (forall x: nat :: x < unused ==> (x in free <==> next[x] != INDEX_ALLOC))
      && fblkcnt == |free| + (next.Length - unused)
    }

    ghost predicate Valid()
      reads this, next
    {
      PoolOk() && (wait != [] ==> fblkcnt == 0)
    }

    ghost predicate Allocated(x: nat)
      reads this`unused, this`free
    {
      x < unused && x !in free
    }

    constructor (mpf: nat, blksz: nat, blkcnt: nat, tpri: bool)
      requires 0 < blksz && blkcnt <= INDEX_ALLOC
      ensures Valid() && wait == [] && !noexs && fblkcnt == blkcnt == next.Length && (forall x :: !Allocated(x)) && fresh(next)
      ensures this.mpf == mpf && this.blksz == blksz && this.tpri == tpri
    {
      this.mpf, this.blksz, this.tpri := mpf, blksz, tpri;
      next := new nat[blkcnt];
      noexs, fblkcnt, unused, freelist, wait, free := false, blkcnt, 0, INDEX_NULL, [], [];
    }

    // the choice of a block: the first free one, or the one at the watermark
    method TakeIndex() returns (x: nat)
      requires PoolOk() && fblkcnt > 0
      modifies this`unused, this`freelist, this`free
      ensures x < unused <= next.Length && x !in free && fblkcnt == |free| + (next.Length - unused) + 1
      ensures Distinct(free) && Chain(next[..], freelist, free, INDEX_NULL) && (forall y :: y in free ==> y < unused)
      ensures forall y: nat :: y < unused && y != x ==> (y in free <==> next[y] != INDEX_ALLOC)
      ensures !old(Allocated(x)) && forall y :: Allocated(y) <==> y == x || old(Allocated(y))
    {
      hide Chain, Distinct;
      ChainHead(next[..], freelist, free, INDEX_NULL);
      if free != [] { assert free[0] in free; }
      if freelist != INDEX_NULL {
        ChainTail(next[..], freelist, free, INDEX_NULL);
        HeadOff(free);
        x := freelist;
        freelist := next[x];
        free := free[1..];
      } else {
        x := unused;
        unused := unused + 1;
      }
    }

    // get_mpf_block
    method GetMpfBlock() returns (blk: nat, ghost x: nat)
      requires PoolOk() && fblkcnt > 0
      modifies next, this`fblkcnt, this`unused, this`freelist, this`free
      ensures PoolOk() && fblkcnt == old(fblkcnt) - 1 && blk == Address(mpf, blksz, x)
      ensures !old(Allocated(x)) && forall y :: Allocated(y) <==> y == x || old(Allocated(y))
    {
      hide Chain, Distinct;
      var blkidx := TakeIndex();
      x := blkidx;
      blk := mpf + blksz * blkidx;
      fblkcnt := fblkcnt - 1;
      ChainOther(next[..], freelist, free, INDEX_NULL, blkidx, INDEX_ALLOC);
      next[blkidx] := INDEX_ALLOC;
    }

    // get_mpf, pget_mpf (poll), tget_mpf.  place: where the wait queue takes the caller in.
    method GetMpf(self: nat, place: nat, poll: bool) returns (out: Outcome, blk: nat, ghost x: nat)
      requires Valid() && place <= |wait|
      modifies this, next
      ensures Valid() && noexs == old(noexs)
      ensures out == Returns(E_NOEXS) <==> noexs
      ensures out == Returns(E_OK) <==> !noexs && old(fblkcnt) > 0
      ensures out == Returns(E_TMOUT) <==> !noexs && old(fblkcnt) == 0 && poll
      ensures out == Blocks <==> !noexs && old(fblkcnt) == 0 && !poll
      ensures out == Returns(E_OK) ==> blk == Address(mpf, blksz, x) && !old(Allocated(x))
      ensures out == Returns(E_OK) ==> forall y :: Allocated(y) <==> y == x || old(Allocated(y))
      ensures out != Returns(E_OK) ==> forall y :: Allocated(y) <==> old(Allocated(y))
      ensures fblkcnt == if out == Returns(E_OK) then old(fblkcnt) - 1 else old(fblkcnt)
      ensures wait == if out == Blocks then old(wait)[..place] + [self] + old(wait)[place..] else old(wait)
    {
      hide Chain;
      blk, x := 0, 0;
      if noexs {
        return Returns(E_NOEXS), 0, 0;
      }
      if fblkcnt > 0 {
        blk, x := GetMpfBlock();
        return Returns(E_OK), blk, x;
      }
      if poll {
        return Returns(E_TMOUT), 0, 0;
      }
      wait := wait[..place] + [self] + wait[place..];
      return Blocks, 0, 0;
    }

    // The block at index x goes back to the free list.
    method Free(x: nat)
      requires PoolOk() && Allocated(x)
      modifies next, this`fblkcnt, this`freelist, this`free
      ensures PoolOk() && fblkcnt == old(fblkcnt) + 1 && forall y :: Allocated(y) <==> y != x && old(Allocated(y))
    {
      ChainPush(next[..], freelist, free, INDEX_NULL, x);
      ghost var before := free;
      free := [x] + free;
      assert forall y :: y in free <==> y == x || y in before;
      fblkcnt := fblkcnt + 1;
      next[x] := freelist;
      freelist := x;
      FreeLink(before);
    }

    // A link of the free list is never mistaken for the mark of an allocated block.
    lemma FreeLink(rest: seq<nat>)
      requires next.Length <= INDEX_ALLOC && unused <= next.Length && Chain(next[..], freelist, free, INDEX_NULL)
      requires forall x :: x in free ==> x < unused
      ensures forall x :: x in free ==> next[x] != INDEX_ALLOC
    {
      forall x | x in free ensures next[x] != INDEX_ALLOC {
        var i :| 0 <= i < |free| && free[i] == x;
        assert next[..][free[i]] == Succ(free, i, INDEX_NULL);
        if i + 1 < |free| { assert free[i + 1] in free; }
      }
    }

    // rel_mpf accepts exactly the addresses of allocated blocks
    method RelMpf(blk: nat) returns (er: Er, woken: Option<Handed>)
      requires Valid()
      modifies this, next
      ensures Valid() && noexs == old(noexs)
      ensures er == E_NOEXS <==> noexs
      ensures er == E_OK <==> !noexs && exists x :: old(Allocated(x)) && blk == Address(mpf, blksz, x)
      ensures er == E_PAR <==> !noexs && er != E_OK
      ensures er != E_OK ==> woken == None && wait == old(wait) && forall y :: Allocated(y) <==> old(Allocated(y))
      ensures er == E_OK && old(wait) != [] ==> woken == Some(Handed(old(wait)[0], blk)) && wait == old(wait)[1..]
      ensures er == E_OK && old(wait) != [] ==> forall y :: Allocated(y) <==> old(Allocated(y))
      ensures er == E_OK && old(wait) == [] ==> woken == None && wait == []
      ensures er == E_OK && old(wait) == [] ==> forall y :: Allocated(y) <==> old(Allocated(y)) && blk != Address(mpf, blksz, y)
    {
      hide Chain, Address;
      woken := None;
      if noexs {
        return E_NOEXS, None;
      }
      if mpf <= blk {
        forall i: nat ensures (blk - mpf) % blksz == 0 && (blk - mpf) / blksz == i <==> blk == Address(mpf, blksz, i) {
          OffsetTest(mpf, blksz, blk, i);
        }
      } else {
        forall i: nat ensures blk != Address(mpf, blksz, i) { NotBefore(mpf, blksz, i); }
      }
      if !(mpf <= blk) || !((blk - mpf) % blksz == 0) || !((blk - mpf) / blksz < unused) || !(next[(blk - mpf) / blksz] == INDEX_ALLOC) {
        return E_PAR, None;
      }
      var blkidx := (blk - mpf) / blksz;
      assert Allocated(blkidx) && blk == Address(mpf, blksz, blkidx);
      if wait != [] {
        woken := Some(Handed(wait[0], blk));
        wait := wait[1..];
        return E_OK, woken;
      }
      forall y: nat | y != blkidx ensures blk != Address(mpf, blksz, y) { AddressDistinct(mpf, blksz, y, blkidx); }
      Free(blkidx);
      return E_OK, None;
    }

    lemma NotBefore(mpf: nat, blksz: nat, i: nat)
      ensures mpf <= Address(mpf, blksz, i)
    {
    }

    // ini_mpf
    method IniMpf() returns (er: Er, released: seq<nat>)
      requires Valid()
      modifies this
      ensures Valid() && noexs == old(noexs) && er == if noexs then E_NOEXS else E_OK
      ensures er == E_OK ==> wait == [] && fblkcnt == next.Length && (forall x :: !Allocated(x)) && released == old(wait)
      ensures er != E_OK ==> released == [] && unchanged(this)
    {
      if noexs {
        return E_NOEXS, [];
      }
      released := wait;
      wait, fblkcnt, unused, freelist, free := [], next.Length, 0, INDEX_NULL, [];
      er := E_OK;
    }
  }
}
