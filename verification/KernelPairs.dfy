/** Calls that undo each other. */
module CallPairs {
  import opened Options
  import opened PriorityLists
  import opened KernelState
  import opened KernelCalls
  import opened KernelInvariant
  import opened KernelSafety

  // The head of a sorted list, taken out and put back ahead of its equals.
  lemma FrontAgain(pri: seq<nat>, q: seq<nat>)
    requires Sorted(pri, q) && q != []
    ensures Without(q, q[0]) == q[1..] && InsertFirst(pri, q[1..], q[0]) == q
  {
    hide Slot, Sorted;
    var a: seq<nat>, rest := [], q[1..];
    NoneAbove(pri, q);
    InsertBetween(pri, a, rest, At(pri, q[0]) - 1, q[0]);
    assert a + rest == rest && a + [q[0]] + rest == q;
  }

  lemma NoneAbove(pri: seq<nat>, q: seq<nat>)
    requires Sorted(pri, q) && q != []
    ensures forall x :: x in q[1..] ==> At(pri, q[0]) - 1 < At(pri, x)
  {
  }

  // The head of the ready queue gets a priority with which it stays the head.
  lemma SettleAtHead(k: K, t: nat)
    requires t < |k.task| == |k.pri| && k.task[t].stat.Runnable? && Q(k, Ready) != [] && Q(k, Ready)[0] == t
    requires Sorted(k.pri[t := FullPri(k, t)], Q(k, Ready))
    ensures Settle(k, t) == k.(pri := k.pri[t := FullPri(k, t)])
  {
    var p, q := FullPri(k, t), Q(k, Ready);
    FrontAgain(k.pri[t := p], q);
    if p == k.pri[t] {
      assert k.pri[t := p] == k.pri;
    } else {
      assert k.queue[Ready := q[1..]][Ready := q] == k.queue;
      assert Move(k, t, Runnable, p, true).task == k.task;
    }
  }

  // Nothing in the precedence order is ahead of the running task.
  lemma RunningAtHead(k: K, t: nat)
    requires Inv(k) && !k.inint && Dspflg(k) && k.run == Some(t)
    ensures t < |k.task| == |k.pri| && k.task[t].stat.Runnable? && Q(k, Ready) != [] && Q(k, Ready)[0] == t
    ensures Sorted(k.pri, Q(k, Ready)) && Distinct(Q(k, Ready)) && k.pri[t] == FullPri(k, t)
  {
    assert Linked(k, Ready);
    assert TaskOk(k, t);
  }

  lemma RaisedSorted(pri: seq<nat>, q: seq<nat>, p: nat)
    requires Sorted(pri, q) && Distinct(q) && q != [] && q[0] < |pri| && p <= pri[q[0]]
    ensures Sorted(pri[q[0] := p], q)
  {
  }

  lemma TakeAtHead(k: K, t: nat, m: nat)
    requires Inv(k) && !k.inint && Dspflg(k) && k.run == Some(t) && m < |k.owner|
    ensures t < |k.task| == |k.pri|
    ensures var k1 := Take(k, t, m); Settle(k1, t) == k1.(pri := k.pri[t := FullPri(k1, t)])
  {
    RunningAtHead(k, t);
    var k1 := Take(k, t, m);
    assert ([m] + k.task[t].held)[1..] == k.task[t].held;
    RaisedSorted(k.pri, Q(k, Ready), FullPri(k1, t));
    SettleAtHead(k1, t);
  }

  lemma LockThenRelease(k: K, t: nat, m: nat)
    requires Inv(k) && !k.inint && Dspflg(k) && k.run == Some(t) && m < |k.owner| && k.owner[m].None?
    ensures t < |k.task| == |k.pri| && Release(Settle(Take(k, t, m), t), t, m) == k
  {
    RunningAtHead(k, t);
    TakeAtHead(k, t, m);
    WaitedForIsOwned(k, m);
    var r := Settle(Take(k, t, m), t);
    var s := Untake(r, t, m);
    assert Without([m] + k.task[t].held, m) == k.task[t].held;
    assert s.task == k.task;
    assert s.pri[t := FullPri(s, t)] == k.pri;
    SettleAtHead(s, t);
    assert r.owner[m := None] == k.owner;
  }

  // Locking a mutex and unlocking it again leaves everything as it was: the owner and its chain,
  // every priority and every place in every queue.
  lemma UnlockUndoesLock(k: K, m: nat, tmo: Tmo)
    requires Inv(k) && k.run.Some? && AfterLocMtx(k, m, tmo).out == Returns(E_OK)
    ensures var r := AfterLocMtx(k, m, tmo).k;
            Shaped(r) && r.run.Some? && AfterUnlMtx(r, m) == Ret(E_OK, k)
  {
    hide Settle, Release, Inv;
    var t := k.run.value;
    RunningFacts(k, t);
    LockThenRelease(k, t, m);
    TakeAtHead(k, t, m);
  }

  lemma RunningFacts(k: K, t: nat)
    requires Inv(k) && k.run == Some(t)
    ensures Shaped(k) && t < |k.task| && (!k.inint ==> Dispatch(k) == k)
  {
  }

  // Dispatching disabled and enabled again: no termination was pending and nobody has to be dispatched.
  lemma EnableUndoesDisable(k: K)
    requires Inv(k) && k.run.Some? && !k.inint && k.enadsp
    ensures Shaped(AfterDisDsp(k).k) && AfterEnaDsp(AfterDisDsp(k).k) == Ret(E_OK, k)
  {
    var t := k.run.value;
    RunningFacts(k, t);
    var off := AfterDisDsp(k).k;
    assert off.(enadsp := true) == k;
    assert k.ipmAll ==> !(k.task[t].raster && k.task[t].enater);
  }

  // A waiting task suspended and resumed goes on waiting in the same place.
  lemma ResumeUndoesSuspend(k: K, t: nat)
    requires Shaped(k) && t < |k.task| && k.task[t].stat.Waiting? && AfterSusTsk(k, t).out == Returns(E_OK)
    ensures Shaped(AfterSusTsk(k, t).k) && AfterRsmTsk(AfterSusTsk(k, t).k, t) == Ret(E_OK, k)
  {
    var r := AfterSusTsk(k, t).k;
    assert r.task[t := k.task[t]] == k.task;
  }

  // A wake-up the running task sends to itself is used up by its next sleep, which does not wait.
  lemma SleepUsesWakeup(k: K, t: nat, tmo: Tmo)
    requires Inv(k) && k.run == Some(t) && !k.inint && Dspflg(k) && !k.task[t].raster
    requires AfterWupTsk(k, t).out == Returns(E_OK)
    ensures Shaped(AfterWupTsk(k, t).k) && AfterSlpTsk(AfterWupTsk(k, t).k, tmo) == Ret(E_OK, k)
  {
    var r := AfterWupTsk(k, t).k;
    assert r.task[t := k.task[t]] == k.task;
  }
}
