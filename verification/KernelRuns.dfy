/** Laws over more than one call: timeouts, order of arrival, queued activations. */
module RunLaws {
  import opened Options
  import opened PriorityLists
  import opened KernelState
  import opened KernelCalls
  import opened KernelInvariant
  import opened KernelSafety
  import opened KernelSteps
  import opened WaitOrder
  import opened QueueLaws
  import opened StateEffects
  import opened CallLaws

  // ---- a wait and its timeout ----

  // The caller of c waits and its time comes: off queue and timer, runnable behind its equals, with E_TMOUT,
  // or E_OK after a delay.  Without a timeout nothing happens.
  lemma TimeoutAfterWait(k: K, c: Call)
    requires Inv(k) && Enabled(k, c) && Step(k, c).out.Blocks? && k.run.Some? && WaitOf(c).Some?
    ensures var t := k.run.value; var (cause, timed) := WaitOf(c).value; var r := Step(k, c).k;
            Inv(r) && Enabled(r, EnterInterrupt) &&
            var h := Step(r, EnterInterrupt).k;
            Inv(h) && Enabled(h, Timeout(t)) &&
            var e := Step(h, Timeout(t)).k;
            if timed then
              && t < |e.task| && t < |k.task| && t !in e.tmev && Stands(e.pri, Q(e, Ready), t)
              && e.task[t] == k.task[t].(stat := Runnable, winfo := Wercd(if cause == Delay then E_OK else E_TMOUT))
              && (forall pl :: pl != Ready ==> t !in Q(e, pl))
            else e == h
  {
    hide Core, RunOk, TermOk, Step, Relinked;
    Known(k);
    var t := k.run.value;
    var (cause, timed) := WaitOf(c).value;
    var r := Step(k, c).k;
    BlocksLaw(k, c);
    InTask(k, c);
    StepInv(k, c);
    Known(r);
    InterruptLaw(r);
    StepInv(r, EnterInterrupt);
    var h := Step(r, EnterInterrupt).k;
    Known(h);
    TimerOfWait(k, h, t, cause, timed);
    TimeoutLaw(h, t);
    if timed {
      StepInv(h, Timeout(t));
      WokenMeans(h, Step(h, Timeout(t)).k, t, if cause == Delay then E_OK else E_TMOUT);
    }
  }

  lemma InTask(k: K, c: Call)
    requires Inv(k) && Enabled(k, c) && Step(k, c).out.Blocks? && WaitOf(c).Some?
    ensures !k.inint
  {
    hide Dispatch, BeginWait, Settle;
  }

  lemma TimerOfWait(k: K, h: K, t: nat, c: Cause, timed: bool)
    requires Inv(k) && k.run == Some(t) && t < |k.task| == |h.task|
    requires h.tmev == (if timed then k.tmev + {t} else k.tmev)
    ensures t in h.tmev <==> timed
  {
    assert TaskOk(k, t);
  }

  lemma WokenMeans(k: K, r: K, t: nat, er: Er)
    requires Woken(k, r, t, er) && Inv(r) && !k.task[t].stat.susp
    ensures Stands(r.pri, Q(r, Ready), t) && forall pl :: pl != Ready ==> t !in Q(r, pl)
  {
    hide Stands, Joins, Quits;
    assert Joins(r.pri, Q(k, Ready), Q(r, Ready), t, ByPriority(k.cfg, Ready));
    JoinsStands(r.pri, Q(k, Ready), Q(r, Ready), t);
    forall pl | pl != Ready ensures t !in Q(r, pl) { assert Linked(r, pl); }
  }

  // ---- order of arrival ----

  // In a first-in first-out queue even a change of priority moves nobody.
  lemma ChgPriFifo(k: K, t: nat, p: nat, pl: Place)
    requires Inv(k) && Enabled(k, ChgPri(t, p)) && !ByPriority(k.cfg, pl)
    ensures Q(Step(k, ChgPri(t, p)).k, pl) == Q(k, pl)
  {
    hide Inv, Step, TooHigh, HasCeiling, Requeues;
    ChgPriLaw(k, t, p);
  }

  lemma SettleFifo(k: K, t: nat, pl: Place)
    requires t < |k.task| == |k.pri| && QueuesOk(k) && !ByPriority(k.cfg, pl)
    ensures Q(Settle(k, t), pl) == Q(k, pl)
  {
    hide Requeues, Settle;
    SettleEffect(k, t);
  }

  lemma StableOrder(k: K, r: K, pl: Place, x: nat, y: nat)
    requires Stable(k, r, {}) && pl != Ready && x in Q(r, pl) && y in Q(r, pl) && Precedes(Q(k, pl), x, y)
    ensures Precedes(Q(r, pl), x, y)
  {
    hide Precedes;
    var none: set<nat> := {};
    assert x !in none && y !in none;
  }

  lemma IniMtxFifo(k: K, m: nat, pl: Place, x: nat, y: nat)
    requires Inv(k) && Enabled(k, IniMtx(m)) && !ByPriority(k.cfg, pl) && pl != Ready && Precedes(Q(k, pl), x, y)
    requires var r := Step(k, IniMtx(m)).k; x in Q(r, pl) && y in Q(r, pl)
    ensures Precedes(Q(Step(k, IniMtx(m)).k, pl), x, y)
  {
    hide Inv, Precedes, Settle, AwakeAll, Reinit;
    Known(k);
    IniMtxStep(k, m);
    if !k.inint && m < |k.owner| {
      var k1 := AwakeAll(k, Q(k, Lock(m)), E_DLT);
      AwakeAllStable(k, Q(k, Lock(m)), E_DLT);
      ReinitSteps(k, m);
      if k1.owner[m].Some? {
        var t, k2 := k1.owner[m].value, k1.(owner := k1.owner[m := None]);
        SameQueues(k1, Untake(k2, t, m));
        SettleFifo(Untake(k2, t, m), t, pl);
      }
      assert Q(Step(k, IniMtx(m)).k, pl) == Q(Reinit(k, m), pl) == Q(k1, pl);
      StableOrder(k, k1, pl, x, y);
    }
  }

  lemma FifoKept(k: K, c: Call, pl: Place, x: nat, y: nat)
    requires Inv(k) && Enabled(k, c) && pl != Ready && !ByPriority(k.cfg, pl) && Precedes(Q(k, pl), x, y)
    requires var r := Step(k, c).k; x in Q(r, pl) && y in Q(r, pl)
    ensures Precedes(Q(Step(k, c).k, pl), x, y)
  {
    hide Inv, Step, Precedes;
    Known(k);
    if c.ChgPri? {
      ChgPriFifo(k, c.t, c.tskpri, pl);
    } else if c.IniMtx? {
      IniMtxFifo(k, c.m, pl, x, y);
    } else {
      StepStable(k, c);
      MoversAre(k, c);
      BothThere(Q(k, pl), x, y);
      QueuedWait(k, pl, x);
      QueuedWait(k, pl, y);
      if k.run.None? { assert Movers(k, c) == {}; }
    }
  }

  lemma BothThere(q: seq<nat>, x: nat, y: nat)
    requires Precedes(q, x, y)
    ensures x in q && y in q
  {
  }

  // In every state of the run x and y wait at pl.  In a queue in priority order their priorities stay
  // the same and chg_pri names neither.
  ghost predicate BothWait(k: K, calls: seq<Call>, pl: Place, x: nat, y: nat)
    decreases |calls|
  {
    && x in Q(k, pl) && y in Q(k, pl)
    && (calls == [] ||
        (&& Shaped(k) && Enabled(k, calls[0]) && var c, r := calls[0], Step(k, calls[0]).k;
         && (ByPriority(k.cfg, pl) ==> KeepsPri(k, r, x) && KeepsPri(k, r, y) && (c.ChgPri? ==> c.t != x && c.t != y))
         && BothWait(r, calls[1..], pl, x, y)))
  }

  lemma {:induction false} StillAhead(k: K, calls: seq<Call>, pl: Place, x: nat, y: nat)
    requires Inv(k) && pl != Ready && BothWait(k, calls, pl, x, y) && Precedes(Q(k, pl), y, x)
    ensures Exec(k, calls).Some? && Precedes(Q(Exec(k, calls).value, pl), y, x)
    decreases |calls|
  {
    hide Inv, Step, Precedes;
    if calls != [] {
      var c, r := calls[0], Step(k, calls[0]).k;
      StepInv(k, c);
      assert x in Q(r, pl) && y in Q(r, pl);
      if ByPriority(k.cfg, pl) { WaitOrderKept(k, c, pl, y, x); } else { FifoKept(k, c, pl, y, x); }
      StillAhead(r, calls[1..], pl, x, y);
    }
  }

  // Who begins to wait stands behind everybody who waits there already, in a queue in priority order behind
  // everybody who waits there with the same priority or a higher one.
  lemma ArrivesBehind(k: K, c: Call, pl: Place, x: nat, y: nat)
    requires Inv(k) && Enabled(k, c) && Step(k, c).out.Blocks? && k.run == Some(x) && pl != Ready
    requires y in Q(k, pl) && x in Q(Step(k, c).k, pl) && (ByPriority(k.cfg, pl) ==> At(k.pri, y) <= At(k.pri, x))
    ensures Precedes(Q(Step(k, c).k, pl), y, x)
  {
    hide Core, RunOk, TermOk, Step;
    BlocksLaw(k, c);
    StepInv(k, c);
    Known(k);
    var r := Step(k, c).k;
    var (cause, timed) := WaitOf(c).value;
    Known(r);
    assert Linked(r, pl);
    assert PlaceOf(Waiting(cause, false)) == Some(pl);
    assert Joins(r.pri, Q(k, pl), Q(r, pl), x, ByPriority(k.cfg, pl));
    var n: nat :| PutAt(Q(k, pl), Q(r, pl), x, n) && if ByPriority(k.cfg, pl) then BehindEquals(r.pri, Q(k, pl), x, n) else n == |Q(k, pl)|;
    var i :| 0 <= i < |Q(k, pl)| && Q(k, pl)[i] == y;
    assert Q(r, pl)[i] == y && Q(r, pl)[n] == x;
  }

  // First come, first served: y waits at pl when x begins to wait there, not with a lower priority if that
  // counts.  As long as both wait, y is ahead of x.
  lemma FirstComeFirstServed(k: K, c: Call, calls: seq<Call>, pl: Place, x: nat, y: nat)
    requires Inv(k) && Enabled(k, c) && Step(k, c).out.Blocks? && k.run == Some(x) && pl != Ready
    requires y in Q(k, pl) && (ByPriority(k.cfg, pl) ==> At(k.pri, y) <= At(k.pri, x))
    requires BothWait(Step(k, c).k, calls, pl, x, y)
    ensures Exec(Step(k, c).k, calls).Some? && Precedes(Q(Exec(Step(k, c).k, calls).value, pl), y, x)
  {
    hide Inv, Step, Precedes;
    Known(k);
    ArrivesBehind(k, c, pl, x, y);
    StepInv(k, c);
    StillAhead(Step(k, c).k, calls, pl, x, y);
  }

  // ---- what calls leave alone ----

  // From a to b a task may stop waiting, be given a mutex and an error code; nothing else about it changes.
  ghost predicate Passive(a: Task, b: Task) {
    && b == a.(stat := b.stat, winfo := b.winfo, held := b.held)
    && (b.stat.Dormant? <==> a.stat.Dormant?)
    && (b.stat.Waiting? ==> a.stat.Waiting? && b.stat.cause == a.stat.cause)
  }

  ghost predicate Steady(k: K, r: K, us: set<nat>) {
    |r.task| == |k.task| && |r.pri| == |k.pri| && forall u: nat :: u < |k.task| && u !in us ==> Passive(k.task[u], r.task[u])
  }

  lemma SteadyTrans(k: K, mid: K, r: K, us: set<nat>)
    requires Steady(k, mid, us) && Steady(mid, r, us)
    ensures Steady(k, r, us)
  {
    forall u: nat | u < |k.task| && u !in us ensures Passive(k.task[u], r.task[u]) {
      assert Passive(k.task[u], mid.task[u]) && Passive(mid.task[u], r.task[u]);
    }
  }

  lemma {:induction false} AllWokenSteady(k: K, r: K, ts: seq<nat>, er: Er)
    requires AllWoken(k, r, ts, er)
    ensures Steady(k, r, {})
    decreases |ts|
  {
    hide Relinked;
    if ts != [] {
      var mid :| Woken(k, mid, ts[0], er) && AllWoken(mid, r, ts[1..], er);
      AllWokenSteady(mid, r, ts[1..], er);
      SteadyTrans(k, mid, r, {});
    }
  }

  lemma SettledSteady(k: K, r: K, t: nat)
    requires Settled(k, r, t)
    ensures r.task == k.task && |r.pri| == |k.pri|
  {
    hide Replaced;
  }

  lemma PassedSteady(k: K, r: K, m: nat)
    requires PassedOn(k, r, m) && |k.task| == |k.pri|
    ensures Steady(k, r, {})
  {
    hide Relinked;
  }

  lemma UnlockedSteady(k: K, r: K, t: nat, m: nat)
    requires Unlocked(k, r, t, m) && |k.task| == |k.pri|
    ensures Steady(k, r, {})
  {
    hide Settled, PassedOn;
    var mid, x :| Settled(Unchained(k, t, k.task[t].held), mid, t) && PassedOn(mid, x, m) && ButRun(x, r);
    SettledSteady(Unchained(k, t, k.task[t].held), mid, t);
    PassedSteady(mid, x, m);
    SteadyTrans(k, mid, x, {});
  }

  lemma ReinitialisedSteady(k: K, r: K, m: nat)
    requires Reinitialised(k, r, m)
    ensures Steady(k, r, {})
  {
    hide AllWoken, Replaced;
    var k1, x :| AllWoken(k, k1, Q(k, Lock(m)), E_DLT) && Taken(k1, x, m, k.owner[m]) && ButRun(x, r);
    AllWokenSteady(k, k1, Q(k, Lock(m)), E_DLT);
    assert Steady(k1, r, {});
    SteadyTrans(k, k1, r, {});
  }

  // The same activations are queued and the same tasks are dormant.
  ghost predicate SameActivations(k: K, r: K, us: set<nat>) {
    |r.task| == |k.task| && |r.pri| == |k.pri| && forall u: nat :: u < |k.task| && u !in us ==>
      r.task[u].actque == k.task[u].actque && (r.task[u].stat.Dormant? <==> k.task[u].stat.Dormant?)
  }

  // A call that activates or ends no task.
  predicate Neutral(k: K, c: Call)
    requires Shaped(k)
  {
    !c.ActTsk? && forall t :: 0 <= t < |k.task| ==> !Terminates(k, c, t)
  }

  lemma WakingNeutral(k: K, c: Call)
    requires Inv(k) && Enabled(k, c) && (c.WupTsk? || c.RelWai? || c.WakeWaiter? || c.Timeout?)
    ensures SameActivations(k, Step(k, c).k, {})
  {
    hide Inv, Step, Relinked;
    if c.WupTsk? { WupTskLaw(k, c.t); }
    else if c.RelWai? { RelWaiLaw(k, c.t); }
    else if c.WakeWaiter? { WakeWaiterLaw(k, c.o, c.t); }
    else { TimeoutLaw(k, c.t); }
  }

  lemma StateNeutral(k: K, c: Call)
    requires Inv(k) && Enabled(k, c) && Shaped(k) && Neutral(k, c) && (c.SusTsk? || c.RsmTsk? || c.TerTsk? || c.RasTer?)
    ensures SameActivations(k, Step(k, c).k, {})
  {
    hide Inv, Step, Relinked;
    if c.SusTsk? { SusTskLaw(k, c.t); }
    else if c.RsmTsk? { RsmTskLaw(k, c.t); }
    else if c.TerTsk? { TerTskLaw(k, c.t); }
    else { RasTerLaw(k, c.t); }
  }

  lemma WaitNeutral(k: K, c: Call)
    requires Inv(k) && Enabled(k, c) && (c.SlpTsk? || c.DlyTsk? || c.WaitObject? || c.LocMtx? || c.PlocMtx?)
    ensures SameActivations(k, Step(k, c).k, {})
  {
    hide Inv, Step, Relinked, Replaced;
    Known(k);
    if Step(k, c).out.Blocks? { BlocksLaw(k, c); RunnableNow(k); }
    else if c.SlpTsk? { SlpTskLaw(k, c.tmo); }
    else if c.DlyTsk? { DlyTskLaw(k); }
    else if c.WaitObject? { WaitObjectLaw(k, c.o, c.tmo); }
    else if c.LocMtx? { LocMtxLaw(k, c.m, c.tmo); }
    else { PlocMtxLaw(k, c.m); }
  }

  lemma RunnableNow(k: K)
    requires Inv(k) && k.run.Some?
    ensures k.run.value < |k.task| && k.task[k.run.value].stat.Runnable?
  {
  }

  lemma MutexNeutral(k: K, c: Call)
    requires Inv(k) && Enabled(k, c) && (c.UnlMtx? || c.IniMtx? || c.InitObject?)
    ensures SameActivations(k, Step(k, c).k, {})
  {
    hide Inv, Step, Unlocked, Reinitialised, AllWoken;
    Known(k);
    var r := Step(k, c).k;
    if c.UnlMtx? {
      UnlMtxLaw(k, c.m);
      if r != k { UnlockedSteady(k, r, k.run.value, c.m); }
    } else if c.IniMtx? {
      IniMtxLaw(k, c.m);
      if r != k { ReinitialisedSteady(k, r, c.m); }
    } else {
      InitObjectLaw(k, c.o);
      if r != k {
        var x :| AllWoken(k, x, Q(k, Object(c.o)), E_DLT) && ButRun(x, r);
        AllWokenSteady(k, x, Q(k, Object(c.o)), E_DLT);
      }
    }
  }

  lemma PriNeutral(k: K, c: Call)
    requires Inv(k) && Enabled(k, c) && (c.ChgPri? || c.RotRdq?)
    ensures SameActivations(k, Step(k, c).k, {})
  {
    hide Inv, Step, Replaced, TooHigh, HasCeiling, FirstOf;
    if c.ChgPri? { ChgPriLaw(k, c.t, c.tskpri); } else { RotRdqLaw(k, c.tskpri); }
  }

  lemma ModeNeutral(k: K, c: Call)
    requires Inv(k) && Enabled(k, c) && Shaped(k) && Neutral(k, c)
    requires c.ExtTsk? || c.DisTer? || c.EnaTer? || c.DisDsp? || c.EnaDsp? || c.ChgIpm? || c.EnterInterrupt? || c.ExitInterrupt?
    ensures SameActivations(k, Step(k, c).k, {})
  {
    hide Inv, Step;
    if c.ExtTsk? { ExtTskLaw(k); }
    else if c.DisTer? { DisTerLaw(k); }
    else if c.EnaTer? { EnaTerLaw(k); }
    else if c.DisDsp? { DisDspLaw(k); }
    else if c.EnaDsp? { EnaDspLaw(k); }
    else if c.ChgIpm? { ChgIpmLaw(k, c.enaall); }
    else { InterruptLaw(k); }
  }

  lemma NeutralStep(k: K, c: Call)
    requires Inv(k) && Enabled(k, c) && Shaped(k) && Neutral(k, c)
    ensures SameActivations(k, Step(k, c).k, {})
  {
    hide Inv, Step, SameActivations, Terminates;
    if c.WupTsk? || c.RelWai? || c.WakeWaiter? || c.Timeout? { WakingNeutral(k, c); }
    else if c.SusTsk? || c.RsmTsk? || c.TerTsk? || c.RasTer? { StateNeutral(k, c); }
    else if c.SlpTsk? || c.DlyTsk? || c.WaitObject? || c.LocMtx? || c.PlocMtx? { WaitNeutral(k, c); }
    else if c.UnlMtx? || c.IniMtx? || c.InitObject? { MutexNeutral(k, c); }
    else if c.ChgPri? || c.RotRdq? { PriNeutral(k, c); }
    else { ModeNeutral(k, c); }
  }

  // What a call means for the activations of t: act_tsk starts it or queues a start; its termination uses
  // up a queued start and starts it again exactly if there was one; no other call has to do with either.
  lemma ActivationStep(k: K, c: Call, t: nat)
    requires Inv(k) && Enabled(k, c) && t < |k.task|
    ensures Shaped(k)
    ensures var s := Step(k, c); t < |s.k.task| && var a, b := k.task[t], s.k.task[t];
            if c == ActTsk(t) && s.out == Returns(E_OK) then
              !b.stat.Dormant? && if a.stat.Dormant? then b.actque == a.actque else !a.actque && b.actque
            else if Terminates(k, c, t) then
              !a.stat.Dormant? && !b.actque && (a.actque <==> !b.stat.Dormant?)
            else
              b.actque == a.actque && (b.stat.Dormant? <==> a.stat.Dormant?)
  {
    hide Core, TermOk, RunOk, Step;
    Known(k);
    var r := Step(k, c).k;
    if c.ActTsk? {
      ActTskEffects(k, c.t, t);
    } else if Neutral(k, c) {
      NeutralStep(k, c);
      assert forall u :: 0 <= u < |k.task| ==> !Terminates(k, c, u);
    } else {
      var u :| 0 <= u < |k.task| && Terminates(k, c, u);
      EndEffects(k, c, u, t);
    }
  }

  lemma ActTskEffects(k: K, u: nat, t: nat)
    requires Inv(k) && Enabled(k, ActTsk(u)) && t < |k.task|
    ensures var s := Step(k, ActTsk(u)); t < |s.k.task| && var a, b := k.task[t], s.k.task[t];
            if u == t && s.out == Returns(E_OK) then
              !b.stat.Dormant? && if a.stat.Dormant? then b.actque == a.actque else !a.actque && b.actque
            else b.actque == a.actque && (b.stat.Dormant? <==> a.stat.Dormant?)
  {
    hide Inv, Step, Relinked;
    ActTskLaw(k, u);
  }

  lemma EndEffects(k: K, c: Call, u: nat, t: nat)
    requires Inv(k) && Enabled(k, c) && Shaped(k) && Terminates(k, c, u) && t < |k.task|
    ensures var s := Step(k, c); t < |s.k.task| && var a, b := k.task[t], s.k.task[t];
            if u == t then !a.stat.Dormant? && !b.actque && (a.actque <==> !b.stat.Dormant?) && Terminates(k, c, t)
            else !Terminates(k, c, t) && b.actque == a.actque && (b.stat.Dormant? <==> a.stat.Dormant?)
  {
    hide Core, TermOk, Step, Stands;
    TerminationMeans(k, c, u);
    if u != t { assert Bystander(k, Step(k, c).k, k.task[u].held, t); }
  }

  // Calls of act_tsk(t) that returned E_OK, and times t has started: by act_tsk or at its termination.
  ghost function AcceptedCount(k: K, calls: seq<Call>, t: nat): nat
    decreases |calls|
  {
    if calls != [] && Shaped(k) && Enabled(k, calls[0]) then
      var s := Step(k, calls[0]);
      (if calls[0] == ActTsk(t) && s.out == Returns(E_OK) then 1 else 0) + AcceptedCount(s.k, calls[1..], t)
    else 0
  }

  ghost predicate Starts(k: K, c: Call, t: nat)
    requires Shaped(k) && Enabled(k, c)
  {
    var r := Step(k, c).k;
    t < |k.task| && t < |r.task| && !r.task[t].stat.Dormant? && (k.task[t].stat.Dormant? || Terminates(k, c, t))
  }

  ghost function StartCount(k: K, calls: seq<Call>, t: nat): nat
    decreases |calls|
  {
    if calls != [] && Shaped(k) && Enabled(k, calls[0]) then
      (if Starts(k, calls[0], t) then 1 else 0) + StartCount(Step(k, calls[0]).k, calls[1..], t)
    else 0
  }

  ghost function Queued(k: K, t: nat): nat {
    if t < |k.task| && k.task[t].actque then 1 else 0
  }

  // No activation is lost and none happens twice: over any run, the starts of t and what is still queued
  // at the end are what was queued at first and what act_tsk has accepted since.
  lemma {:induction false} ActivationsConserved(k: K, calls: seq<Call>, t: nat)
    requires Inv(k) && t < |k.task| && Exec(k, calls).Some?
    ensures Queued(k, t) + AcceptedCount(k, calls, t) == StartCount(k, calls, t) + Queued(Exec(k, calls).value, t)
    decreases |calls|
  {
    hide Inv, Step;
    if calls != [] {
      ActivationStep(k, calls[0], t);
      StepInv(k, calls[0]);
      ActivationsConserved(Step(k, calls[0]).k, calls[1..], t);
    }
  }

  // An activation that is queued waits for the termination of t, and then starts t, once.
  ghost predicate NotEnded(k: K, calls: seq<Call>, t: nat)
    decreases |calls|
  {
    calls != [] && Shaped(k) && Enabled(k, calls[0]) ==> !Terminates(k, calls[0], t) && NotEnded(Step(k, calls[0]).k, calls[1..], t)
  }

  lemma {:induction false} QueuedUntilEnd(k: K, calls: seq<Call>, t: nat)
    requires Inv(k) && t < |k.task| && k.task[t].actque && !k.task[t].stat.Dormant? && Exec(k, calls).Some? && NotEnded(k, calls, t)
    ensures var k1 := Exec(k, calls).value; Inv(k1) && t < |k1.task| && k1.task[t].actque && !k1.task[t].stat.Dormant?
    decreases |calls|
  {
    hide Inv, Step, Terminates;
    if calls != [] {
      ActivationStep(k, calls[0], t);
      StepInv(k, calls[0]);
      QueuedUntilEnd(Step(k, calls[0]).k, calls[1..], t);
    }
  }

  lemma QueuedActivationStarts(k: K, calls: seq<Call>, c: Call, t: nat)
    requires Inv(k) && Enabled(k, ActTsk(t)) && t < |k.task| && !k.task[t].stat.Dormant? && Step(k, ActTsk(t)).out == Returns(E_OK)
    requires var q := Step(k, ActTsk(t)).k; Exec(q, calls).Some? && NotEnded(q, calls, t)
    requires var k1 := Exec(Step(k, ActTsk(t)).k, calls).value; Shaped(k1) && Enabled(k1, c) && Terminates(k1, c, t)
    ensures var r := Step(Exec(Step(k, ActTsk(t)).k, calls).value, c).k;
            t < |r.task| && r.task[t].stat.Runnable? && !r.task[t].actque && Stands(r.pri, Q(r, Ready), t)
  {
    hide Core, TermOk, RunOk, Step, Terminates, Stands;
    Known(k);
    var q := Step(k, ActTsk(t)).k;
    ActivationStep(k, ActTsk(t), t);
    StepInv(k, ActTsk(t));
    QueuedUntilEnd(q, calls, t);
    TerminationMeans(Exec(q, calls).value, c, t);
  }
}
