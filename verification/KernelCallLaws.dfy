/** What each service call and each interrupt event does, said over Step: when which outcome comes,
    who changes and how, and where tasks stand in the queues afterwards. */
module CallLaws {
  import opened Options
  import opened PriorityLists
  import opened KernelState
  import opened KernelCalls
  import opened KernelInvariant
  import opened KernelSafety
  import opened KernelSteps
  import opened QueueLaws
  import opened StateEffects
  import opened CallPairs

  lemma Known(k: K)
    requires Inv(k)
    ensures Shaped(k) && QueuesOk(k) && Core(k, {})
    ensures k.run.Some? ==> k.task[k.run.value].stat.Runnable?
  {
  }

  // A request is refused: nothing changes.
  ghost predicate Refused(k: K, s: Res, er: Er) { s == Ret(er, k) }

  // The call has done its work; who runs is not said here.
  ghost predicate Done(s: Res) { s.out == Returns(E_OK) }

  // ---- a dispatch changes none of this ----

  lemma WokenRun(k: K, r: K, r1: K, t: nat, er: Er)
    requires Woken(k, r, t, er) && r1 == r.(run := r1.run)
    ensures Woken(k, r1, t, er)
  {
    hide Relinked;
    var susp := k.task[t].stat.susp;
    RelinkedSame(k, k, r, r1, t, PlaceOf(k.task[t].stat), if susp then None else Some(Ready));
  }

  lemma StartedRun(k: K, r: K, r1: K, t: nat)
    requires Started(k, r, t) && r1 == r.(run := r1.run)
    ensures Started(k, r1, t)
  {
    hide Relinked;
    RelinkedSame(k, k, r, r1, t, None, Some(Ready));
  }

  lemma BeganRun(k: K, r: K, r1: K, t: nat, c: Cause, timed: bool)
    requires Began(k, r, t, c, timed) && r1 == r.(run := r1.run)
    ensures Began(k, r1, t, c, timed)
  {
    hide Relinked;
    RelinkedSame(k, k, r, r1, t, Some(Ready), PlaceOf(Waiting(c, false)));
  }

  lemma RerankedRun(k: K, r: K, r1: K, t: nat, p: nat, front: bool)
    requires Reranked(k, r, t, p, front) && r1 == r.(run := r1.run)
    ensures Reranked(k, r1, t, p, front)
  {
    hide Replaced;
    var at := PlaceOf(k.task[t].stat);
    if at.Some? && ByPriority(k.cfg, at.value) {
      ReplacedSame(k, k, r, r1, t, at.value, front && at == Some(Ready));
    } else {
      assert forall pl :: Q(r1, pl) == Q(r, pl);
    }
  }

  // ---- waking and releasing ----

  lemma RelWaiLaw(k: K, t: nat)
    requires Inv(k) && Enabled(k, RelWai(t))
    ensures var s := Step(k, RelWai(t));
            if t >= |k.task| then Refused(k, s, E_ID)
            else if !k.task[t].stat.Waiting? then Refused(k, s, E_OBJ)
            else Done(s) && Woken(k, s.k, t, E_RLWAI)
  {
    hide Inv, Woken, Awake;
    Known(k);
    if t < |k.task| && k.task[t].stat.Waiting? {
      WakeEffect(k, t, E_RLWAI);
      WokenRun(k, Awake(k, t, E_RLWAI), Step(k, RelWai(t)).k, t, E_RLWAI);
    }
  }

  // A sleep ends; on a task that does not sleep one wake-up is kept.
  lemma WupTskLaw(k: K, t: nat)
    requires Inv(k) && Enabled(k, WupTsk(t))
    ensures var s := Step(k, WupTsk(t));
            if t >= |k.task| then Refused(k, s, E_ID)
            else if k.task[t].stat.Dormant? then Refused(k, s, E_OBJ)
            else if k.task[t].stat.Waiting? && k.task[t].stat.cause == Sleep then Done(s) && Woken(k, s.k, t, E_OK)
            else if k.task[t].wupque then Refused(k, s, E_QOVR)
            else Done(s) && Recorded(k, s.k, t, k.task[t].(wupque := true)) && s.k.run == k.run
  {
    hide Inv, Woken, Awake;
    Known(k);
    if t < |k.task| && k.task[t].stat.Waiting? && k.task[t].stat.cause.Sleep? {
      WakeEffect(k, t, E_OK);
      WokenRun(k, Awake(k, t, E_OK), Step(k, WupTsk(t)).k, t, E_OK);
    }
  }

  // The object waited for lets t go on.
  lemma WakeWaiterLaw(k: K, o: nat, t: nat)
    requires Inv(k) && Enabled(k, WakeWaiter(o, t))
    ensures var s := Step(k, WakeWaiter(o, t));
            Done(s) && if t < |k.task| && k.task[t].stat.Waiting? && k.task[t].stat.cause == OnObject(o) then Woken(k, s.k, t, E_OK) else s.k == k
  {
    hide Inv, Woken, Awake;
    Known(k);
    if t < |k.task| && k.task[t].stat.Waiting? && k.task[t].stat.cause == OnObject(o) {
      WakeEffect(k, t, E_OK);
      WokenRun(k, Awake(k, t, E_OK), Step(k, WakeWaiter(o, t)).k, t, E_OK);
    }
  }

  // The time of a registered timeout block has come; the end of a delay is no error.
  lemma TimeoutLaw(k: K, t: nat)
    requires Inv(k) && Enabled(k, Timeout(t))
    ensures var s := Step(k, Timeout(t));
            Done(s) && s.k.run == k.run && if t !in k.tmev then s.k == k
              else t < |k.task| && k.task[t].stat.Waiting? && Woken(k, s.k, t, if k.task[t].stat.cause == Delay then E_OK else E_TMOUT)
  {
    hide Inv, Woken, Awake;
    Known(k);
    if t in k.tmev {
      TimedWaits(k, t);
      var er := if k.task[t].stat.cause.Delay? then E_OK else E_TMOUT;
      WakeEffect(k, t, er);
      AwakeRun(k, t, er);
    }
  }

  lemma TimedWaits(k: K, t: nat)
    requires Inv(k) && t in k.tmev
    ensures t < |k.task| && k.task[t].stat.Waiting?
  {
    assert TaskOk(k, t);
  }

  lemma AwakeRun(k: K, t: nat, er: Er)
    requires t < |k.task| == |k.pri| && k.task[t].stat.Waiting?
    ensures Awake(k, t, er).run == k.run
  {
    AwakeCalm(k, t, er);
  }

  // ---- waiting ----

  // What the caller of c waits for if it waits, and whether with a timeout.
  function WaitOf(c: Call): Option<(Cause, bool)> {
    match c
    case SlpTsk(tmo) => Some((Sleep, tmo == Timed))
    case DlyTsk => Some((Delay, true))
    case LocMtx(m, tmo) => Some((OnMutex(m), tmo == Timed))
    case WaitObject(o, tmo) => Some((OnObject(o), tmo == Timed))
    case _ => None
  }

  // A caller that waits: it has left the precedence order and stands in the queue of the object at the
  // place the object's attribute demands; its timeout block is registered exactly if it gave a time.
  lemma BlocksLaw(k: K, c: Call)
    requires Inv(k) && Enabled(k, c) && Step(k, c).out.Blocks?
    ensures k.run.Some? && WaitOf(c).Some?
    ensures var (cause, timed) := WaitOf(c).value; Began(k, Step(k, c).k, k.run.value, cause, timed)
  {
    hide Inv, Began, BeginWait, Dispatch;
    Known(k);
    var t := k.run.value;
    var (cause, timed) := WaitOf(c).value;
    assert Step(k, c) == Block(k, cause, timed);
    BeginEffect(k, t, cause, timed);
    DispatchOnly(BeginWait(k, t, cause, timed));
    BeganRun(k, BeginWait(k, t, cause, timed), Step(k, c).k, t, cause, timed);
  }

  lemma DispatchOnly(k: K)
    ensures Dispatch(k) == k.(run := Dispatch(k).run)
  {
  }

  // The call is refused as one that only a task may make.
  ghost predicate NotFromHere(k: K) { k.inint || k.run.None? }

  lemma SlpTskLaw(k: K, tmo: Tmo)
    requires Inv(k) && Enabled(k, SlpTsk(tmo))
    ensures var s := Step(k, SlpTsk(tmo));
            if NotFromHere(k) || !Dspflg(k) then Refused(k, s, E_CTX)
            else var t := k.run.value;
              if k.task[t].raster then Refused(k, s, E_RASTER)
              else if k.task[t].wupque then Done(s) && Recorded(k, s.k, t, k.task[t].(wupque := false)) && s.k.run == k.run
              else if tmo == Poll then Refused(k, s, E_TMOUT)
              else s.out.Blocks?
  {
    hide Inv, BeginWait;
    Known(k);
  }

  lemma DlyTskLaw(k: K)
    requires Inv(k) && Enabled(k, DlyTsk)
    ensures var s := Step(k, DlyTsk);
            if NotFromHere(k) || !Dspflg(k) then Refused(k, s, E_CTX)
            else if k.task[k.run.value].raster then Refused(k, s, E_RASTER)
            else s.out.Blocks?
  {
    hide Inv, BeginWait;
    Known(k);
  }

  lemma WaitObjectLaw(k: K, o: nat, tmo: Tmo)
    requires Inv(k) && Enabled(k, WaitObject(o, tmo))
    ensures var s := Step(k, WaitObject(o, tmo));
            if NotFromHere(k) || !Dspflg(k) then Refused(k, s, E_CTX)
            else if o >= |k.cfg.otpri| then Refused(k, s, E_ID)
            else if k.task[k.run.value].raster then Refused(k, s, E_RASTER)
            else if tmo == Poll then Refused(k, s, E_TMOUT)
            else s.out.Blocks?
  {
    hide Inv, BeginWait;
    Known(k);
  }

  // ---- activation, suspension ----

  lemma ActTskLaw(k: K, t: nat)
    requires Inv(k) && Enabled(k, ActTsk(t))
    ensures var s := Step(k, ActTsk(t));
            if t >= |k.task| then Refused(k, s, E_ID)
            else if k.task[t].stat.Dormant? then Done(s) && Started(k, s.k, t)
            else if k.task[t].actque || k.cfg.noactque[t] then Refused(k, s, E_QOVR)
            else Done(s) && Recorded(k, s.k, t, k.task[t].(actque := true)) && s.k.run == k.run
  {
    hide Inv, Started, MakeActive;
    Known(k);
    if t < |k.task| && k.task[t].stat.Dormant? {
      StartEffect(k, t);
      StartedRun(k, MakeActive(k, t), Step(k, ActTsk(t)).k, t);
    }
  }

  // A runnable task leaves the precedence order; one that waits goes on waiting.
  lemma SusTskLaw(k: K, t: nat)
    requires Inv(k) && Enabled(k, SusTsk(t))
    ensures var s := Step(k, SusTsk(t));
            if k.inint then Refused(k, s, E_CTX)
            else if t >= |k.task| then Refused(k, s, E_ID)
            else var a := k.task[t];
              if k.run == Some(t) && !Dspflg(k) then Refused(k, s, E_CTX)
              else if a.stat.Dormant? then Refused(k, s, E_OBJ)
              else if a.raster then Refused(k, s, E_RASTER)
              else if a.stat.Runnable? then
                Done(s) && Rest(k, s.k, k.task[t := a.(stat := Suspended)], k.pri, k.owner, k.tmev) && Relinked(k, s.k, t, Some(Ready), None)
              else if a.stat.Waiting? && !a.stat.susp then
                Done(s) && Recorded(k, s.k, t, a.(stat := Waiting(a.stat.cause, true))) && s.k.run == k.run
              else Refused(k, s, E_QOVR)
  {
    hide Inv, Relinked, Move;
    Known(k);
    if !k.inint && t < |k.task| && k.task[t].stat.Runnable? {
      var r := Move(k, t, Suspended, k.pri[t], false);
      MoveFields(k, t, Suspended, k.pri[t], false);
      MoveRelinks(k, t, Suspended, k.pri[t]);
      assert k.pri[t := k.pri[t]] == k.pri;
      DispatchOnly(r);
      RelinkedSame(k, k, r, Dispatch(r), t, Some(Ready), None);
    }
  }

  // The inverse: behind its equals if it was suspended only.
  lemma RsmTskLaw(k: K, t: nat)
    requires Inv(k) && Enabled(k, RsmTsk(t))
    ensures var s := Step(k, RsmTsk(t));
            if k.inint then Refused(k, s, E_CTX)
            else if t >= |k.task| then Refused(k, s, E_ID)
            else var a := k.task[t];
              if a.stat.Suspended? then Done(s) && Started(k, s.k, t)
              else if a.stat.Waiting? && a.stat.susp then
                Done(s) && Recorded(k, s.k, t, a.(stat := Waiting(a.stat.cause, false))) && s.k.run == k.run
              else Refused(k, s, E_OBJ)
  {
    hide Inv, Started, MakeActive;
    Known(k);
    if !k.inint && t < |k.task| && k.task[t].stat.Suspended? {
      StartEffect(k, t);
      StartedRun(k, MakeActive(k, t), Step(k, RsmTsk(t)).k, t);
    }
  }

  // ---- priorities ----

  // Base priority b is higher than a ceiling that t holds or waits for.
  ghost predicate TooHigh(k: K, t: nat, b: nat)
    requires t < |k.task|
  {
    exists m: nat :: (m in k.task[t].held || WaitsForMutex(k.task[t].stat, m)) && CeilOf(k.cfg, m).Some? && b < CeilOf(k.cfg, m).value
  }

  ghost predicate HasCeiling(k: K, t: nat)
    requires t < |k.task|
  {
    exists m: nat :: m in k.task[t].held && CeilOf(k.cfg, m).Some?
  }

  // While a ceiling mutex is held only the base priority changes.  Otherwise it is the new current
  // priority, with which t goes behind its equals.
  ghost predicate Based(k: K, r: K, t: nat, b: nat)
    requires t < |k.task|
  {
    var k1 := SetTask(k, t, k.task[t].(bpri := b));
    if HasCeiling(k, t) then r == k1 else Reranked(k1, r, t, b, false)
  }

  lemma ChgPriLaw(k: K, t: nat, tskpri: nat)
    requires Inv(k) && Enabled(k, ChgPri(t, tskpri))
    ensures var s := Step(k, ChgPri(t, tskpri));
            if k.inint then Refused(k, s, E_CTX)
            else if t >= |k.task| then Refused(k, s, E_ID)
            else if tskpri > 16 then Refused(k, s, E_PAR)
            else var b := if tskpri == 0 then k.cfg.ipri[t] else tskpri - 1;
              if k.task[t].stat.Dormant? then Refused(k, s, E_OBJ)
              else if TooHigh(k, t, b) then Refused(k, s, E_ILUSE)
              else Done(s) && Based(k, s.k, t, b)
  {
    hide Inv, Based, ChangeBase, TooHigh;
    Known(k);
    if !k.inint && t < |k.task| && tskpri <= 16 {
      BaseLaw(k, t, if tskpri == 0 then k.cfg.ipri[t] else tskpri - 1);
    }
  }

  lemma BaseLaw(k: K, t: nat, b: nat)
    requires Inv(k) && t < |k.task|
    ensures Shaped(k)
    ensures var s := ChangeBase(k, t, b);
            if k.task[t].stat.Dormant? then Refused(k, s, E_OBJ)
            else if TooHigh(k, t, b) then Refused(k, s, E_ILUSE)
            else Done(s) && Based(k, s.k, t, b)
  {
    hide Inv, Reranked, Reprioritize;
    Known(k);
    TooHighTest(k, t, b);
    CeilingTest(k, t);
    var k1 := SetTask(k, t, k.task[t].(bpri := b));
    SameQueues(k, k1);
    RerankEffect(k1, t, b, false);
    RerankedRun(k1, Reprioritize(k1, t, b, false), Dispatch(Reprioritize(k1, t, b, false)), t, b, false);
  }

  lemma TooHighTest(k: K, t: nat, b: nat)
    requires t < |k.task|
    ensures TooHigh(k, t, b) <==> MutexBound(k, t) && !(CeilingsAllow(k.cfg, b, k.task[t].held) && CauseAllows(k.cfg, b, k.task[t].stat))
  {
    var a := k.task[t];
    if TooHigh(k, t, b) {
      var m: nat :| (m in a.held || WaitsForMutex(a.stat, m)) && CeilOf(k.cfg, m).Some? && b < CeilOf(k.cfg, m).value;
      if m in a.held {
        var i :| 0 <= i < |a.held| && a.held[i] == m;
        assert !CeilingsAllow(k.cfg, b, a.held);
      }
    } else {
      assert CeilingsAllow(k.cfg, b, a.held) by {
        forall i | 0 <= i < |a.held| && CeilOf(k.cfg, a.held[i]).Some? ensures CeilOf(k.cfg, a.held[i]).value <= b { assert a.held[i] in a.held; }
      }
      assert a.stat.Waiting? && a.stat.cause.OnMutex? ==> WaitsForMutex(a.stat, a.stat.cause.m);
    }
  }

  lemma CeilingTest(k: K, t: nat)
    requires t < |k.task|
    ensures HasCeiling(k, t) <==> HoldsCeiling(k.cfg, k.task[t].held)
  {
    var held := k.task[t].held;
    if HasCeiling(k, t) {
      var m: nat :| m in held && CeilOf(k.cfg, m).Some?;
      var i :| 0 <= i < |held| && held[i] == m;
    }
    if HoldsCeiling(k.cfg, held) {
      var i :| 0 <= i < |held| && CeilOf(k.cfg, held[i]).Some?;
      assert held[i] in held;
    }
  }

  // t is the first of priority p in the precedence order.
  ghost predicate FirstOf(k: K, p: nat, t: nat) {
    exists n: nat :: n < |Q(k, Ready)| && Q(k, Ready)[n] == t && At(k.pri, t) == p && forall i :: 0 <= i < n ==> At(k.pri, Q(k, Ready)[i]) != p
  }

  // The first task of priority p goes behind the others of that priority.
  ghost predicate Rotated(k: K, r: K, p: nat) {
    if exists t: nat :: FirstOf(k, p, t) then
      exists t: nat :: FirstOf(k, p, t) && Rest(k, r, k.task, k.pri, k.owner, k.tmev) && Replaced(k, r, t, Ready, false)
    else Rest(k, r, k.task, k.pri, k.owner, k.tmev) && SameQueuesAs(k, r)
  }

  lemma RotRdqLaw(k: K, tskpri: nat)
    requires Inv(k) && Enabled(k, RotRdq(tskpri))
    ensures var s := Step(k, RotRdq(tskpri));
            if tskpri > 16 || (tskpri == 0 && k.inint) then Refused(k, s, E_PAR)
            else
              (tskpri > 0 || k.run.Some?) && Done(s) && Rotated(k, s.k, if tskpri > 0 then tskpri - 1 else k.task[k.run.value].bpri)
  {
    hide Inv, Rotated, Rotate;
    Known(k);
    if tskpri == 0 && !k.inint {
      RotateEffect(k, k.task[k.run.value].bpri);
    } else if 0 < tskpri <= 16 {
      RotateEffect(k, tskpri - 1);
    }
  }

  lemma RotateEffect(k: K, p: nat)
    requires Inv(k)
    ensures Shaped(k) && Rotated(k, Dispatch(Rotate(k, p)), p)
  {
    hide Inv, Replaced, Move;
    Known(k);
    assert Linked(k, Ready);
    var q := Q(k, Ready);
    var above: int := p;
    var n := Slot(k.pri, q, above - 1);
    var r := Dispatch(Rotate(k, p));
    if n < |q| && At(k.pri, q[n]) == p {
      var t := q[n];
      assert t in q;
      assert FirstOf(k, p, t);
      MoveFields(k, t, Runnable, k.pri[t], false);
      MoveReplaces(k, t, Runnable, k.pri[t], false, Ready);
      assert k.pri[t := k.pri[t]] == k.pri;
      ReplacedSame(k, k, Rotate(k, p), r, t, Ready, false);
    } else {
      NoneOf(k, p, n);
      assert forall pl :: Q(r, pl) == Q(k, pl);
    }
  }

  lemma NoneOf(k: K, p: nat, n: nat)
    requires Sorted(k.pri, Q(k, Ready)) && n <= |Q(k, Ready)| && forall i :: 0 <= i < n ==> At(k.pri, Q(k, Ready)[i]) < p
    requires n < |Q(k, Ready)| ==> At(k.pri, Q(k, Ready)[n]) > p
    ensures !exists t: nat :: FirstOf(k, p, t)
  {
  }

  // ---- mutexes ----

  // t owns m, which was free, and has its ceiling, ahead of its equals if that is a change.
  ghost predicate Acquired(k: K, r: K, t: nat, m: nat) {
    && t < |k.task| && m < |k.owner| && k.owner[m].None?
    && Settled(k.(task := k.task[t := k.task[t].(held := [m] + k.task[t].held)], owner := k.owner[m := Some(t)]), r, t)
  }

  // The base priority of t is above the ceiling of m.
  ghost predicate Forbidden(k: K, t: nat, m: nat)
    requires t < |k.task|
  {
    CeilOf(k.cfg, m).Some? && k.task[t].bpri < CeilOf(k.cfg, m).value
  }

  lemma LocMtxLaw(k: K, m: nat, tmo: Tmo)
    requires Inv(k) && Enabled(k, LocMtx(m, tmo))
    ensures var s := Step(k, LocMtx(m, tmo));
            if NotFromHere(k) || !Dspflg(k) then Refused(k, s, E_CTX)
            else if m >= |k.owner| then Refused(k, s, E_ID)
            else var t := k.run.value;
              if k.task[t].raster then Refused(k, s, E_RASTER)
              else if Forbidden(k, t, m) then Refused(k, s, E_ILUSE)
              else if k.owner[m] == Some(t) then Refused(k, s, E_OBJ)
              else if k.owner[m].None? then Done(s) && Acquired(k, s.k, t, m) && s.k.queue == k.queue && s.k.run == k.run
              else if tmo == Poll then Refused(k, s, E_TMOUT)
              else s.out.Blocks?
  {
    hide Inv, Settled, Settle, BeginWait;
    Known(k);
    if !NotFromHere(k) && Dspflg(k) && m < |k.owner| {
      AcquireEffect(k, k.run.value, m);
      TakeAtHead(k, k.run.value, m);
    }
  }

  // Without waiting it may also be called while dispatching is disabled.
  lemma PlocMtxLaw(k: K, m: nat)
    requires Inv(k) && Enabled(k, PlocMtx(m))
    ensures var s := Step(k, PlocMtx(m));
            if NotFromHere(k) then Refused(k, s, E_CTX)
            else if m >= |k.owner| then Refused(k, s, E_ID)
            else var t := k.run.value;
              if Forbidden(k, t, m) then Refused(k, s, E_ILUSE)
              else if k.owner[m] == Some(t) then Refused(k, s, E_OBJ)
              else if k.owner[m].None? then Done(s) && Acquired(k, s.k, t, m)
              else Refused(k, s, E_TMOUT)
  {
    hide Inv, Settled, Settle;
    Known(k);
    if !NotFromHere(k) && m < |k.owner| { AcquireEffect(k, k.run.value, m); }
  }

  lemma AcquireEffect(k: K, t: nat, m: nat)
    requires QueuesOk(k) && t < |k.task| == |k.pri| && m < |k.owner|
    ensures k.owner[m].None? ==> Acquired(k, Settle(Take(k, t, m), t), t, m)
  {
    hide Settled;
    SameQueues(k, Take(k, t, m));
    SettleEffect(Take(k, t, m), t);
  }

  // r is x but for the running task.
  ghost predicate ButRun(x: K, r: K) { r == x.(run := r.run) }

  // t gives up its newest mutex, m: its priority is settled and then m is passed on.
  ghost predicate Unlocked(k: K, r: K, t: nat, m: nat) {
    t < |k.task| && k.task[t].held != [] &&
    exists mid, x :: Settled(Unchained(k, t, k.task[t].held), mid, t) && PassedOn(mid, x, m) && ButRun(x, r)
  }

  lemma UnlMtxLaw(k: K, m: nat)
    requires Inv(k) && Enabled(k, UnlMtx(m))
    ensures var s := Step(k, UnlMtx(m));
            if NotFromHere(k) then Refused(k, s, E_CTX)
            else if m >= |k.owner| then Refused(k, s, E_ID)
            else var t := k.run.value;
              if k.task[t].held == [] || k.task[t].held[0] != m then Refused(k, s, E_OBJ)
              else Done(s) && Unlocked(k, s.k, t, m)
  {
    hide Inv, Settled, PassedOn, Settle, HandOver;
    Known(k);
    if !NotFromHere(k) && m < |k.owner| {
      var t := k.run.value;
      if k.task[t].held != [] && k.task[t].held[0] == m { UnlockEffect(k, t, m); }
    }
  }

  lemma UnlockEffect(k: K, t: nat, m: nat)
    requires Inv(k) && t < |k.task| == |k.pri| && m < |k.owner| && k.task[t].held != [] && k.task[t].held[0] == m
    ensures Unlocked(k, Dispatch(Release(k, t, m)), t, m)
  {
    hide Settled, PassedOn, QueuesOk;
    var k1 := Unchained(k, t, k.task[t].held);
    assert QueuesOk(k) by { Known(k); }
    SameQueues(k, k1);
    var mid := Settle(k1, t);
    SettleEffect(k1, t);
    SettleQueues(k1, t);
    HandOverEffect(mid, m);
    assert Untake(k, t, m) == k1;
    DispatchOnly(Release(k, t, m));
  }

  lemma SettleQueues(k: K, t: nat)
    requires t < |k.task| == |k.pri| && QueuesOk(k)
    ensures QueuesOk(Settle(k, t)) && SameTables(k, Settle(k, t))
  {
    ReprioritizeQueues(k, t, FullPri(k, t), true);
  }

  // Everybody who waits for m is woken with E_DLT; its owner, if any, loses it.
  ghost predicate Reinitialised(k: K, r: K, m: nat) {
    m < |k.owner| && exists k1, x :: AllWoken(k, k1, Q(k, Lock(m)), E_DLT) && Taken(k1, x, m, k.owner[m]) && ButRun(x, r)
  }

  ghost predicate Taken(k: K, r: K, m: nat, from: Option<nat>) {
    match from
    case None => r == k
    case Some(t) =>
      t < |k.task| && m < |k.owner| &&
      Settled(k.(task := k.task[t := k.task[t].(held := Without(k.task[t].held, m))], owner := k.owner[m := None]), r, t)
  }

  lemma IniMtxLaw(k: K, m: nat)
    requires Inv(k) && Enabled(k, IniMtx(m))
    ensures var s := Step(k, IniMtx(m));
            if k.inint then Refused(k, s, E_CTX)
            else if m >= |k.owner| then Refused(k, s, E_ID)
            else Done(s) && Reinitialised(k, s.k, m)
  {
    hide Inv, Reinit, Reinitialised;
    Known(k);
    if !k.inint && m < |k.owner| { ReinitEffect(k, m); }
  }

  lemma ReinitEffect(k: K, m: nat)
    requires Inv(k) && m < |k.owner|
    ensures Shaped(k) && Reinitialised(k, Dispatch(Reinit(k, m)), m)
  {
    hide Inv, AllWoken, Settled, Reinit, QueuesOk, Settle;
    Known(k);
    var k1 := AwakeAll(k, Q(k, Lock(m)), E_DLT);
    WakeAllEffect(k, Lock(m), E_DLT);
    ReinitSteps(k, m);
    if k.owner[m].Some? {
      var t, k2 := k.owner[m].value, k1.(owner := k1.owner[m := None]);
      assert QueuesOk(k1);
      SameQueues(k1, Untake(k2, t, m));
      SettleEffect(Untake(k2, t, m), t);
    }
    assert Taken(k1, Reinit(k, m), m, k.owner[m]);
    DispatchOnly(Reinit(k, m));
  }

  lemma InitObjectLaw(k: K, o: nat)
    requires Inv(k) && Enabled(k, InitObject(o))
    ensures var s := Step(k, InitObject(o));
            if k.inint then Refused(k, s, E_CTX)
            else Done(s) && exists x :: AllWoken(k, x, Q(k, Object(o)), E_DLT) && ButRun(x, s.k)
  {
    hide Inv, AllWoken, AwakeAll;
    Known(k);
    WakeAllEffect(k, Object(o), E_DLT);
    DispatchOnly(AwakeAll(k, Q(k, Object(o)), E_DLT));
  }

  // What unlocking comes to: the first who waits for m owns it, with E_OK and off its timer, or nobody does.
  lemma UnlockMeans(k: K, m: nat)
    requires Inv(k) && Enabled(k, UnlMtx(m)) && Step(k, UnlMtx(m)).out == Returns(E_OK)
    ensures var r, t := Step(k, UnlMtx(m)).k, k.run.value;
            && m < |k.owner| && r.owner == k.owner[m := Head(Q(k, Lock(m)))]
            && |r.task| == |k.task| && k.task[t].held != [] && r.task[t] == k.task[t].(held := k.task[t].held[1..])
            && forall u: nat :: u < |k.task| && u != t ==> Bystander(k, r, [m], u)
  {
    hide Inv, Settled, PassedOn, Step, Bystander;
    Known(k);
    UnlMtxLaw(k, m);
    var r, t := Step(k, UnlMtx(m)).k, k.run.value;
    var mid, x :| Settled(Unchained(k, t, k.task[t].held), mid, t) && PassedOn(mid, x, m) && ButRun(x, r);
    SettledMeans(Unchained(k, t, k.task[t].held), mid, t);
    PassedMeans(k, mid, x, t, m);
    forall u: nat | u < |k.task| && u != t ensures Bystander(k, r, [m], u) {
      assert Bystander(k, x, [m], u);
      BystanderRun(k, x, r, [m], u);
    }
  }

  lemma BystanderRun(k: K, x: K, r: K, ms: seq<nat>, u: nat)
    requires u < |k.task| && Bystander(k, x, ms, u) && ButRun(x, r)
    ensures Bystander(k, r, ms, u)
  {
  }

  lemma SettledMeans(k: K, r: K, t: nat)
    requires Settled(k, r, t) && k.task[t].stat.Runnable?
    ensures Rest(k, r, k.task, r.pri, k.owner, k.tmev) && |r.pri| == |k.pri| && (forall u: nat :: u != t ==> At(r.pri, u) == At(k.pri, u))
    ensures forall m: nat :: Q(r, Lock(m)) == Q(k, Lock(m))
  {
    hide Requeues;
  }

  lemma PassedMeans(k: K, mid: K, r: K, t: nat, m: nat)
    requires t < |k.task| == |k.pri| == |mid.pri| && k.task[t].stat.Runnable? && k.task[t].held != [] && PassedOn(mid, r, m)
    requires Rest(k, mid, Unchained(k, t, k.task[t].held).task, mid.pri, k.owner, k.tmev) && (forall u: nat :: u != t ==> At(mid.pri, u) == At(k.pri, u))
    requires forall n: nat :: Q(mid, Lock(n)) == Q(k, Lock(n))
    ensures m < |k.owner| && r.owner == k.owner[m := Head(Q(k, Lock(m)))] && |r.task| == |k.task|
    ensures r.task[t] == k.task[t].(held := k.task[t].held[1..])
    ensures forall u: nat :: u < |k.task| && u != t ==> Bystander(k, r, [m], u)
  {
    hide Relinked;
    forall u: nat | u < |k.task| && u != t ensures Bystander(k, r, [m], u) {
      assert mid.task[u] == k.task[u];
    }
  }

  // ---- termination ----

  // Call c ends task t.
  predicate Terminates(k: K, c: Call, t: nat)
    requires Shaped(k)
  {
    && !k.inint && t < |k.task|
    && match c
       case TerTsk(u) => u == t && k.run != Some(t) && !k.task[t].stat.Dormant?
       case RasTer(u) => u == t && k.run != Some(t) && !k.task[t].stat.Dormant? && k.task[t].enater
       case ExtTsk => k.run == Some(t)
       case EnaTer => k.run == Some(t) && k.task[t].raster && k.enadsp && k.ipmAll
       case EnaDsp => k.run == Some(t) && k.task[t].raster && k.task[t].enater && k.ipmAll
       case ChgIpm(enaall) => k.run == Some(t) && k.task[t].raster && k.task[t].enater && k.enadsp && enaall
       case _ => false
  }

  // The state in which c ends its task: dispatching is possible again if the task is the caller.
  function Unmasked(k: K, c: Call): K {
    match c
    case ExtTsk => k.(enadsp := true, ipmAll := true)
    case EnaDsp => k.(enadsp := true)
    case ChgIpm(enaall) => k.(ipmAll := enaall)
    case _ => k
  }

  lemma TerminatesLaw(k: K, c: Call, t: nat)
    requires Inv(k) && Enabled(k, c) && Shaped(k) && Terminates(k, c, t)
    ensures var s := Step(k, c);
            && s.out == (if k.run == Some(t) then NoReturn else Returns(E_OK))
            && exists x :: Ended(Unmasked(k, c), x, t) && ButRun(x, s.k)
  {
    hide Inv, Ended, Terminate, Dispatch;
    Known(k);
    var k0 := Unmasked(k, c);
    CoreSame(k, k0);
    EndEffect(k0, t);
    DispatchOnly(Terminate(k0, t));
    assert Step(k, c).k == Dispatch(Terminate(k0, t));
  }

  // The caller does not return exactly if the call ends it.
  lemma NoReturnLaw(k: K, c: Call)
    requires Inv(k) && Enabled(k, c)
    ensures Shaped(k)
    ensures Step(k, c).out.NoReturn? <==> k.run.Some? && Terminates(k, c, k.run.value)
  {
    hide Inv, Dispatch, Terminate, Move, Settle, Release, Reinit, AwakeAll, Rotate, BeginWait, Awake, MakeActive, ChangeBase, RequestTermination;
    Known(k);
    NoReturnCalls(k, c);
  }

  lemma NoReturnCalls(k: K, c: Call)
    requires Shaped(k) && Enabled(k, c)
    ensures Step(k, c).out.NoReturn? ==> c.ExtTsk? || c.EnaTer? || c.EnaDsp? || c.ChgIpm?
  {
    hide Dispatch, Terminate, Move, Settle, Release, Reinit, AwakeAll, Rotate, BeginWait, Awake, MakeActive, Reprioritize;
  }

  // What a termination comes to: initial values, no queue and no timer; started again, behind its equals,
  // exactly if an activation was queued, which is then used up; its mutexes passed on.
  lemma TerminationMeans(k: K, c: Call, t: nat)
    requires Inv(k) && Enabled(k, c) && Shaped(k) && Terminates(k, c, t)
    ensures var r := Step(k, c).k;
            && EndedTask(k, r, t) && Bequeathed(k, r, t)
            && (!k.task[t].actque ==> forall pl :: t !in Q(r, pl))
            && r.enadsp == (k.enadsp || c.ExtTsk? || c.EnaDsp?) && r.ipmAll == (k.ipmAll || c.ExtTsk? || c.ChgIpm?)
  {
    hide Inv, Ended, Step, Core, EndedTask, Bequeathed;
    TerminatesLaw(k, c, t);
    var r, k0 := Step(k, c).k, Unmasked(k, c);
    var x :| Ended(k0, x, t) && ButRun(x, r);
    Known(k);
    CoreSame(k, k0);
    EndedMeans(k0, x, t);
    EndedElsewhere(k, k0, x, r, t);
    StepInv(k, c);
    if !k.task[t].actque { DormantNowhere(r, t); }
  }

  lemma EndedElsewhere(k: K, k0: K, x: K, r: K, t: nat)
    requires EndedTask(k0, x, t) && Bequeathed(k0, x, t) && ButRun(x, r) && k0 == k.(enadsp := k0.enadsp, ipmAll := k0.ipmAll)
    ensures EndedTask(k, r, t) && Bequeathed(k, r, t)
    ensures t < |r.task| && (!k.task[t].actque ==> r.task[t].stat.Dormant?)
  {
    hide Stands;
    assert Q(r, Ready) == Q(x, Ready);
    forall u: nat | u < |k.task| && u != t ensures Bystander(k, r, k.task[t].held, u) {
      assert Bystander(k0, x, k.task[t].held, u);
    }
  }

  lemma DormantNowhere(k: K, t: nat)
    requires Inv(k) && t < |k.task| && k.task[t].stat.Dormant?
    ensures forall pl :: t !in Q(k, pl)
  {
    forall pl ensures t !in Q(k, pl) { assert Linked(k, pl); }
  }

  lemma TerTskLaw(k: K, t: nat)
    requires Inv(k) && Enabled(k, TerTsk(t))
    ensures var s := Step(k, TerTsk(t));
            if k.inint then Refused(k, s, E_CTX)
            else if t >= |k.task| then Refused(k, s, E_ID)
            else if k.run == Some(t) then Refused(k, s, E_ILUSE)
            else if k.task[t].stat.Dormant? then Refused(k, s, E_OBJ)
            else Terminates(k, TerTsk(t), t)
  {
    hide Inv, Terminate;
    Known(k);
  }

  // A task that may not be terminated now is told so: a wait is broken off, and it is runnable.
  ghost predicate Told(k: K, r: K, t: nat) {
    t < |k.task| &&
    var a := k.task[t];
    if a.stat.Runnable? then Recorded(k, r, t, a.(raster := true)) && r.run == k.run
    else
      && Rest(k, r, k.task[t := a.(stat := Runnable, raster := true, winfo := if a.stat.Waiting? then Wercd(E_RASTER) else a.winfo)], k.pri, k.owner, k.tmev - {t})
      && Relinked(k, r, t, PlaceOf(a.stat), Some(Ready))
  }

  lemma RasTerLaw(k: K, t: nat)
    requires Inv(k) && Enabled(k, RasTer(t))
    ensures var s := Step(k, RasTer(t));
            if k.inint then Refused(k, s, E_CTX)
            else if t >= |k.task| then Refused(k, s, E_ID)
            else if k.run == Some(t) then Refused(k, s, E_ILUSE)
            else if k.task[t].stat.Dormant? then Refused(k, s, E_OBJ)
            else if k.task[t].enater then Terminates(k, RasTer(t), t)
            else Done(s) && Told(k, s.k, t)
  {
    hide Inv, Terminate, Told, RequestTermination;
    Known(k);
    if t < |k.task| { RequestEffect(k, t); }
  }

  lemma RequestEffect(k: K, t: nat)
    requires Shaped(k) && QueuesOk(k) && t < |k.task|
    ensures RequestTermination(k, t).out == Returns(E_OK) && Told(k, RequestTermination(k, t).k, t)
  {
    hide Relinked, Move, QueuesOk, Dispatch;
    var a := k.task[t];
    if !a.stat.Runnable? { BrokenOff(k, t, if a.stat.Waiting? then Wercd(E_RASTER) else a.winfo); }
  }

  lemma BrokenOff(k: K, t: nat, w: Winfo)
    requires QueuesOk(k) && t < |k.task| == |k.pri| && !k.task[t].stat.Runnable?
    ensures var a := k.task[t].(raster := true, winfo := w);
            var r := Dispatch(Move(SetTask(k, t, a).(tmev := k.tmev - {t}), t, Runnable, k.pri[t], false));
            && Rest(k, r, k.task[t := a.(stat := Runnable)], k.pri, k.owner, k.tmev - {t})
            && Relinked(k, r, t, PlaceOf(k.task[t].stat), Some(Ready))
  {
    hide Relinked, Move, QueuesOk;
    var k1 := SetTask(k, t, k.task[t].(raster := true, winfo := w)).(tmev := k.tmev - {t});
    SameQueues(k, k1);
    MoveFields(k1, t, Runnable, k.pri[t], false);
    MoveRelinks(k1, t, Runnable, k.pri[t]);
    var r := Move(k1, t, Runnable, k.pri[t], false);
    DispatchOnly(r);
    RelinkedSame(k1, k, r, Dispatch(r), t, PlaceOf(k.task[t].stat), Some(Ready));
    assert k.pri[t := k.pri[t]] == k.pri;
  }

  lemma ExtTskLaw(k: K)
    requires Inv(k) && Enabled(k, ExtTsk)
    ensures var s := Step(k, ExtTsk);
            if NotFromHere(k) then Refused(k, s, E_CTX) else Terminates(k, ExtTsk, k.run.value)
  {
    hide Inv, Terminate;
    Known(k);
  }

  lemma DisTerLaw(k: K)
    requires Inv(k) && Enabled(k, DisTer)
    ensures var s := Step(k, DisTer);
            if NotFromHere(k) then Refused(k, s, E_CTX)
            else Done(s) && s.k.run == k.run && Recorded(k, s.k, k.run.value, k.task[k.run.value].(enater := false))
  {
    hide Inv;
    Known(k);
  }

  // A pending request is carried out if dispatching is possible.
  lemma EnaTerLaw(k: K)
    requires Inv(k) && Enabled(k, EnaTer)
    ensures var s := Step(k, EnaTer);
            if NotFromHere(k) then Refused(k, s, E_CTX)
            else if Terminates(k, EnaTer, k.run.value) then s.out.NoReturn?
            else Done(s) && s.k.run == k.run && Recorded(k, s.k, k.run.value, k.task[k.run.value].(enater := true))
  {
    hide Inv, Terminate;
    Known(k);
  }

  // ---- dispatching and interrupts ----

  lemma DisDspLaw(k: K)
    requires Inv(k) && Enabled(k, DisDsp)
    ensures var s := Step(k, DisDsp); if k.inint then Refused(k, s, E_CTX) else s == Ret(E_OK, k.(enadsp := false))
  {
    hide Inv;
    Known(k);
  }

  lemma EnaDspLaw(k: K)
    requires Inv(k) && Enabled(k, EnaDsp)
    ensures var s := Step(k, EnaDsp);
            if NotFromHere(k) then Refused(k, s, E_CTX)
            else if Terminates(k, EnaDsp, k.run.value) then s.out.NoReturn?
            else Done(s) && ButRun(k.(enadsp := true), s.k)
  {
    hide Inv, Terminate;
    Known(k);
  }

  lemma ChgIpmLaw(k: K, enaall: bool)
    requires Inv(k) && Enabled(k, ChgIpm(enaall))
    ensures var s := Step(k, ChgIpm(enaall));
            if NotFromHere(k) then Refused(k, s, E_CTX)
            else if Terminates(k, ChgIpm(enaall), k.run.value) then s.out.NoReturn?
            else Done(s) && ButRun(k.(ipmAll := enaall), s.k)
  {
    hide Inv, Terminate;
    Known(k);
  }

  lemma InterruptLaw(k: K)
    requires Inv(k)
    ensures !k.inint ==> Step(k, EnterInterrupt) == Ret(E_OK, k.(inint := true))
    ensures k.inint ==> Done(Step(k, ExitInterrupt)) && ButRun(k.(inint := false), Step(k, ExitInterrupt).k)
  {
    hide Inv;
    Known(k);
  }
}
