/** Who runs after each call. */
module DispatchLaws {
  import opened Options
  import opened PriorityLists
  import opened KernelState
  import opened KernelCalls
  import opened KernelInvariant
  import opened KernelSafety
  import opened CallLaws

  // Where there can be no dispatch the running task is the same.
  ghost predicate Kept(k: K, r: K) { r.inint || !Dspflg(r) ==> r.run == k.run }

  lemma DispatchKept(k: K, x: K)
    requires x.run == k.run
    ensures Kept(k, x) && Kept(k, Dispatch(x))
  {
  }

  lemma MoveKept(k: K, k1: K, t: nat, s: Stat, p: nat, front: bool)
    requires t < |k1.task| == |k1.pri| && k1.run == k.run
    ensures var x := Move(k1, t, s, p, front); Kept(k, x) && Kept(k, Dispatch(x))
  {
    hide Move;
    MoveFields(k1, t, s, p, front);
    DispatchKept(k, Move(k1, t, s, p, front));
  }

  lemma StateKept(k: K, t: nat)
    requires Inv(k)
    ensures Shaped(k) && Kept(k, AfterActTsk(k, t).k) && Kept(k, AfterSusTsk(k, t).k) && Kept(k, AfterRsmTsk(k, t).k)
  {
    hide Inv, Kept, Move, Dispatch;
    Known(k);
    DispatchKept(k, k);
    if t < |k.task| {
      MoveKept(k, k, t, Runnable, k.pri[t], false);
      MoveKept(k, k, t, Suspended, k.pri[t], false);
      forall a ensures Kept(k, SetTask(k, t, a)) { DispatchKept(k, SetTask(k, t, a)); }
    }
  }

  lemma WakingKept(k: K, t: nat, o: nat)
    requires Inv(k)
    ensures Shaped(k) && Kept(k, AfterWupTsk(k, t).k) && Kept(k, AfterRelWai(k, t).k) && Kept(k, AfterWakeWaiter(k, o, t).k)
    ensures Kept(k, TimeoutEvent(k, t))
  {
    hide Inv, Kept, Awake, Dispatch;
    Known(k);
    DispatchKept(k, k);
    if t < |k.task| {
      forall a ensures Kept(k, SetTask(k, t, a)) { DispatchKept(k, SetTask(k, t, a)); }
      if k.task[t].stat.Waiting? {
        forall er ensures Kept(k, Awake(k, t, er)) && Kept(k, Dispatch(Awake(k, t, er))) {
          AwakeRun(k, t, er);
          DispatchKept(k, Awake(k, t, er));
        }
      }
    }
  }

  lemma TerminateKept(k: K, k1: K, t: nat)
    requires Inv(k) && t < |k.task| && k1 == k.(enadsp := k1.enadsp, ipmAll := k1.ipmAll)
    ensures |k.task| == |k.pri| == |k.cfg.ipri| && Kept(k, Dispatch(Terminate(k1, t))) && Kept(k, k1) && Kept(k, Dispatch(k1))
  {
    hide Core, Kept, Terminate;
    Known(k);
    TerminateCalm(k1, t);
    DispatchKept(k, Terminate(k1, t));
    DispatchKept(k, k1);
  }

  lemma TermKept(k: K, t: nat)
    requires Inv(k)
    ensures Shaped(k) && Kept(k, AfterTerTsk(k, t).k) && Kept(k, AfterRasTer(k, t).k)
  {
    hide Inv, Kept, Terminate, Dispatch, Move;
    Known(k);
    DispatchKept(k, k);
    if t < |k.task| {
      TerminateKept(k, k, t);
      forall a ensures Kept(k, SetTask(k, t, a)) { DispatchKept(k, SetTask(k, t, a)); }
      var x := k.task[t];
      var x1 := x.(raster := true, winfo := if x.stat.Waiting? then Wercd(E_RASTER) else x.winfo);
      MoveKept(k, SetTask(k, t, x1).(tmev := k.tmev - {t}), t, Runnable, k.pri[t], false);
    }
  }

  lemma OwnKept(k: K, enaall: bool)
    requires Inv(k) && k.run.Some?
    ensures Shaped(k) && Kept(k, AfterExtTsk(k).k) && Kept(k, AfterEnaTer(k).k) && Kept(k, AfterDisTer(k).k)
    ensures Kept(k, AfterEnaDsp(k).k) && Kept(k, AfterChgIpm(k, enaall).k)
  {
    hide Inv, Kept, Terminate, Dispatch;
    Known(k);
    DispatchKept(k, k);
    var t := k.run.value;
    TerminateKept(k, k, t);
    TerminateKept(k, k.(enadsp := true, ipmAll := true), t);
    TerminateKept(k, k.(enadsp := true), t);
    TerminateKept(k, k.(ipmAll := enaall), t);
    forall a ensures Kept(k, SetTask(k, t, a)) { DispatchKept(k, SetTask(k, t, a)); }
  }

  lemma PriKept(k: K, t: nat, p: nat)
    requires Inv(k) && (k.inint || k.run.Some?)
    ensures Shaped(k) && Kept(k, AfterChgPri(k, t, p).k) && Kept(k, AfterRotRdq(k, p).k)
  {
    hide Inv, Kept, Reprioritize, Dispatch, Move;
    Known(k);
    DispatchKept(k, k);
    forall u: nat, q: nat | u < |k.task| ensures Kept(k, Dispatch(Move(k, u, Runnable, q, false))) { MoveKept(k, k, u, Runnable, q, false); }
    if t < |k.task| {
      forall a ensures Kept(k, SetTask(k, t, a)) { DispatchKept(k, SetTask(k, t, a)); }
      forall a, q: nat ensures Kept(k, Dispatch(Reprioritize(SetTask(k, t, a), t, q, false))) {
        ReprioritizeFields(SetTask(k, t, a), t, q, false);
        DispatchKept(k, Reprioritize(SetTask(k, t, a), t, q, false));
      }
    }
  }

  lemma BlockKept(k: K, c: Cause, timed: bool)
    requires Inv(k) && k.run.Some?
    ensures Shaped(k) && Kept(k, Block(k, c, timed).k)
  {
    hide Inv, Kept, Move;
    Known(k);
    var t := k.run.value;
    var k1 := SetTask(k, t, k.task[t].(winfo := Tmevtb(timed))).(tmev := if timed then k.tmev + {t} else k.tmev);
    MoveKept(k, k1, t, Waiting(c, false), k.pri[t], false);
  }

  lemma WaitKept(k: K, o: nat, tmo: Tmo)
    requires Inv(k) && k.run.Some?
    ensures Shaped(k) && Kept(k, AfterSlpTsk(k, tmo).k) && Kept(k, AfterDlyTsk(k).k) && Kept(k, AfterWaitObject(k, o, tmo).k)
  {
    hide Inv, Kept, Block;
    Known(k);
    DispatchKept(k, k);
    BlockKept(k, Sleep, tmo.Timed?);
    BlockKept(k, Delay, true);
    BlockKept(k, OnObject(o), tmo.Timed?);
    forall a ensures Kept(k, SetTask(k, k.run.value, a)) { DispatchKept(k, SetTask(k, k.run.value, a)); }
  }

  lemma MutexKept(k: K, m: nat, tmo: Tmo)
    requires Inv(k) && k.run.Some?
    ensures Shaped(k) && Kept(k, AfterLocMtx(k, m, tmo).k) && Kept(k, AfterPlocMtx(k, m).k) && Kept(k, AfterUnlMtx(k, m).k)
  {
    hide Inv, Kept, Block, Settle, Release, Dispatch;
    Known(k);
    DispatchKept(k, k);
    BlockKept(k, OnMutex(m), tmo.Timed?);
    if m < |k.owner| {
      var t := k.run.value;
      SettleCalm(Take(k, t, m), t);
      DispatchKept(k, Settle(Take(k, t, m), t));
      ReleaseCalm(k, t, m);
      DispatchKept(k, Release(k, t, m));
    }
  }

  lemma InitKept(k: K, o: nat, m: nat)
    requires Inv(k)
    ensures Shaped(k) && Kept(k, AfterInitObject(k, o).k) && Kept(k, AfterIniMtx(k, m).k)
  {
    hide Inv, Kept, AwakeAll, Release, Dispatch;
    Known(k);
    DispatchKept(k, k);
    AwakeAllCalm(k, Q(k, Object(o)), E_DLT);
    DispatchKept(k, AwakeAll(k, Q(k, Object(o)), E_DLT));
    if m < |k.owner| {
      var k1 := AwakeAll(k, Q(k, Lock(m)), E_DLT);
      AwakeAllCalm(k, Q(k, Lock(m)), E_DLT);
      if k1.owner[m].Some? && k1.owner[m].value < |k1.task| { ReleaseCalm(k1, k1.owner[m].value, m); }
      DispatchKept(k, Reinit(k, m));
    }
  }

  lemma TaskKept(k: K, c: Call)
    requires Inv(k) && k.run.Some?
    ensures Kept(k, TaskStep(k, c).k)
  {
    hide Inv, Kept, AfterSlpTsk, AfterLocMtx, AfterPlocMtx, AfterUnlMtx, AfterDlyTsk, AfterWaitObject, AfterDisTer, AfterEnaTer, AfterChgIpm, AfterExtTsk, AfterEnaDsp, Dispatch;
    DispatchKept(k, k);
    match c
    case SlpTsk(tmo) => WaitKept(k, 0, tmo);
    case LocMtx(m, tmo) => MutexKept(k, m, tmo);
    case PlocMtx(m) => MutexKept(k, m, Poll);
    case UnlMtx(m) => MutexKept(k, m, Poll);
    case DlyTsk => WaitKept(k, 0, Poll);
    case WaitObject(o, tmo) => WaitKept(k, o, tmo);
    case DisTer => OwnKept(k, true);
    case EnaTer => OwnKept(k, true);
    case ChgIpm(enaall) => OwnKept(k, enaall);
    case ExtTsk => OwnKept(k, true);
    case EnaDsp => OwnKept(k, true);
    case _ =>
  }

  lemma OnTaskKept(k: K, c: Call)
    requires Inv(k) && Enabled(k, c)
    requires c.ActTsk? || c.TerTsk? || c.RasTer? || c.WupTsk? || c.RelWai? || c.SusTsk? || c.RsmTsk? || c.ChgPri? || c.WakeWaiter? || c.Timeout?
    ensures Kept(k, Step(k, c).k)
  {
    hide Inv, Kept, TaskStep, AfterActTsk, AfterChgPri, AfterTerTsk, AfterRasTer, AfterRotRdq, AfterWupTsk, AfterSusTsk, AfterRsmTsk,
      AfterRelWai, AfterWakeWaiter, TimeoutEvent, AfterInitObject, AfterIniMtx, Dispatch;
    match c
    case ActTsk(t) => StateKept(k, t);
    case SusTsk(t) => StateKept(k, t);
    case RsmTsk(t) => StateKept(k, t);
    case TerTsk(t) => TermKept(k, t);
    case RasTer(t) => TermKept(k, t);
    case WupTsk(t) => WakingKept(k, t, 0);
    case RelWai(t) => WakingKept(k, t, 0);
    case WakeWaiter(o, t) => WakingKept(k, t, o);
    case Timeout(t) => WakingKept(k, t, 0);
    case ChgPri(t, p) => PriKept(k, t, p);
  }

  lemma StepKept(k: K, c: Call)
    requires Inv(k) && Enabled(k, c)
    ensures Kept(k, Step(k, c).k)
  {
    hide Inv, Kept, TaskStep, AfterActTsk, AfterChgPri, AfterTerTsk, AfterRasTer, AfterRotRdq, AfterWupTsk, AfterSusTsk, AfterRsmTsk,
      AfterRelWai, AfterWakeWaiter, TimeoutEvent, AfterInitObject, AfterIniMtx, Dispatch;
    Known(k);
    DispatchKept(k, k);
    if c.ActTsk? || c.TerTsk? || c.RasTer? || c.WupTsk? || c.RelWai? || c.SusTsk? || c.RsmTsk? || c.ChgPri? || c.WakeWaiter? || c.Timeout? {
      OnTaskKept(k, c);
    } else if c.RotRdq? {
      PriKept(k, 0, c.tskpri);
    } else if c.InitObject? {
      InitKept(k, c.o, 0);
    } else if c.IniMtx? {
      InitKept(k, 0, c.m);
    } else if c.DisDsp? {
      DispatchKept(k, k.(enadsp := false));
    } else if c.EnterInterrupt? {
      DispatchKept(k, k.(inint := true));
    } else if c.ExitInterrupt? {
      DispatchKept(k, k.(inint := false));
    } else if k.run.Some? {
      TaskKept(k, c);
    }
  }

  // Who runs after a call: the head of the precedence order if there can be a dispatch, else whoever did.
  lemma RunLaw(k: K, c: Call)
    requires Inv(k) && Enabled(k, c)
    ensures var r := Step(k, c).k;
            r.run == if r.inint || !r.enadsp || !r.ipmAll then k.run else Head(Q(r, Ready))
  {
    hide Step, Core, TermOk;
    StepKept(k, c);
    StepInv(k, c);
  }
}
