/** One function per service call and per interrupt event: the outcome for the caller and the
    state after it.  Each call is atomic (it runs with the CPU locked). */
module KernelCalls {
  import opened Options
  import opened PriorityLists
  import opened KernelState

  // TMO_POL, a relative time, TMO_FEVR
  datatype Tmo = Poll | Timed | Forever

  datatype Call =
    | ActTsk(t: nat) | ExtTsk | TerTsk(t: nat) | RasTer(t: nat) | DisTer | EnaTer
    | SlpTsk(tmo: Tmo) | DlyTsk | WupTsk(t: nat) | RelWai(t: nat) | SusTsk(t: nat) | RsmTsk(t: nat)
    | LocMtx(m: nat, tmo: Tmo) | PlocMtx(m: nat) | UnlMtx(m: nat) | IniMtx(m: nat)
    | ChgPri(t: nat, tskpri: nat) | RotRdq(tskpri: nat)
    | DisDsp | EnaDsp | ChgIpm(enaall: bool)
    | WaitObject(o: nat, tmo: Tmo) | WakeWaiter(o: nat, t: nat) | InitObject(o: nat)
    | EnterInterrupt | ExitInterrupt | Timeout(t: nat)

  const TMIN_TPRI: nat := 1
  const TMAX_TPRI: nat := 16
  const TPRI_INI: nat := 0
  const TPRI_SELF: nat := 0

  predicate Shaped(k: K) {
    && |k.pri| == |k.task| == |k.cfg.ipri| == |k.cfg.noactque|
    && |k.owner| == |k.cfg.ceil|
    && (k.run.Some? ==> k.run.value < |k.task|)
  }

  function Ret(er: Er, k: K): Res { Res(Returns(er), k) }

  function Switch(k: K): Res { Ret(E_OK, Dispatch(k)) }

  // ---- task_manage.c ----

  function AfterActTsk(k: K, t: nat): Res
    requires Shaped(k)
  {
    if t >= |k.task| then Ret(E_ID, k)
    else if k.task[t].stat.Dormant? then Switch(MakeActive(k, t))
    else if k.cfg.noactque[t] || k.task[t].actque then Ret(E_QOVR, k)
    else Ret(E_OK, SetTask(k, t, k.task[t].(actque := true)))
  }

  predicate MutexBound(k: K, t: nat)
    requires t < |k.task|
  {
    var x := k.task[t];
    x.held != [] || (x.stat.Waiting? && x.stat.cause.OnMutex?)
  }

  function ChangeBase(k: K, t: nat, newbpri: nat): Res
    requires Shaped(k) && t < |k.task|
  {
    var x := k.task[t];
    if x.stat.Dormant? then Ret(E_OBJ, k)
    else if MutexBound(k, t) && !(CeilingsAllow(k.cfg, newbpri, x.held) && CauseAllows(k.cfg, newbpri, x.stat)) then Ret(E_ILUSE, k)
    else
      var k1 := SetTask(k, t, x.(bpri := newbpri));
      if HoldsCeiling(k.cfg, x.held) then Ret(E_OK, k1)
      else Switch(Reprioritize(k1, t, newbpri, false))
  }

  function AfterChgPri(k: K, t: nat, tskpri: nat): Res
    requires Shaped(k)
  {
    if k.inint then Ret(E_CTX, k)
    else if t >= |k.task| then Ret(E_ID, k)
    else if tskpri == TPRI_INI then ChangeBase(k, t, k.cfg.ipri[t])
    else if TMIN_TPRI <= tskpri <= TMAX_TPRI then ChangeBase(k, t, tskpri - TMIN_TPRI)
    else Ret(E_PAR, k)
  }

  // ---- task_term.c ----

  function AfterExtTsk(k: K): Res
    requires Shaped(k) && k.run.Some?
  {
    if k.inint then Ret(E_CTX, k)
    else Res(NoReturn, Dispatch(Terminate(k.(enadsp := true, ipmAll := true), k.run.value)))
  }

  function AfterTerTsk(k: K, t: nat): Res
    requires Shaped(k)
  {
    if k.inint then Ret(E_CTX, k)
    else if t >= |k.task| then Ret(E_ID, k)
    else if k.run == Some(t) then Ret(E_ILUSE, k)
    else if k.task[t].stat.Dormant? then Ret(E_OBJ, k)
    else Switch(Terminate(k, t))
  }

  // The request reaches a task that may not be terminated now: it is made runnable.
  function RequestTermination(k: K, t: nat): Res
    requires Shaped(k) && t < |k.task|
  {
    var x := k.task[t];
    if x.stat.Runnable? then Ret(E_OK, SetTask(k, t, x.(raster := true)))
    else
      var x1 := x.(raster := true, winfo := if x.stat.Waiting? then Wercd(E_RASTER) else x.winfo);
      Switch(Move(SetTask(k, t, x1).(tmev := k.tmev - {t}), t, Runnable, k.pri[t], false))
  }

  function AfterRasTer(k: K, t: nat): Res
    requires Shaped(k)
  {
    if k.inint then Ret(E_CTX, k)
    else if t >= |k.task| then Ret(E_ID, k)
    else if k.run == Some(t) then Ret(E_ILUSE, k)
    else if k.task[t].stat.Dormant? then Ret(E_OBJ, k)
    else if k.task[t].enater then Switch(Terminate(k, t))
    else RequestTermination(k, t)
  }

  function AfterDisTer(k: K): Res
    requires Shaped(k) && k.run.Some?
  {
    if k.inint then Ret(E_CTX, k)
    else Ret(E_OK, SetTask(k, k.run.value, k.task[k.run.value].(enater := false)))
  }

  function AfterEnaTer(k: K): Res
    requires Shaped(k) && k.run.Some?
  {
    var t := k.run.value;
    if k.inint then Ret(E_CTX, k)
    else if k.task[t].raster && Dspflg(k) then Res(NoReturn, Dispatch(Terminate(k, t)))
    else Ret(E_OK, SetTask(k, t, k.task[t].(enater := true)))
  }

  // ---- task_sync.c ----

  function Block(k: K, c: Cause, timed: bool): Res
    requires Shaped(k) && k.run.Some?
  {
    Res(Blocks, Dispatch(BeginWait(k, k.run.value, c, timed)))
  }

  function AfterSlpTsk(k: K, tmo: Tmo): Res
    requires Shaped(k) && k.run.Some?
  {
    var t := k.run.value;
    if k.inint || !Dspflg(k) then Ret(E_CTX, k)
    else if k.task[t].raster then Ret(E_RASTER, k)
    else if k.task[t].wupque then Ret(E_OK, SetTask(k, t, k.task[t].(wupque := false)))
    else if tmo.Poll? then Ret(E_TMOUT, k)
    else Block(k, Sleep, tmo.Timed?)
  }

  function AfterDlyTsk(k: K): Res
    requires Shaped(k) && k.run.Some?
  {
    if k.inint || !Dspflg(k) then Ret(E_CTX, k)
    else if k.task[k.run.value].raster then Ret(E_RASTER, k)
    else Block(k, Delay, true)
  }

  function AfterWupTsk(k: K, t: nat): Res
    requires Shaped(k)
  {
    if t >= |k.task| then Ret(E_ID, k)
    else
      var x := k.task[t];
      if x.stat.Dormant? then Ret(E_OBJ, k)
      else if x.stat.Waiting? && x.stat.cause.Sleep? then Switch(Awake(k, t, E_OK))
      else if !x.wupque then Ret(E_OK, SetTask(k, t, x.(wupque := true)))
      else Ret(E_QOVR, k)
  }

  function AfterRelWai(k: K, t: nat): Res
    requires Shaped(k)
  {
    if t >= |k.task| then Ret(E_ID, k)
    else if !k.task[t].stat.Waiting? then Ret(E_OBJ, k)
    else Switch(Awake(k, t, E_RLWAI))
  }

  function AfterSusTsk(k: K, t: nat): Res
    requires Shaped(k)
  {
    if k.inint then Ret(E_CTX, k)
    else if t >= |k.task| then Ret(E_ID, k)
    else
      var x := k.task[t];
      if k.run == Some(t) && !Dspflg(k) then Ret(E_CTX, k)
      else if x.stat.Dormant? then Ret(E_OBJ, k)
      else if x.raster then Ret(E_RASTER, k)
      else
        match x.stat
        case Runnable => Switch(Move(k, t, Suspended, k.pri[t], false))
        case Waiting(c, false) => Ret(E_OK, SetTask(k, t, x.(stat := Waiting(c, true))))
        case _ => Ret(E_QOVR, k)
  }

  function AfterRsmTsk(k: K, t: nat): Res
    requires Shaped(k)
  {
    if k.inint then Ret(E_CTX, k)
    else if t >= |k.task| then Ret(E_ID, k)
    else
      match k.task[t].stat
      case Suspended => Switch(MakeActive(k, t))
      case Waiting(c, true) => Ret(E_OK, SetTask(k, t, k.task[t].(stat := Waiting(c, false))))
      case _ => Ret(E_OBJ, k)
  }

  // ---- mutex.c ----

  function LockOrElse(k: K, m: nat, blocked: Res): Res
    requires Shaped(k) && k.run.Some? && m < |k.owner|
  {
    var t := k.run.value;
    if CeilOf(k.cfg, m).Some? && k.task[t].bpri < CeilOf(k.cfg, m).value then Ret(E_ILUSE, k)
    else if k.owner[m].None? then Ret(E_OK, Settle(Take(k, t, m), t))
    else if k.owner[m] == Some(t) then Ret(E_OBJ, k)
    else blocked
  }

  function AfterLocMtx(k: K, m: nat, tmo: Tmo): Res
    requires Shaped(k) && k.run.Some?
  {
    if k.inint || !Dspflg(k) then Ret(E_CTX, k)
    else if m >= |k.owner| then Ret(E_ID, k)
    else if k.task[k.run.value].raster then Ret(E_RASTER, k)
    else LockOrElse(k, m, if tmo.Poll? then Ret(E_TMOUT, k) else Block(k, OnMutex(m), tmo.Timed?))
  }

  function AfterPlocMtx(k: K, m: nat): Res
    requires Shaped(k) && k.run.Some?
  {
    if k.inint then Ret(E_CTX, k)
    else if m >= |k.owner| then Ret(E_ID, k)
    else LockOrElse(k, m, Ret(E_TMOUT, k))
  }

  function AfterUnlMtx(k: K, m: nat): Res
    requires Shaped(k) && k.run.Some?
  {
    var t := k.run.value;
    if k.inint then Ret(E_CTX, k)
    else if m >= |k.owner| then Ret(E_ID, k)
    else if k.task[t].held == [] || k.task[t].held[0] != m then Ret(E_OBJ, k)
    else Switch(Release(k, t, m))
  }

  function Reinit(k: K, m: nat): (r: K)
    requires Shaped(k) && m < |k.owner|
    ensures SameTables(k, r)
  {
    var k1 := AwakeAll(k, Q(k, Lock(m)), E_DLT);
    match k1.owner[m]
    case Some(t) => if t < |k1.task| then Release(k1, t, m) else k1
    case None => k1
  }

  function AfterIniMtx(k: K, m: nat): Res
    requires Shaped(k)
  {
    if k.inint then Ret(E_CTX, k)
    else if m >= |k.owner| then Ret(E_ID, k)
    else Switch(Reinit(k, m))
  }

  // ---- sys_manage.c, interrupt.c ----

  function Rotate(k: K, p: nat): K
    requires Shaped(k)
  {
    var q := Q(k, Ready);
    var above: int := p;
    var n := Slot(k.pri, q, above - 1);
    if n < |q| && q[n] < |k.task| && At(k.pri, q[n]) == p then Move(k, q[n], Runnable, k.pri[q[n]], false) else k
  }

  function AfterRotRdq(k: K, tskpri: nat): Res
    requires Shaped(k) && (k.inint || k.run.Some?)
  {
    if tskpri == TPRI_SELF && !k.inint then Switch(Rotate(k, k.task[k.run.value].bpri))
    else if TMIN_TPRI <= tskpri <= TMAX_TPRI then Switch(Rotate(k, tskpri - TMIN_TPRI))
    else Ret(E_PAR, k)
  }

  function AfterDisDsp(k: K): Res {
    if k.inint then Ret(E_CTX, k) else Ret(E_OK, k.(enadsp := false))
  }

  // Dispatching is possible again: a pending termination of the caller comes first.
  function Reenabled(k: K): Res
    requires Shaped(k) && k.run.Some?
  {
    var x := k.task[k.run.value];
    if x.raster && x.enater then Res(NoReturn, Dispatch(Terminate(k, k.run.value))) else Switch(k)
  }

  function AfterEnaDsp(k: K): Res
    requires Shaped(k) && k.run.Some?
  {
    if k.inint then Ret(E_CTX, k)
    else if k.ipmAll then Reenabled(k.(enadsp := true))
    else Ret(E_OK, k.(enadsp := true))
  }

  function AfterChgIpm(k: K, enaall: bool): Res
    requires Shaped(k) && k.run.Some?
  {
    if k.inint then Ret(E_CTX, k)
    else if enaall && k.enadsp then Reenabled(k.(ipmAll := true))
    else Ret(E_OK, k.(ipmAll := enaall))
  }

  // ---- any other synchronisation or communication object ----

  function AfterWaitObject(k: K, o: nat, tmo: Tmo): Res
    requires Shaped(k) && k.run.Some?
  {
    if k.inint || !Dspflg(k) then Ret(E_CTX, k)
    else if o >= |k.cfg.otpri| then Ret(E_ID, k)
    else if k.task[k.run.value].raster then Ret(E_RASTER, k)
    else if tmo.Poll? then Ret(E_TMOUT, k)
    else Block(k, OnObject(o), tmo.Timed?)
  }

  function AfterWakeWaiter(k: K, o: nat, t: nat): Res
    requires Shaped(k)
  {
    if t < |k.task| && k.task[t].stat.Waiting? && k.task[t].stat.cause == OnObject(o) then Switch(Awake(k, t, E_OK))
    else Ret(E_OK, k)
  }

  function AfterInitObject(k: K, o: nat): Res
    requires Shaped(k)
  {
    if k.inint then Ret(E_CTX, k)
    else Switch(AwakeAll(k, Q(k, Object(o)), E_DLT))
  }

  // ---- interrupts ----

  // The timeout block of task t has come to the top of the heap and its callback runs.
  function TimeoutEvent(k: K, t: nat): K
    requires Shaped(k)
  {
    if t in k.tmev && t < |k.task| && k.task[t].stat.Waiting?
    then Awake(k, t, if k.task[t].stat.cause.Delay? then E_OK else E_TMOUT)
    else k
  }

  // ---- one step ----

  // There is a caller, and the event can happen.
  predicate Enabled(k: K, c: Call) {
    && (k.inint || k.run.Some? || c.EnterInterrupt?)
    && (c.EnterInterrupt? ==> !k.inint)
    && (c.ExitInterrupt? || c.Timeout? ==> k.inint)
  }

  function Step(k: K, c: Call): Res
    requires Shaped(k) && Enabled(k, c)
  {
    match c
    case ActTsk(t) => AfterActTsk(k, t)
    case TerTsk(t) => AfterTerTsk(k, t)
    case RasTer(t) => AfterRasTer(k, t)
    case WupTsk(t) => AfterWupTsk(k, t)
    case RelWai(t) => AfterRelWai(k, t)
    case SusTsk(t) => AfterSusTsk(k, t)
    case RsmTsk(t) => AfterRsmTsk(k, t)
    case IniMtx(m) => AfterIniMtx(k, m)
    case ChgPri(t, p) => AfterChgPri(k, t, p)
    case RotRdq(p) => AfterRotRdq(k, p)
    case DisDsp => AfterDisDsp(k)
    case WakeWaiter(o, t) => AfterWakeWaiter(k, o, t)
    case InitObject(o) => AfterInitObject(k, o)
    case EnterInterrupt => Ret(E_OK, k.(inint := true))
    case ExitInterrupt => Switch(k.(inint := false))
    case Timeout(t) => Ret(E_OK, TimeoutEvent(k, t))
    case _ => if k.run.Some? then TaskStep(k, c) else Ret(E_CTX, k)
  }

  // Calls about the running task itself.  A handler that interrupted the idle loop gets E_CTX too.
  function TaskStep(k: K, c: Call): Res
    requires Shaped(k) && k.run.Some?
  {
    match c
    case ExtTsk => AfterExtTsk(k)
    case DisTer => AfterDisTer(k)
    case EnaTer => AfterEnaTer(k)
    case SlpTsk(tmo) => AfterSlpTsk(k, tmo)
    case DlyTsk => AfterDlyTsk(k)
    case LocMtx(m, tmo) => AfterLocMtx(k, m, tmo)
    case PlocMtx(m) => AfterPlocMtx(k, m)
    case UnlMtx(m) => AfterUnlMtx(k, m)
    case EnaDsp => AfterEnaDsp(k)
    case ChgIpm(enaall) => AfterChgIpm(k, enaall)
    case WaitObject(o, tmo) => AfterWaitObject(k, o, tmo)
    case _ => Ret(E_CTX, k)
  }
}
