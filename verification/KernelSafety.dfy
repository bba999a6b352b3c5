/** Safety of whole runs: the invariant holds initially and every call keeps it. */
module KernelSafety {
  import opened Options
  import opened PriorityLists
  import opened KernelState
  import opened KernelCalls
  import opened KernelInvariant

  // The running task is runnable, and outside interrupt handlers it is the one that should run.
  ghost predicate RunOk(k: K) {
    && (k.run.Some? ==> k.run.value < |k.task| && k.task[k.run.value].stat.Runnable?)
    && (!k.inint ==> k.run == Sched(k))
    && (!Dspflg(k) ==> k.run.Some?)
  }

  // A task whose termination is requested is runnable; while dispatching is possible none is
  // also ready to be terminated.
  ghost predicate TermOk(k: K) {
    forall t: nat :: t < |k.task| && k.task[t].raster ==>
      k.task[t].stat.Runnable? && (k.task[t].enater ==> !Dspflg(k) && k.run == Some(t))
  }

  ghost predicate Inv(k: K) {
    Core(k, {}) && RunOk(k) && TermOk(k)
  }

  // A step that leaves dispatching and, except for ys, runnability and termination requests alone.
  ghost predicate Calm(k: K, r: K, ys: set<nat>) {
    && SameTables(k, r) && r.run == k.run && r.enadsp == k.enadsp && r.ipmAll == k.ipmAll && r.inint == k.inint
    && (forall u :: 0 <= u < |k.task| && u < |r.task| && u !in ys ==>
          r.task[u].raster == k.task[u].raster && r.task[u].enater == k.task[u].enater
          && (k.task[u].stat.Runnable? ==> r.task[u].stat.Runnable?))
  }

  lemma CalmTrans(k: K, r: K, s: K, ys: set<nat>)
    requires Calm(k, r, ys) && Calm(r, s, ys)
    ensures Calm(k, s, ys)
  {
  }

  lemma HeadRunnable(k: K)
    requires QueuesOk(k)
    ensures Head(Q(k, Ready)).Some? ==> Head(Q(k, Ready)).value < |k.task| && k.task[Head(Q(k, Ready)).value].stat.Runnable?
  {
    assert Linked(k, Ready);
    if Q(k, Ready) != [] { assert Q(k, Ready)[0] in Q(k, Ready); }
  }

  // What a finished call has to show about task t, the only one it disturbed.
  ghost predicate Fine(k: K, r: K, t: nat) {
    && t < |r.task|
    && (r.task[t].raster ==> r.task[t].stat.Runnable? && !r.task[t].enater)
    && (k.run == Some(t) ==> r.task[t].stat.Runnable? || (Dspflg(k) && !k.inint))
  }

  lemma DispatchKeeps(r: K)
    requires Core(r, {}) && TermOk(r) && (!Dspflg(r) ==> r.run.Some?)
    requires r.run.Some? ==> r.run.value < |r.task| && (r.task[r.run.value].stat.Runnable? || (Dspflg(r) && !r.inint))
    ensures Inv(Dispatch(r))
  {
    HeadRunnable(r);
    var d := Dispatch(r);
    assert d == r.(run := d.run);
    CoreRun(r, d.run);
  }

  lemma DispatchInv(k: K, r: K, t: nat)
    requires Inv(k) && Core(r, {}) && Calm(k, r, {t}) && Fine(k, r, t)
    ensures Inv(Dispatch(r))
  {
    forall u: nat | u < |r.task| && r.task[u].raster
      ensures r.task[u].stat.Runnable? && (r.task[u].enater ==> !Dspflg(r) && r.run == Some(u))
    {
      if u != t { assert k.task[u].raster; }
    }
    DispatchKeeps(r);
  }

  lemma CalmInv(k: K, r: K)
    requires Inv(k) && Core(r, {}) && Calm(k, r, {})
    ensures Inv(Dispatch(r))
  {
    forall u: nat | u < |r.task| && r.task[u].raster
      ensures r.task[u].stat.Runnable? && (r.task[u].enater ==> !Dspflg(r) && r.run == Some(u))
    {
      assert k.task[u].raster;
    }
    DispatchKeeps(r);
  }

  // The core does not depend on the dispatching variables.
  lemma CoreSame(k: K, r: K)
    requires Core(k, {})
    requires r == k.(run := r.run, enadsp := r.enadsp, ipmAll := r.ipmAll, inint := r.inint)
    ensures Core(r, {})
  {
    SameQueues(k, r);
    forall t: nat | t < |r.task| ensures TaskOk(r, t) { assert TaskOk(k, t); }
  }

  lemma CoreRun(k: K, run: Option<nat>)
    requires Core(k, {})
    ensures Core(k.(run := run), {})
  {
    CoreSame(k, k.(run := run));
  }

  // Without a change of the precedence order there is nothing to dispatch.
  lemma NoDispatch(k: K, r: K)
    requires RunOk(k) && Q(r, Ready) == Q(k, Ready)
    requires r.run == k.run && r.enadsp == k.enadsp && r.ipmAll == k.ipmAll && r.inint == k.inint
    ensures Dispatch(r) == r
  {
  }

  // ---- which tasks the building blocks disturb ----

  lemma MoveCalm(k: K, t: nat, s: Stat, p: nat, front: bool)
    requires t < |k.task| == |k.pri|
    ensures Calm(k, Move(k, t, s, p, front), {t})
    ensures !k.task[t].stat.Runnable? || s.Runnable? ==> Calm(k, Move(k, t, s, p, front), {})
  {
    MoveFields(k, t, s, p, front);
  }

  lemma AwakeCalm(k: K, t: nat, er: Er)
    requires t < |k.task| == |k.pri| && k.task[t].stat.Waiting?
    ensures Calm(k, Awake(k, t, er), {})
  {
    MoveCalm(SetTask(k, t, k.task[t].(winfo := Wercd(er))).(tmev := k.tmev - {t}), t, AfterWait(k.task[t].stat), k.pri[t], false);
  }

  lemma {:induction false} AwakeAllCalm(k: K, ts: seq<nat>, er: Er)
    requires |k.task| == |k.pri|
    ensures Calm(k, AwakeAll(k, ts, er), {})
    decreases |ts|
  {
    if ts != [] {
      if ts[0] < |k.task| && k.task[ts[0]].stat.Waiting? {
        AwakeCalm(k, ts[0], er);
        AwakeAllCalm(Awake(k, ts[0], er), ts[1..], er);
      } else {
        AwakeAllCalm(k, ts[1..], er);
      }
    }
  }

  lemma SettleCalm(k: K, t: nat)
    requires t < |k.task| == |k.pri|
    ensures Calm(k, Settle(k, t), {})
  {
    ReprioritizeFields(k, t, FullPri(k, t), true);
  }

  lemma HandOverCalm(k: K, m: nat)
    requires |k.task| == |k.pri| && m < |k.owner|
    ensures Calm(k, HandOver(k, m), {})
  {
    var q := Q(k, Lock(m));
    if q != [] && q[0] < |k.task| && k.task[q[0]].stat.Waiting? { HandOverFields(k, m, q[0]); }
  }

  lemma ReleaseCalm(k: K, t: nat, m: nat)
    requires t < |k.task| == |k.pri| && m < |k.owner|
    ensures Calm(k, Release(k, t, m), {})
  {
    var k1 := Untake(k, t, m);
    SettleCalm(k1, t);
    HandOverCalm(Settle(k1, t), m);
    CalmTrans(k1, Settle(k1, t), Release(k, t, m), {});
  }

  lemma {:induction false} ReleaseAllCalm(k: K, t: nat, ms: seq<nat>)
    requires t < |k.task| == |k.pri|
    ensures Calm(k, ReleaseAll(k, t, ms), {})
    decreases |ms|
  {
    if ms != [] {
      var k1 := SetTask(k, t, k.task[t].(held := ms[1..]));
      if ms[0] < |k.owner| {
        HandOverCalm(k1, ms[0]);
        ReleaseAllCalm(HandOver(k1, ms[0]), t, ms[1..]);
        CalmTrans(k1, HandOver(k1, ms[0]), ReleaseAll(HandOver(k1, ms[0]), t, ms[1..]), {});
      } else {
        ReleaseAllCalm(k1, t, ms[1..]);
      }
    }
  }

  lemma TerminateCalm(k: K, t: nat)
    requires t < |k.task| == |k.pri| == |k.cfg.ipri|
    ensures Calm(k, Terminate(k, t), {t})
    ensures var a := Terminate(k, t).task[t]; !a.raster && a.enater && (a.stat.Runnable? || a.stat.Dormant?)
  {
    var k1 := Quiesce(k, t);
    MoveCalm(k.(tmev := k.tmev - {t}), t, Dormant, k.pri[t], false);
    ReleaseAllCalm(k1, t, k1.task[t].held);
    var k2 := ReleaseAll(k1, t, k1.task[t].held);
    var k3 := MakeDormant(k2, t);
    CalmTrans(k, k1, k2, {t});
    CalmTrans(k, k2, k3, {t});
    if k3.task[t].actque {
      var k4 := SetTask(k3, t, k3.task[t].(actque := false));
      MoveCalm(k4, t, Runnable, k4.pri[t], false);
      MoveFields(k4, t, Runnable, k4.pri[t], false);
      CalmTrans(k, k4, MakeActive(k4, t), {t});
    }
  }

  // ---- every call keeps the invariant ----

  lemma ActiveInv(k: K, t: nat)
    requires Inv(k) && t < |k.task| && (k.task[t].stat.Dormant? || k.task[t].stat.Suspended?)
    ensures Inv(Dispatch(MakeActive(k, t)))
  {
    MakeActiveCore(k, t);
    MoveCalm(k, t, Runnable, k.pri[t], false);
    CalmInv(k, MakeActive(k, t));
  }

  // Flags of one task; the precedence order stays.
  lemma FlagsInv(k: K, t: nat, a: Task)
    requires Inv(k) && t < |k.task|
    requires a == k.task[t].(actque := a.actque, wupque := a.wupque, raster := a.raster, enater := a.enater)
    requires k.task[t].stat.Dormant? ==> a == k.task[t].(actque := a.actque)
    requires a.raster ==> a.stat.Runnable? && (a.enater ==> !Dspflg(k) && k.run == Some(t))
    ensures Inv(SetTask(k, t, a))
  {
    FlagsCore(k, t, a);
  }

  lemma TerminateInv(k: K, t: nat)
    requires Inv(k) && t < |k.task| && (k.run == Some(t) ==> Dspflg(k) && !k.inint)
    ensures Inv(Dispatch(Terminate(k, t)))
  {
    TerminateCore(k, t);
    TerminateCalm(k, t);
    DispatchInv(k, Terminate(k, t), t);
  }

  lemma AwakeInv(k: K, t: nat, er: Er)
    requires Inv(k) && t < |k.task| && k.task[t].stat.Waiting?
    ensures Inv(Dispatch(Awake(k, t, er)))
  {
    AwakeCore(k, t, er, {});
    AwakeCalm(k, t, er);
    CalmInv(k, Awake(k, t, er));
  }

  lemma BlockInv(k: K, c: Cause, timed: bool)
    requires Inv(k) && k.run.Some? && !k.inint && Dspflg(k) && !k.task[k.run.value].raster
    requires CauseAllows(k.cfg, k.task[k.run.value].bpri, Waiting(c, false)) && (c.Delay? ==> timed)
    requires c.OnMutex? ==> c.m < |k.owner| && k.owner[c.m].Some? && k.owner[c.m] != k.run
    ensures Inv(Block(k, c, timed).k)
  {
    var t := k.run.value;
    BeginWaitCore(k, t, c, timed);
    var k1 := SetTask(k, t, k.task[t].(winfo := Tmevtb(timed))).(tmev := if timed then k.tmev + {t} else k.tmev);
    MoveCalm(k1, t, Waiting(c, false), k.pri[t], false);
    MoveFields(k1, t, Waiting(c, false), k.pri[t], false);
    DispatchInv(k, BeginWait(k, t, c, timed), t);
  }

  lemma RequestInv(k: K, t: nat)
    requires Inv(k) && t < |k.task| && !k.task[t].stat.Dormant? && !k.task[t].enater && k.run != Some(t)
    ensures Inv(RequestTermination(k, t).k)
  {
    var x := k.task[t];
    if x.stat.Runnable? {
      FlagsInv(k, t, x.(raster := true));
    } else {
      RequestWaiting(k, t);
    }
  }

  lemma RequestWaiting(k: K, t: nat)
    requires Inv(k) && t < |k.task| && (k.task[t].stat.Waiting? || k.task[t].stat.Suspended?)
    requires !k.task[t].enater && k.run != Some(t)
    ensures Inv(RequestTermination(k, t).k)
  {
    assert TaskOk(k, t);
    var x := k.task[t];
    var x1 := x.(raster := true, winfo := if x.stat.Waiting? then Wercd(E_RASTER) else x.winfo);
    var k1 := SetTask(k, t, x1).(tmev := k.tmev - {t});
    var r := Move(k1, t, Runnable, k.pri[t], false);
    Begin(k, t, {});
    FieldsCore(k, k1, t, {t});
    MoveCore(k1, t, Runnable, k.pri[t], false, {t});
    MoveFields(k1, t, Runnable, k.pri[t], false);
    Finish(r, t, {});
    DispatchInv(k, r, t);
  }

  lemma SuspendInv(k: K, t: nat)
    requires Inv(k) && t < |k.task| && k.task[t].stat.Runnable? && !k.task[t].raster && !k.inint
    requires k.run == Some(t) ==> Dspflg(k)
    ensures Inv(Dispatch(Move(k, t, Suspended, k.pri[t], false)))
  {
    assert TaskOk(k, t);
    var r := Move(k, t, Suspended, k.pri[t], false);
    Begin(k, t, {});
    MoveCore(k, t, Suspended, k.pri[t], false, {t});
    MoveFields(k, t, Suspended, k.pri[t], false);
    MoveCalm(k, t, Suspended, k.pri[t], false);
    Finish(r, t, {});
    DispatchInv(k, r, t);
  }

  // Waiting becomes waiting-suspended, or the other way round.
  lemma DoubleWaitInv(k: K, t: nat, susp: bool)
    requires Inv(k) && t < |k.task| && k.task[t].stat.Waiting?
    ensures Inv(SetTask(k, t, k.task[t].(stat := Waiting(k.task[t].stat.cause, susp))))
  {
    assert TaskOk(k, t);
    var r := SetTask(k, t, k.task[t].(stat := Waiting(k.task[t].stat.cause, susp)));
    forall m: nat | WaitsForMutex(r.task[t].stat, m) ensures m < |r.owner| && r.owner[m].Some? {
      assert WaitsForMutex(k.task[t].stat, m);
    }
    Begin(k, t, {});
    FieldsCore(k, r, t, {t});
    Finish(r, t, {});
  }

  // ---- mutexes and priorities ----

  // Locking a free mutex leaves the running task at the head of the precedence order:
  // p_runtsk == p_schedtsk still holds and no dispatch is needed.
  lemma AcquireStaysFirst(k: K, t: nat, m: nat)
    requires Inv(k) && !k.inint && k.run == Some(t) && m < |k.owner|
    ensures var r := Settle(Take(k, t, m), t); Dispatch(r) == r
  {
    var k1 := Take(k, t, m);
    var r := Settle(k1, t);
    ReprioritizeFields(k1, t, FullPri(k1, t), true);
    if Dspflg(k) && FullPri(k1, t) != k.pri[t] {
      assert TaskOk(k, t);
      assert Linked(k, Ready);
      var q, pri := Q(k, Ready), r.pri;
      assert ([m] + k.task[t].held)[1..] == k.task[t].held;
      assert pri[t] < k.pri[t];
      assert Q(r, Ready) == InsertFirst(pri, q[1..], t);
      assert q[1..] != [] ==> k.pri[t] <= At(k.pri, q[1]) && q[1] != t;
    }
  }

  lemma AcquireInv(k: K, m: nat)
    requires Inv(k) && !k.inint && k.run.Some? && m < |k.owner| && k.owner[m].None?
    requires CeilOf(k.cfg, m).Some? ==> CeilOf(k.cfg, m).value <= k.task[k.run.value].bpri
    ensures Inv(Settle(Take(k, k.run.value, m), k.run.value))
  {
    var t := k.run.value;
    var k1 := Take(k, t, m);
    AcquireCore(k, t, m);
    AcquireStaysFirst(k, t, m);
    SettleCalm(k1, t);
    CalmTrans(k, k1, Settle(k1, t), {});
    CalmInv(k, Settle(k1, t));
  }

  lemma ReleaseInv(k: K, t: nat, m: nat)
    requires Inv(k) && t < |k.task| && m < |k.owner| && k.owner[m] == Some(t)
    requires k.task[t].stat.Waiting? ==> Q(k, Lock(m)) == []
    ensures Inv(Dispatch(Release(k, t, m)))
  {
    ReleaseCore(k, t, m);
    ReleaseCalm(k, t, m);
    CalmInv(k, Release(k, t, m));
  }

  lemma {:induction false} NoCeiling(cfg: Config, bpri: nat, held: seq<nat>)
    requires !HoldsCeiling(cfg, held)
    ensures CalcPriority(cfg, bpri, held) == bpri
  {
    if held != [] {
      assert CeilOf(cfg, held[0]).None?;
      assert forall i :: 0 <= i < |held| - 1 ==> held[1..][i] == held[i + 1];
      NoCeiling(cfg, bpri, held[1..]);
    }
  }

  lemma HoldsCeilingSplit(cfg: Config, held: seq<nat>)
    requires held != []
    ensures HoldsCeiling(cfg, held) <==> CeilOf(cfg, held[0]).Some? || HoldsCeiling(cfg, held[1..])
  {
    var rest := held[1..];
    if HoldsCeiling(cfg, held) {
      var i :| 0 <= i < |held| && CeilOf(cfg, held[i]).Some?;
      if i > 0 { assert rest[i - 1] == held[i]; }
    }
    if HoldsCeiling(cfg, rest) {
      var i :| 0 <= i < |rest| && CeilOf(cfg, rest[i]).Some?;
      assert rest[i] == held[i + 1];
    }
  }

  // While a ceiling mutex is held, a permitted base priority does not show.
  lemma {:induction false} CeilingHidesBase(cfg: Config, b: nat, b': nat, held: seq<nat>)
    requires HoldsCeiling(cfg, held) && CeilingsAllow(cfg, b, held) && CeilingsAllow(cfg, b', held)
    ensures CalcPriority(cfg, b, held) == CalcPriority(cfg, b', held)
  {
    var rest := held[1..];
    assert forall i :: 0 <= i < |rest| ==> rest[i] == held[i + 1];
    HoldsCeilingSplit(cfg, held);
    if HoldsCeiling(cfg, rest) {
      CeilingHidesBase(cfg, b, b', rest);
    } else {
      NoCeiling(cfg, b, rest);
      NoCeiling(cfg, b', rest);
    }
  }

  lemma NewBaseCore(k: K, t: nat, b: nat)
    requires Core(k, {}) && t < |k.task| && b < TMAX_TPRI
    ensures Core(SetTask(k, t, k.task[t].(bpri := b)), {t})
  {
    Begin(k, t, {});
    FieldsCore(k, SetTask(k, t, k.task[t].(bpri := b)), t, {t});
  }

  // A base priority that does not show: a ceiling mutex is held.
  lemma HiddenBaseInv(k: K, t: nat, b: nat)
    requires Inv(k) && t < |k.task| && b < TMAX_TPRI && !k.task[t].stat.Dormant?
    requires CeilingsAllow(k.cfg, b, k.task[t].held) && CauseAllows(k.cfg, b, k.task[t].stat)
    requires HoldsCeiling(k.cfg, k.task[t].held)
    ensures Inv(SetTask(k, t, k.task[t].(bpri := b)))
  {
    var k1 := SetTask(k, t, k.task[t].(bpri := b));
    assert TaskOk(k, t);
    CeilingHidesBase(k.cfg, k.task[t].bpri, b, k.task[t].held);
    NewBaseCore(k, t, b);
    Finish(k1, t, {});
    CalmInv(k, k1);
    NoDispatch(k, k1);
  }

  lemma ShownBaseInv(k: K, t: nat, b: nat)
    requires Inv(k) && t < |k.task| && b < TMAX_TPRI && !k.task[t].stat.Dormant?
    requires CeilingsAllow(k.cfg, b, k.task[t].held) && CauseAllows(k.cfg, b, k.task[t].stat)
    requires !HoldsCeiling(k.cfg, k.task[t].held)
    ensures Inv(Dispatch(Reprioritize(SetTask(k, t, k.task[t].(bpri := b)), t, b, false)))
  {
    var k1 := SetTask(k, t, k.task[t].(bpri := b));
    var r := Reprioritize(k1, t, b, false);
    assert TaskOk(k, t);
    NoCeiling(k.cfg, b, k.task[t].held);
    NewBaseCore(k, t, b);
    ReprioritizeCore(k1, t, b, false, {t});
    ReprioritizeFields(k1, t, b, false);
    Finish(r, t, {});
    CalmInv(k, r);
  }

  lemma ChangeBaseInv(k: K, t: nat, b: nat)
    requires Inv(k) && t < |k.task| && b < TMAX_TPRI
    ensures Inv(ChangeBase(k, t, b).k)
  {
    var x := k.task[t];
    if !x.stat.Dormant? && CeilingsAllow(k.cfg, b, x.held) && CauseAllows(k.cfg, b, x.stat) {
      if HoldsCeiling(k.cfg, x.held) { HiddenBaseInv(k, t, b); } else { ShownBaseInv(k, t, b); }
    }
  }

  // Out of the precedence order and back in behind the equals.
  lemma RequeueInv(k: K, t: nat)
    requires Inv(k) && t < |k.task| && k.task[t].stat.Runnable?
    ensures Inv(Dispatch(Move(k, t, Runnable, k.pri[t], false)))
  {
    var r := Move(k, t, Runnable, k.pri[t], false);
    assert TaskOk(k, t);
    Begin(k, t, {});
    MoveCore(k, t, Runnable, k.pri[t], false, {t});
    MoveFields(k, t, Runnable, k.pri[t], false);
    Finish(r, t, {});
    CalmInv(k, r);
  }

  lemma RotateInv(k: K, p: nat)
    requires Inv(k)
    ensures Inv(Dispatch(Rotate(k, p)))
  {
    var q := Q(k, Ready);
    var above: int := p;
    var n := Slot(k.pri, q, above - 1);
    if n < |q| && q[n] < |k.task| && At(k.pri, q[n]) == p {
      assert Linked(k, Ready);
      assert q[n] in q;
      RequeueInv(k, q[n]);
    } else {
      CalmInv(k, k);
    }
  }

  // ---- re-initialising an object releases every waiter ----

  lemma AwakeHead(k: K, pl: Place, er: Er)
    requires Core(k, {}) && pl != Ready && Q(k, pl) != []
    ensures var t := Q(k, pl)[0]; t < |k.task| && k.task[t].stat.Waiting? && Q(Awake(k, t, er), pl) == Q(k, pl)[1..]
  {
    var t := Q(k, pl)[0];
    assert Linked(k, pl);
    assert t in Q(k, pl);
    var k1 := SetTask(k, t, k.task[t].(winfo := Wercd(er))).(tmev := k.tmev - {t});
    MoveQueue(k1, t, AfterWait(k.task[t].stat), k.pri[t], false, pl);
  }

  lemma {:induction false} AwakeAllEmpties(k: K, pl: Place, er: Er)
    requires Core(k, {}) && pl != Ready
    ensures var r := AwakeAll(k, Q(k, pl), er); Q(r, pl) == [] && r.owner == k.owner
    decreases |Q(k, pl)|
  {
    if Q(k, pl) != [] {
      var t := Q(k, pl)[0];
      AwakeHead(k, pl, er);
      AwakeCore(k, t, er, {});
      AwakeAllEmpties(Awake(k, t, er), pl, er);
    }
  }

  lemma AwakeAllInv(k: K, ts: seq<nat>, er: Er)
    requires Inv(k)
    ensures Inv(Dispatch(AwakeAll(k, ts, er)))
  {
    AwakeAllCore(k, ts, er);
    AwakeAllCalm(k, ts, er);
    CalmInv(k, AwakeAll(k, ts, er));
  }

  lemma ReinitInv(k: K, m: nat)
    requires Inv(k) && m < |k.owner|
    ensures Inv(Dispatch(Reinit(k, m)))
  {
    var ts := Q(k, Lock(m));
    var k1 := AwakeAll(k, ts, E_DLT);
    AwakeAllCore(k, ts, E_DLT);
    AwakeAllCalm(k, ts, E_DLT);
    AwakeAllEmpties(k, Lock(m), E_DLT);
    if k1.owner[m].Some? {
      var t := k1.owner[m].value;
      ReleaseCore(k1, t, m);
      ReleaseCalm(k1, t, m);
      CalmTrans(k, k1, Release(k1, t, m), {});
      CalmInv(k, Release(k1, t, m));
    } else {
      CalmInv(k, k1);
    }
  }

  // A re-initialised mutex is free and nobody waits for it.
  lemma ReinitFrees(k: K, m: nat)
    requires Inv(k) && m < |k.owner|
    ensures var r := Reinit(k, m); Q(r, Lock(m)) == [] && r.owner[m].None?
  {
    var ts := Q(k, Lock(m));
    AwakeAllCore(k, ts, E_DLT);
    AwakeAllEmpties(k, Lock(m), E_DLT);
    var k1 := AwakeAll(k, ts, E_DLT);
    if k1.owner[m].Some? { DropCore(k1, k1.owner[m].value, m); }
  }

  // ---- dispatching switched off and on ----

  lemma SwitchedOff(k: K, r: K)
    requires Inv(k) && !k.inint && k.run.Some?
    requires r == k.(enadsp := r.enadsp, ipmAll := r.ipmAll) && !Dspflg(r)
    ensures Inv(r)
  {
    CoreSame(k, r);
    assert Dispatch(r) == r;
    DispatchKeeps(r);
  }

  // Dispatching is possible again and the caller is terminated, on a pending request or by ext_tsk.
  lemma SwitchedOnEnds(k: K, r: K, t: nat)
    requires Inv(k) && !k.inint && k.run == Some(t)
    requires r == k.(enadsp := r.enadsp, ipmAll := r.ipmAll) && Dspflg(r)
    ensures Inv(Dispatch(Terminate(r, t)))
  {
    CoreSame(k, r);
    TerminateCore(r, t);
    TerminateCalm(r, t);
    var e := Terminate(r, t);
    forall u: nat | u < |e.task| && e.task[u].raster
      ensures e.task[u].stat.Runnable? && (e.task[u].enater ==> !Dspflg(e) && e.run == Some(u))
    {
      assert u != t && k.task[u].raster;
    }
    DispatchKeeps(e);
  }

  lemma SwitchedOn(k: K, r: K, t: nat)
    requires Inv(k) && !k.inint && k.run == Some(t)
    requires r == k.(enadsp := r.enadsp, ipmAll := r.ipmAll) && Dspflg(r)
    ensures Inv(Reenabled(r).k)
  {
    if k.task[t].raster && k.task[t].enater {
      SwitchedOnEnds(k, r, t);
    } else {
      CoreSame(k, r);
      DispatchKeeps(r);
    }
  }

  lemma InterruptInv(k: K, inint: bool)
    requires Inv(k)
    ensures Inv(if inint then k.(inint := true) else Dispatch(k.(inint := false)))
  {
    var r := k.(inint := inint);
    CoreSame(k, r);
    DispatchKeeps(r);
  }

  // ---- the step theorem ----

  lemma ActTskInv(k: K, t: nat)
    requires Inv(k)
    ensures Inv(AfterActTsk(k, t).k)
  {
    if t < |k.task| {
      if k.task[t].stat.Dormant? { ActiveInv(k, t); }
      else { FlagsInv(k, t, k.task[t].(actque := true)); }
    }
  }

  lemma ChgPriInv(k: K, t: nat, p: nat)
    requires Inv(k)
    ensures Inv(AfterChgPri(k, t, p).k)
  {
    hide ChangeBase;
    if t < |k.task| {
      if p == TPRI_INI { ChangeBaseInv(k, t, k.cfg.ipri[t]); }
      else if TMIN_TPRI <= p <= TMAX_TPRI { ChangeBaseInv(k, t, p - TMIN_TPRI); }
    }
  }

  lemma TerTskInv(k: K, t: nat)
    requires Inv(k)
    ensures Inv(AfterTerTsk(k, t).k)
  {
    if t < |k.task| && k.run != Some(t) { TerminateInv(k, t); }
  }

  lemma RasTerInv(k: K, t: nat)
    requires Inv(k)
    ensures Inv(AfterRasTer(k, t).k)
  {
    if t < |k.task| && k.run != Some(t) && !k.task[t].stat.Dormant? {
      if k.task[t].enater { TerminateInv(k, t); } else { RequestInv(k, t); }
    }
  }

  lemma RotRdqInv(k: K, p: nat)
    requires Inv(k) && (k.inint || k.run.Some?)
    ensures Inv(AfterRotRdq(k, p).k)
  {
    hide Rotate;
    if p == TPRI_SELF && !k.inint { RotateInv(k, k.task[k.run.value].bpri); }
    else if TMIN_TPRI <= p <= TMAX_TPRI { RotateInv(k, p - TMIN_TPRI); }
  }

  lemma WupTskInv(k: K, t: nat)
    requires Inv(k)
    ensures Inv(AfterWupTsk(k, t).k)
  {
    if t < |k.task| && !k.task[t].stat.Dormant? {
      if k.task[t].stat.Waiting? { AwakeInv(k, t, E_OK); }
      FlagsInv(k, t, k.task[t].(wupque := true));
    }
  }

  lemma SusTskInv(k: K, t: nat)
    requires Inv(k)
    ensures Inv(AfterSusTsk(k, t).k)
  {
    if !k.inint && t < |k.task| && !k.task[t].raster && !(k.run == Some(t) && !Dspflg(k)) {
      if k.task[t].stat.Runnable? { SuspendInv(k, t); }
      else if k.task[t].stat.Waiting? { DoubleWaitInv(k, t, true); }
    }
  }

  lemma RsmTskInv(k: K, t: nat)
    requires Inv(k)
    ensures Inv(AfterRsmTsk(k, t).k)
  {
    if t < |k.task| {
      if k.task[t].stat.Suspended? { ActiveInv(k, t); }
      else if k.task[t].stat.Waiting? { DoubleWaitInv(k, t, false); }
    }
  }

  // rel_wai and a completed object wait.
  lemma ReleasedInv(k: K, t: nat, o: nat)
    requires Inv(k)
    ensures Inv(AfterRelWai(k, t).k) && Inv(AfterWakeWaiter(k, o, t).k)
  {
    if t < |k.task| && k.task[t].stat.Waiting? {
      AwakeInv(k, t, E_RLWAI);
      AwakeInv(k, t, E_OK);
    }
  }

  lemma TimeoutInv(k: K, t: nat)
    requires Inv(k) && k.inint
    ensures Inv(TimeoutEvent(k, t))
  {
    if t < |k.task| && k.task[t].stat.Waiting? {
      AwakeInv(k, t, if k.task[t].stat.cause.Delay? then E_OK else E_TMOUT);
    }
  }

  lemma LockInv(k: K, m: nat, blocked: Res)
    requires Inv(k) && k.run.Some? && m < |k.owner| && !k.inint
    requires k.owner[m].Some? && k.owner[m] != k.run && CauseAllows(k.cfg, k.task[k.run.value].bpri, Waiting(OnMutex(m), false)) ==> Inv(blocked.k)
    ensures Inv(LockOrElse(k, m, blocked).k)
  {
    if k.owner[m].None? && CauseAllows(k.cfg, k.task[k.run.value].bpri, Waiting(OnMutex(m), false)) { AcquireInv(k, m); }
  }

  lemma LocMtxInv(k: K, m: nat, tmo: Tmo)
    requires Inv(k) && k.run.Some?
    ensures Inv(AfterLocMtx(k, m, tmo).k)
  {
    var t := k.run.value;
    if !k.inint && Dspflg(k) && m < |k.owner| && !k.task[t].raster {
      if k.owner[m].Some? && k.owner[m] != Some(t) && CauseAllows(k.cfg, k.task[t].bpri, Waiting(OnMutex(m), false)) { BlockInv(k, OnMutex(m), tmo.Timed?); }
      LockInv(k, m, if tmo.Poll? then Ret(E_TMOUT, k) else Block(k, OnMutex(m), tmo.Timed?));
    }
  }

  lemma PlocMtxInv(k: K, m: nat)
    requires Inv(k) && k.run.Some?
    ensures Inv(AfterPlocMtx(k, m).k)
  {
    if !k.inint && m < |k.owner| { LockInv(k, m, Ret(E_TMOUT, k)); }
  }

  lemma UnlMtxInv(k: K, m: nat)
    requires Inv(k) && k.run.Some?
    ensures Inv(AfterUnlMtx(k, m).k)
  {
    var t := k.run.value;
    if m < |k.owner| && k.task[t].held != [] && k.task[t].held[0] == m {
      assert TaskOk(k, t);
      assert m in k.task[t].held;
      ReleaseInv(k, t, m);
    }
  }

  lemma SlpTskInv(k: K, tmo: Tmo)
    requires Inv(k) && k.run.Some?
    ensures Inv(AfterSlpTsk(k, tmo).k)
  {
    var t := k.run.value;
    if !k.inint && Dspflg(k) && !k.task[t].raster {
      FlagsInv(k, t, k.task[t].(wupque := false));
      BlockInv(k, Sleep, tmo.Timed?);
    }
  }

  lemma WaitInv(k: K, o: nat, tmo: Tmo)
    requires Inv(k) && k.run.Some?
    ensures Inv(AfterDlyTsk(k).k) && Inv(AfterWaitObject(k, o, tmo).k)
  {
    if !k.inint && Dspflg(k) && !k.task[k.run.value].raster {
      BlockInv(k, Delay, true);
      BlockInv(k, OnObject(o), tmo.Timed?);
    }
  }

  lemma TerminationFlagsInv(k: K)
    requires Inv(k) && k.run.Some?
    ensures Inv(AfterDisTer(k).k) && Inv(AfterEnaTer(k).k)
  {
    var t := k.run.value;
    if !k.inint {
      FlagsInv(k, t, k.task[t].(enater := false));
      if k.task[t].raster && Dspflg(k) { TerminateInv(k, t); }
      else { FlagsInv(k, t, k.task[t].(enater := true)); }
    }
  }

  lemma DispatchingInv(k: K, enaall: bool)
    requires Inv(k) && k.run.Some?
    ensures Inv(AfterExtTsk(k).k) && Inv(AfterEnaDsp(k).k) && Inv(AfterChgIpm(k, enaall).k)
  {
    var t := k.run.value;
    if !k.inint {
      SwitchedOnEnds(k, k.(enadsp := true, ipmAll := true), t);
      if k.ipmAll { SwitchedOn(k, k.(enadsp := true), t); } else { SwitchedOff(k, k.(enadsp := true)); }
      if enaall && k.enadsp { SwitchedOn(k, k.(ipmAll := true), t); } else { SwitchedOff(k, k.(ipmAll := enaall)); }
    }
  }

  lemma TaskStepInv(k: K, c: Call)
    requires Inv(k) && k.run.Some?
    ensures Inv(TaskStep(k, c).k)
  {
    hide Inv, AfterSlpTsk, AfterLocMtx, AfterPlocMtx, AfterUnlMtx, AfterDlyTsk, AfterWaitObject, AfterDisTer, AfterEnaTer, AfterChgIpm, AfterExtTsk, AfterEnaDsp;
    match c
    case SlpTsk(tmo) => SlpTskInv(k, tmo);
    case LocMtx(m, tmo) => LocMtxInv(k, m, tmo);
    case PlocMtx(m) => PlocMtxInv(k, m);
    case UnlMtx(m) => UnlMtxInv(k, m);
    case DlyTsk => WaitInv(k, 0, Poll);
    case WaitObject(o, tmo) => WaitInv(k, o, tmo);
    case DisTer => TerminationFlagsInv(k);
    case EnaTer => TerminationFlagsInv(k);
    case ChgIpm(enaall) => DispatchingInv(k, enaall);
    case ExtTsk => DispatchingInv(k, true);
    case EnaDsp => DispatchingInv(k, true);
    case _ =>
  }

  lemma InitInv(k: K, o: nat, m: nat)
    requires Inv(k)
    ensures Inv(AfterInitObject(k, o).k) && Inv(AfterIniMtx(k, m).k)
  {
    AwakeAllInv(k, Q(k, Object(o)), E_DLT);
    if m < |k.owner| { ReinitInv(k, m); }
  }

  lemma DisDspInv(k: K)
    requires Inv(k) && (k.inint || k.run.Some?)
    ensures Inv(AfterDisDsp(k).k)
  {
    if !k.inint { SwitchedOff(k, k.(enadsp := false)); }
  }

  // Every service call and every interrupt event keeps the invariant.
  lemma StepInv(k: K, c: Call)
    requires Inv(k) && Enabled(k, c)
    ensures Inv(Step(k, c).k)
  {
    hide Inv, TaskStep, AfterActTsk, AfterChgPri, AfterTerTsk, AfterRasTer, AfterRotRdq, AfterWupTsk, AfterSusTsk, AfterRsmTsk,
      AfterRelWai, AfterWakeWaiter, TimeoutEvent, AfterInitObject, AfterIniMtx, AfterDisDsp;
    match c
    case ActTsk(t) => ActTskInv(k, t);
    case ChgPri(t, p) => ChgPriInv(k, t, p);
    case TerTsk(t) => TerTskInv(k, t);
    case RasTer(t) => RasTerInv(k, t);
    case RotRdq(p) => RotRdqInv(k, p);
    case WupTsk(t) => WupTskInv(k, t);
    case SusTsk(t) => SusTskInv(k, t);
    case RsmTsk(t) => RsmTskInv(k, t);
    case RelWai(t) => ReleasedInv(k, t, 0);
    case WakeWaiter(o, t) => ReleasedInv(k, t, o);
    case Timeout(t) => TimeoutInv(k, t);
    case InitObject(o) => InitInv(k, o, 0);
    case IniMtx(m) => InitInv(k, 0, m);
    case DisDsp => DisDspInv(k);
    case EnterInterrupt => InterruptInv(k, true);
    case ExitInterrupt => InterruptInv(k, false);
    case _ => if k.run.Some? { TaskStepInv(k, c); }
  }

  // ---- whole runs ----

  // The state the kernel is started in, before its start-up activations and the first dispatch.
  function Initial(cfg: Config): K {
    K(cfg,
      seq(|cfg.ipri|, i => Task(Dormant, if 0 <= i < |cfg.ipri| then cfg.ipri[i] else 0, [], Wercd(E_OK), false, false, false, true)),
      cfg.ipri, map[Ready := []], seq(|cfg.ceil|, _ => None), {}, None, true, true, true)
  }

  // The state after a run; None if some event of it cannot happen.
  function Exec(k: K, calls: seq<Call>): Option<K>
    decreases |calls|
  {
    if calls == [] then Some(k)
    else if Shaped(k) && Enabled(k, calls[0]) then Exec(Step(k, calls[0]).k, calls[1..])
    else None
  }

  lemma InitialInv(cfg: Config)
    requires ConfigOk(cfg) && |cfg.noactque| == |cfg.ipri|
    ensures Inv(Initial(cfg))
  {
    var k := Initial(cfg);
    forall pl ensures Linked(k, pl) {}
    forall t: nat | t < |k.task| ensures TaskOk(k, t) {}
  }

  lemma {:induction false} RunInv(k: K, calls: seq<Call>)
    requires Inv(k)
    ensures Exec(k, calls).Some? ==> Inv(Exec(k, calls).value)
    decreases |calls|
  {
    if calls != [] && Enabled(k, calls[0]) {
      StepInv(k, calls[0]);
      RunInv(Step(k, calls[0]).k, calls[1..]);
    }
  }

  // In every reachable state outside an interrupt handler, with dispatching possible, the
  // running task is one of highest current priority, and nothing runs only if nothing can.
  lemma RunsHighest(cfg: Config, calls: seq<Call>, k: K, u: nat)
    requires ConfigOk(cfg) && |cfg.noactque| == |cfg.ipri| && Exec(Initial(cfg), calls) == Some(k)
    requires !k.inint && Dspflg(k) && u < |k.task| && u < |k.pri| && k.task[u].stat.Runnable?
    ensures k.run.Some? && At(k.pri, k.run.value) <= k.pri[u]
  {
    InitialInv(cfg);
    RunInv(Initial(cfg), calls);
    assert Linked(k, Ready);
    assert u in Q(k, Ready);
  }

  // The states a kernel configured by cfg gets into.
  ghost predicate Reachable(cfg: Config, k: K) {
    ConfigOk(cfg) && |cfg.noactque| == |cfg.ipri| && exists calls :: Exec(Initial(cfg), calls) == Some(k)
  }

  lemma ReachableInv(cfg: Config, k: K)
    requires Reachable(cfg, k)
    ensures Inv(k)
  {
    var calls :| Exec(Initial(cfg), calls) == Some(k);
    InitialInv(cfg);
    RunInv(Initial(cfg), calls);
  }

  // A task's link is in exactly the ring its state demands, once, and in no other; its timeout
  // block is registered exactly if it waits with one.
  lemma LinkMatchesState(cfg: Config, k: K, t: nat, pl: Place)
    requires Reachable(cfg, k) && t < |k.task|
    ensures t in Q(k, pl) <==> PlaceOf(k.task[t].stat) == Some(pl)
    ensures multiset(Q(k, pl))[t] == if PlaceOf(k.task[t].stat) == Some(pl) then 1 else 0
    ensures t in k.tmev <==> k.task[t].stat.Waiting? && k.task[t].winfo == Tmevtb(true)
  {
    ReachableInv(cfg, k);
    assert Linked(k, pl);
    assert TaskOk(k, t);
    OnceEach(Q(k, pl), t);
  }

  lemma {:induction false} OnceEach(q: seq<nat>, t: nat)
    requires Distinct(q)
    ensures multiset(q)[t] == if t in q then 1 else 0
  {
    if q != [] {
      assert q == [q[0]] + q[1..];
      OnceEach(q[1..], t);
    }
  }

  // The current priority is the base priority raised to the highest ceiling held, and the base
  // priority is not above any ceiling held or waited for.
  lemma PriorityIsRaised(cfg: Config, k: K, t: nat)
    requires Reachable(cfg, k) && t < |k.task| == |k.pri| && !k.task[t].stat.Dormant?
    ensures forall m :: m in k.task[t].held && CeilOf(k.cfg, m).Some? ==> k.pri[t] <= CeilOf(k.cfg, m).value <= k.task[t].bpri
    ensures k.pri[t] <= k.task[t].bpri
    ensures k.pri[t] == k.task[t].bpri || exists m :: m in k.task[t].held && CeilOf(k.cfg, m) == Some(k.pri[t])
    ensures CauseAllows(k.cfg, k.task[t].bpri, k.task[t].stat)
  {
    ReachableInv(cfg, k);
    assert TaskOk(k, t);
    CalcIsHighest(k.cfg, k.task[t].bpri, k.task[t].held);
  }

  lemma {:induction false} CalcIsHighest(cfg: Config, bpri: nat, held: seq<nat>)
    ensures var p := CalcPriority(cfg, bpri, held);
            && p <= bpri && (forall m :: m in held && CeilOf(cfg, m).Some? ==> p <= CeilOf(cfg, m).value)
            && (p == bpri || exists m :: m in held && CeilOf(cfg, m) == Some(p))
  {
    if held != [] {
      CalcIsHighest(cfg, bpri, held[1..]);
      assert held == [held[0]] + held[1..];
      assert held[0] in held;
    }
  }

  lemma WaitedForIsOwned(k: K, m: nat)
    requires Inv(k) && m < |k.owner|
    ensures Q(k, Lock(m)) != [] ==> k.owner[m].Some?
  {
    assert Linked(k, Lock(m));
    if Q(k, Lock(m)) != [] {
      var u := Q(k, Lock(m))[0];
      assert u in Q(k, Lock(m));
      assert TaskOk(k, u);
      assert WaitsForMutex(k.task[u].stat, m);
    }
  }

  // A mutex is on the chain of exactly one task, its owner, or of none; nobody waits for a free one.
  lemma ChainsMatchOwners(cfg: Config, k: K, m: nat)
    requires Reachable(cfg, k) && m < |k.owner|
    ensures forall t :: 0 <= t < |k.task| ==> multiset(k.task[t].held)[m] == if k.owner[m] == Some(t) then 1 else 0
    ensures k.owner[m].None? ==> Q(k, Lock(m)) == []
    ensures k.owner[m].Some? ==> k.owner[m].value < |k.task| && !k.task[k.owner[m].value].stat.Dormant? && k.owner[m].value !in Q(k, Lock(m))
  {
    ReachableInv(cfg, k);
    forall t | 0 <= t < |k.task| ensures multiset(k.task[t].held)[m] == if k.owner[m] == Some(t) then 1 else 0 {
      assert TaskOk(k, t);
      OnceEach(k.task[t].held, m);
    }
    WaitedForIsOwned(k, m);
    if k.owner[m].Some? {
      assert Linked(k, Lock(m));
      assert TaskOk(k, k.owner[m].value) && m in k.task[k.owner[m].value].held;
    }
  }

  // Queues in priority order are sorted by the priorities the waiting tasks have now.
  lemma WaitersSorted(cfg: Config, k: K, pl: Place, i: nat, j: nat)
    requires Reachable(cfg, k) && ByPriority(k.cfg, pl) && i < j < |Q(k, pl)|
    ensures At(k.pri, Q(k, pl)[i]) <= At(k.pri, Q(k, pl)[j])
  {
    ReachableInv(cfg, k);
    assert Linked(k, pl);
  }

  // A task whose termination is requested is runnable, and while dispatching is possible it has
  // termination disabled.
  lemma RequestsArePending(cfg: Config, k: K, t: nat)
    requires Reachable(cfg, k) && t < |k.task| && k.task[t].raster
    ensures k.task[t].stat.Runnable? && (Dspflg(k) ==> !k.task[t].enater)
  {
    ReachableInv(cfg, k);
  }
}
