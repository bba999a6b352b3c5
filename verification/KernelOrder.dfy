/** Arrival order in wait queues: no call changes the order of two tasks waiting in the same queue
    unless it changes the priority of one of them. */
module WaitOrder {
  import opened Options
  import opened PriorityLists
  import opened KernelState
  import opened KernelCalls
  import opened KernelInvariant
  import opened KernelSafety
  import opened KernelSteps

  ghost predicate Precedes(q: seq<nat>, x: nat, y: nat) {
    exists i, j :: 0 <= i < j < |q| && q[i] == x && q[j] == y
  }

  lemma {:induction false} WithoutOrder(q: seq<nat>, t: nat, x: nat, y: nat)
    requires Precedes(q, x, y) && x != t && y != t
    ensures Precedes(Without(q, t), x, y)
  {
    var i, j :| 0 <= i < j < |q| && q[i] == x && q[j] == y;
    WithoutAt(q, t, i, j);
  }

  // Entries at i and j other than t are still in this order.
  lemma {:induction false} WithoutAt(q: seq<nat>, t: nat, i: nat, j: nat)
    requires i < j < |q| && q[i] != t && q[j] != t
    ensures Precedes(Without(q, t), q[i], q[j])
  {
    var r := Without(q, t);
    if q[0] == t {
      assert r[i - 1] == q[i] && r[j - 1] == q[j];
    } else if i == 0 {
      WithoutHas(q[1..], t, q[j]);
      var k :| 0 <= k < |Without(q[1..], t)| && Without(q[1..], t)[k] == q[j];
      assert r[0] == q[0] && r[k + 1] == q[j];
    } else {
      WithoutAt(q[1..], t, i - 1, j - 1);
      var a, b :| 0 <= a < b < |Without(q[1..], t)| && Without(q[1..], t)[a] == q[i] && Without(q[1..], t)[b] == q[j];
      assert r[a + 1] == q[i] && r[b + 1] == q[j];
    }
  }

  lemma {:induction false} WithoutHas(q: seq<nat>, t: nat, x: nat)
    requires x in q && x != t
    ensures x in Without(q, t)
  {
    if q[0] != t && q[0] != x { WithoutHas(q[1..], t, x); }
  }

  lemma InsertOrder(q: seq<nat>, n: nat, t: nat, x: nat, y: nat)
    requires Precedes(q, x, y) && n <= |q|
    ensures Precedes(Insert(q, n, t), x, y)
  {
    var i, j :| 0 <= i < j < |q| && q[i] == x && q[j] == y;
    var r := Insert(q, n, t);
    var a, b := if i < n then i else i + 1, if j < n then j else j + 1;
    assert r[a] == x && r[b] == y;
  }

  // Who waits at the end waited before, and in the same order, but for the tasks of es.
  ghost predicate Stable(k: K, r: K, es: set<nat>) {
    forall pl: Place, x: nat, y: nat :: pl != Ready && x !in es && y !in es && x in Q(r, pl) && y in Q(r, pl) ==>
      x in Q(k, pl) && y in Q(k, pl) && (Precedes(Q(k, pl), x, y) ==> Precedes(Q(r, pl), x, y))
  }

  lemma StableTrans(k: K, r: K, s: K, es: set<nat>)
    requires Stable(k, r, es) && Stable(r, s, es)
    ensures Stable(k, s, es)
  {
  }

  lemma StableSame(k: K, r: K, es: set<nat>)
    requires r.queue == k.queue
    ensures Stable(k, r, es)
  {
    forall pl ensures Q(r, pl) == Q(k, pl) {}
  }

  lemma StableMore(k: K, r: K, es: set<nat>, fs: set<nat>)
    requires Stable(k, r, es) && es <= fs
    ensures Stable(k, r, fs)
  {
  }

  // The one task that a move puts elsewhere.
  lemma MoveOrder(k: K, t: nat, s: Stat, p: nat, front: bool, pl: Place, x: nat, y: nat)
    requires t < |k.task| == |k.pri| && QueuesOk(k) && pl != Ready && x != t && y != t
    requires var r := Move(k, t, s, p, front); x in Q(r, pl) && y in Q(r, pl)
    ensures x in Q(k, pl) && y in Q(k, pl) && (Precedes(Q(k, pl), x, y) ==> Precedes(Q(Move(k, t, s, p, front), pl), x, y))
  {
    var r, pri := Move(k, t, s, p, front), k.pri[t := p];
    var q := Q(k.(queue := Leave(k, t)), pl);
    MoveQueue(k, t, s, p, front, pl);
    assert Linked(k, pl);
    LeaveLinked(k, t, pri, pl);
    if PlaceOf(s) == Some(pl) { EnqueueLinked(k.cfg, pri, q, pl, t, front); }
    if Precedes(Q(k, pl), x, y) {
      if PlaceOf(k.task[t].stat) == Some(pl) { WithoutOrder(Q(k, pl), t, x, y); }
      assert Precedes(q, x, y);
      if PlaceOf(s) == Some(pl) { EnqueueOrder(k.cfg, pri, q, pl, t, front, x, y); }
    }
  }

  lemma EnqueueOrder(cfg: Config, pri: seq<nat>, q: seq<nat>, pl: Place, t: nat, front: bool, x: nat, y: nat)
    requires Precedes(q, x, y)
    ensures Precedes(Enqueue(cfg, pri, q, pl, t, front), x, y)
  {
    InsertOrder(q, Slot(pri, q, At(pri, t) - 1), t, x, y);
    InsertOrder(q, Slot(pri, q, At(pri, t)), t, x, y);
    InsertOrder(q, |q|, t, x, y);
    assert Insert(q, |q|, t) == q + [t];
  }

  lemma MoveStable(k: K, t: nat, s: Stat, p: nat, front: bool)
    requires t < |k.task| == |k.pri| && QueuesOk(k)
    ensures Stable(k, Move(k, t, s, p, front), {t})
    ensures PlaceOf(s).None? || PlaceOf(s) == Some(Ready) ==> Stable(k, Move(k, t, s, p, front), {})
  {
    hide Move, Precedes, Q;
    var r := Move(k, t, s, p, front);
    forall pl: Place, x: nat, y: nat | pl != Ready && x != t && y != t && x in Q(r, pl) && y in Q(r, pl)
      ensures x in Q(k, pl) && y in Q(k, pl) && (Precedes(Q(k, pl), x, y) ==> Precedes(Q(r, pl), x, y))
    {
      MoveOrder(k, t, s, p, front, pl, x, y);
    }
    if PlaceOf(s).None? || PlaceOf(s) == Some(Ready) {
      MoveQueues(k, t, s, p, front);
      MoveFields(k, t, s, p, front);
      forall pl: Place | pl != Ready ensures t !in Q(r, pl) { assert Linked(r, pl); }
    }
  }

  // A move after a change of fields that no queue depends on.
  lemma FieldsMoveStable(k: K, k1: K, t: nat, s: Stat, p: nat)
    requires t < |k.task| == |k.pri| && QueuesOk(k) && k1.queue == k.queue && k1.cfg == k.cfg && k1.pri == k.pri && |k1.task| == |k.task|
    requires forall u :: 0 <= u < |k.task| ==> PlaceOf(k1.task[u].stat) == PlaceOf(k.task[u].stat)
    ensures Stable(k, Move(k1, t, s, p, false), {t})
    ensures PlaceOf(s).None? || PlaceOf(s) == Some(Ready) ==> Stable(k, Move(k1, t, s, p, false), {})
    ensures QueuesOk(Move(k1, t, s, p, false))
  {
    SameQueues(k, k1);
    MoveQueues(k1, t, s, p, false);
    MoveStable(k1, t, s, p, false);
    StableSame(k, k1, {});
    StableSame(k, k1, {t});
    hide Stable, Move, QueuesOk;
    StableTrans(k, k1, Move(k1, t, s, p, false), {t});
    if PlaceOf(s).None? || PlaceOf(s) == Some(Ready) { StableTrans(k, k1, Move(k1, t, s, p, false), {}); }
  }

  lemma AwakeStable(k: K, t: nat, er: Er)
    requires t < |k.task| == |k.pri| && QueuesOk(k) && k.task[t].stat.Waiting?
    ensures Stable(k, Awake(k, t, er), {}) && QueuesOk(Awake(k, t, er))
  {
    hide Stable, QueuesOk, Move;
    FieldsMoveStable(k, SetTask(k, t, k.task[t].(winfo := Wercd(er))).(tmev := k.tmev - {t}), t, AfterWait(k.task[t].stat), k.pri[t]);
  }

  lemma {:induction false} AwakeAllStable(k: K, ts: seq<nat>, er: Er)
    requires |k.task| == |k.pri| && QueuesOk(k)
    ensures Stable(k, AwakeAll(k, ts, er), {}) && QueuesOk(AwakeAll(k, ts, er))
    decreases |ts|
  {
    hide QueuesOk, Awake, Precedes;
    if ts != [] {
      if ts[0] < |k.task| && k.task[ts[0]].stat.Waiting? {
        AwakeStable(k, ts[0], er);
        AwakeLengths(k, ts[0], er);
        AwakeAllStable(Awake(k, ts[0], er), ts[1..], er);
        StableTrans(k, Awake(k, ts[0], er), AwakeAll(k, ts, er), {});
      } else {
        AwakeAllStable(k, ts[1..], er);
      }
    }
  }

  lemma AwakeLengths(k: K, t: nat, er: Er)
    requires t < |k.task| == |k.pri| && k.task[t].stat.Waiting?
    ensures |Awake(k, t, er).task| == |Awake(k, t, er).pri| == |k.task|
  {
  }

  lemma BeginWaitStable(k: K, t: nat, c: Cause, timed: bool)
    requires t < |k.task| == |k.pri| && QueuesOk(k)
    ensures Stable(k, BeginWait(k, t, c, timed), {t})
  {
    hide Stable, QueuesOk, Move;
    var k1 := SetTask(k, t, k.task[t].(winfo := Tmevtb(timed))).(tmev := if timed then k.tmev + {t} else k.tmev);
    FieldsMoveStable(k, k1, t, Waiting(c, false), k.pri[t]);
  }

  lemma ReprioritizeStable(k: K, t: nat, p: nat, front: bool)
    requires t < |k.task| == |k.pri| && QueuesOk(k)
    ensures Stable(k, Reprioritize(k, t, p, front), {t}) && QueuesOk(Reprioritize(k, t, p, front))
  {
    ReprioritizeQueues(k, t, p, front);
    var ring := PlaceOf(k.task[t].stat);
    if ring.Some? && ByPriority(k.cfg, ring.value) {
      MoveStable(k, t, k.task[t].stat, p, front && ring.value == Ready);
    } else {
      StableSame(k, Reprioritize(k, t, p, front), {t});
    }
  }

  lemma SettleStable(k: K, t: nat)
    requires t < |k.task| == |k.pri| && QueuesOk(k)
    ensures Stable(k, Settle(k, t), {t}) && QueuesOk(Settle(k, t))
  {
    hide Stable, QueuesOk, Reprioritize;
    StableSame(k, k, {t});
    ReprioritizeStable(k, t, FullPri(k, t), true);
  }

  lemma HandOverStable(k: K, m: nat)
    requires |k.task| == |k.pri| && m < |k.owner| && QueuesOk(k)
    ensures Stable(k, HandOver(k, m), {}) && QueuesOk(HandOver(k, m))
  {
    hide Stable, Move;
    var q := Q(k, Lock(m));
    if q == [] || !(q[0] < |k.task| && k.task[q[0]].stat.Waiting?) {
      StableSame(k, HandOver(k, m), {});
      SameQueues(k, HandOver(k, m));
    } else {
      var t := q[0];
      var k1 := Take(SetTask(k, t, k.task[t].(winfo := Wercd(E_OK))).(tmev := k.tmev - {t}), t, m);
      FieldsMoveStable(k, k1, t, AfterWait(k.task[t].stat), FullPri(k1, t));
    }
  }

  lemma UntakeStable(k: K, t: nat, m: nat)
    requires t < |k.task| == |k.pri| && QueuesOk(k)
    ensures Stable(k, Untake(k, t, m), {t}) && QueuesOk(Untake(k, t, m))
  {
    StableSame(k, Untake(k, t, m), {t});
    SameQueues(k, Untake(k, t, m));
  }

  lemma ReleaseStable(k: K, t: nat, m: nat)
    requires t < |k.task| == |k.pri| && m < |k.owner| && QueuesOk(k)
    ensures Stable(k, Release(k, t, m), {t})
  {
    hide Stable, QueuesOk, Settle, HandOver;
    var k1, k2 := Untake(k, t, m), Settle(Untake(k, t, m), t);
    UntakeStable(k, t, m);
    SettleStable(k1, t);
    HandOverStable(k2, m);
    StableMore(k2, Release(k, t, m), {}, {t});
    StableTrans(k, k1, k2, {t});
    StableTrans(k, k2, Release(k, t, m), {t});
  }

  lemma {:induction false} ReleaseAllStable(k: K, t: nat, ms: seq<nat>)
    requires t < |k.task| == |k.pri| && QueuesOk(k)
    ensures Stable(k, ReleaseAll(k, t, ms), {})
    decreases |ms|
  {
    if ms != [] {
      var k1 := SetTask(k, t, k.task[t].(held := ms[1..]));
      StableSame(k, k1, {});
      SameQueues(k, k1);
      if ms[0] < |k.owner| {
        HandOverStable(k1, ms[0]);
        ReleaseAllStable(HandOver(k1, ms[0]), t, ms[1..]);
        StableTrans(k1, HandOver(k1, ms[0]), ReleaseAll(k, t, ms), {});
      } else {
        ReleaseAllStable(k1, t, ms[1..]);
      }
    }
  }

  lemma TerminateStable(k: K, t: nat)
    requires Core(k, {}) && t < |k.task|
    ensures Stable(k, Terminate(k, t), {})
  {
    hide Stable, Quiesce, ReleaseAll, MakeActive, Precedes;
    assert TaskOk(k, t);
    QuiesceCore(k, t);
    var k1 := Quiesce(k, t);
    QuiesceStable(k, t);
    ReleaseAllStable(k1, t, k1.task[t].held);
    ReleaseAllCore(k1, t, k1.task[t].held);
    var k2 := ReleaseAll(k1, t, k1.task[t].held);
    StableTrans(k, k1, k2, {});
    MakeDormantCore(k2, t);
    RestartStable(MakeDormant(k2, t), t);
    StableSame(k2, MakeDormant(k2, t), {});
    StableTrans(k, k2, MakeDormant(k2, t), {});
    StableTrans(k, MakeDormant(k2, t), Terminate(k, t), {});
  }

  lemma QuiesceStable(k: K, t: nat)
    requires t < |k.task| == |k.pri| && QueuesOk(k)
    ensures Stable(k, Quiesce(k, t), {})
  {
    hide Stable, QueuesOk, Move;
    FieldsMoveStable(k, k.(tmev := k.tmev - {t}), t, Dormant, k.pri[t]);
  }

  lemma MakeActiveStable(k: K, t: nat)
    requires t < |k.task| == |k.pri| && QueuesOk(k)
    ensures Stable(k, MakeActive(k, t), {})
  {
    hide Stable, QueuesOk, Move;
    MoveStable(k, t, Runnable, k.pri[t], false);
  }

  lemma RestartStable(k: K, t: nat)
    requires t < |k.task| == |k.pri| && QueuesOk(k)
    ensures Stable(k, Restart(k, t), {})
  {
    hide Stable, MakeActive;
    var k1 := SetTask(k, t, k.task[t].(actque := false));
    StableSame(k, k, {});
    SameQueues(k, k1);
    StableSame(k, k1, {});
    MakeActiveStable(k1, t);
    StableTrans(k, k1, MakeActive(k1, t), {});
  }

  lemma {:induction false} AwakeAllPri(k: K, ts: seq<nat>, er: Er)
    requires |k.task| == |k.pri|
    ensures AwakeAll(k, ts, er).pri == k.pri
    decreases |ts|
  {
    if ts != [] {
      if ts[0] < |k.task| && k.task[ts[0]].stat.Waiting? {
        var t := ts[0];
        MoveFields(SetTask(k, t, k.task[t].(winfo := Wercd(er))).(tmev := k.tmev - {t}), t, AfterWait(k.task[t].stat), k.pri[t], false);
        assert k.pri[t := k.pri[t]] == k.pri;
        AwakeAllPri(Awake(k, t, er), ts[1..], er);
      } else {
        AwakeAllPri(k, ts[1..], er);
      }
    }
  }

  // A priority that stays is not put in a new place.
  lemma ReleaseQuiet(k: K, t: nat, m: nat)
    requires Core(k, {}) && t < |k.task| && m < |k.owner| && Q(k, Lock(m)) == [] && At(Release(k, t, m).pri, t) == k.pri[t]
    ensures Stable(k, Release(k, t, m), {})
  {
    DropCore(k, t, m);
    assert Release(k, t, m).queue == k.queue;
    StableSame(k, Release(k, t, m), {});
  }

  lemma ReinitStable(k: K, m: nat)
    requires Core(k, {}) && Shaped(k) && m < |k.owner|
    ensures Stable(k, Reinit(k, m), if k.owner[m].Some? then {k.owner[m].value} else {})
    ensures k.owner[m].Some? && At(Reinit(k, m).pri, k.owner[m].value) == At(k.pri, k.owner[m].value) ==> Stable(k, Reinit(k, m), {})
  {
    hide Stable, AwakeAll, Release;
    var ts := Q(k, Lock(m));
    var k1 := AwakeAll(k, ts, E_DLT);
    AwakeAllStable(k, ts, E_DLT);
    AwakeAllCore(k, ts, E_DLT);
    AwakeAllEmpties(k, Lock(m), E_DLT);
    AwakeAllPri(k, ts, E_DLT);
    if k.owner[m].Some? {
      var t := k.owner[m].value;
      ReleaseStable(k1, t, m);
      StableMore(k, k1, {}, {t});
      StableTrans(k, k1, Release(k1, t, m), {t});
      if At(Release(k1, t, m).pri, t) == k1.pri[t] {
        ReleaseQuiet(k1, t, m);
        StableTrans(k, k1, Release(k1, t, m), {});
      }
    }
  }

  lemma DispatchStable(k: K, r: K, es: set<nat>)
    requires Stable(k, r, es)
    ensures Stable(k, Dispatch(r), es)
  {
    StableSame(r, Dispatch(r), es);
    StableTrans(k, r, Dispatch(r), es);
  }

  // ---- every call ----

  lemma WakingStable(k: K, t: nat, o: nat)
    requires Inv(k)
    ensures Stable(k, AfterWupTsk(k, t).k, {}) && Stable(k, AfterRelWai(k, t).k, {}) && Stable(k, AfterWakeWaiter(k, o, t).k, {})
    ensures Stable(k, TimeoutEvent(k, t), {})
  {
    hide Stable, Awake, Precedes;
    StableSame(k, k, {});
    if t < |k.task| {
      StableSame(k, SetTask(k, t, k.task[t].(wupque := true)), {});
      if k.task[t].stat.Waiting? {
        var late := if k.task[t].stat.cause.Delay? then E_OK else E_TMOUT;
        AwakeStable(k, t, E_OK);
        AwakeStable(k, t, E_RLWAI);
        AwakeStable(k, t, late);
        DispatchStable(k, Awake(k, t, E_OK), {});
        DispatchStable(k, Awake(k, t, E_RLWAI), {});
      }
    }
  }

  lemma StateStable(k: K, t: nat)
    requires Inv(k)
    ensures Stable(k, AfterActTsk(k, t).k, {}) && Stable(k, AfterSusTsk(k, t).k, {}) && Stable(k, AfterRsmTsk(k, t).k, {})
  {
    hide Stable, Move, MakeActive, Precedes;
    StableSame(k, k, {});
    if t < |k.task| {
      var x := k.task[t];
      StableSame(k, SetTask(k, t, x.(actque := true)), {});
      if x.stat.Waiting? {
        StableSame(k, SetTask(k, t, x.(stat := Waiting(x.stat.cause, true))), {});
        StableSame(k, SetTask(k, t, x.(stat := Waiting(x.stat.cause, false))), {});
      }
      MakeActiveStable(k, t);
      DispatchStable(k, MakeActive(k, t), {});
      MoveStable(k, t, Suspended, k.pri[t], false);
      DispatchStable(k, Move(k, t, Suspended, k.pri[t], false), {});
    }
  }

  lemma RequestStable(k: K, t: nat)
    requires Inv(k) && t < |k.task|
    ensures Stable(k, RequestTermination(k, t).k, {})
  {
    hide Stable, Move, Precedes;
    var x := k.task[t];
    StableSame(k, SetTask(k, t, x.(raster := true)), {});
    var x1 := x.(raster := true, winfo := if x.stat.Waiting? then Wercd(E_RASTER) else x.winfo);
    var k1 := SetTask(k, t, x1).(tmev := k.tmev - {t});
    FieldsMoveStable(k, k1, t, Runnable, k.pri[t]);
    DispatchStable(k, Move(k1, t, Runnable, k.pri[t], false), {});
  }

  lemma TermStable(k: K, t: nat)
    requires Inv(k)
    ensures Stable(k, AfterTerTsk(k, t).k, {}) && Stable(k, AfterRasTer(k, t).k, {})
  {
    hide Stable, Terminate, RequestTermination, Precedes;
    StableSame(k, k, {});
    if t < |k.task| {
      TerminateStable(k, t);
      DispatchStable(k, Terminate(k, t), {});
      RequestStable(k, t);
    }
  }

  lemma ChgPriStable(k: K, t: nat, p: nat)
    requires Inv(k)
    ensures Stable(k, AfterChgPri(k, t, p).k, {t})
  {
    hide Stable, ChangeBase;
    StableSame(k, k, {t});
    if t < |k.task| {
      ChangeBaseStable(k, t, k.cfg.ipri[t]);
      if TMIN_TPRI <= p { ChangeBaseStable(k, t, p - TMIN_TPRI); }
    }
  }

  lemma ChangeBaseStable(k: K, t: nat, b: nat)
    requires Inv(k) && t < |k.task|
    ensures Stable(k, ChangeBase(k, t, b).k, {t})
  {
    hide Stable, Reprioritize, Precedes;
    var k1 := SetTask(k, t, k.task[t].(bpri := b));
    StableSame(k, k, {t});
    StableSame(k, k1, {t});
    SameQueues(k, k1);
    ReprioritizeStable(k1, t, b, false);
    StableTrans(k, k1, Reprioritize(k1, t, b, false), {t});
    DispatchStable(k, Reprioritize(k1, t, b, false), {t});
  }

  lemma RotateStable(k: K, p: nat)
    requires Inv(k) && (k.inint || k.run.Some?)
    ensures Stable(k, AfterRotRdq(k, p).k, {})
  {
    hide Stable, Rotate;
    StableSame(k, k, {});
    if k.run.Some? { RotatedStable(k, k.task[k.run.value].bpri); }
    if TMIN_TPRI <= p { RotatedStable(k, p - TMIN_TPRI); }
  }

  lemma RotatedStable(k: K, p: nat)
    requires Inv(k)
    ensures Stable(k, Dispatch(Rotate(k, p)), {})
  {
    hide Stable, Move, Precedes;
    var q := Q(k, Ready);
    var above: int := p;
    var n := Slot(k.pri, q, above - 1);
    StableSame(k, k, {});
    if n < |q| && q[n] < |k.task| { MoveStable(k, q[n], Runnable, k.pri[q[n]], false); }
    DispatchStable(k, Rotate(k, p), {});
  }

  // The calls of the running task move nobody else about.
  lemma BlockStable(k: K, c: Cause, timed: bool)
    requires Inv(k) && k.run.Some?
    ensures Stable(k, Block(k, c, timed).k, {k.run.value})
  {
    hide Stable, BeginWait;
    BeginWaitStable(k, k.run.value, c, timed);
    DispatchStable(k, BeginWait(k, k.run.value, c, timed), {k.run.value});
  }

  lemma TakeStable(k: K, t: nat, m: nat)
    requires Inv(k) && t < |k.task| && m < |k.owner|
    ensures Stable(k, Settle(Take(k, t, m), t), {t})
  {
    hide Stable, Settle, Precedes;
    StableSame(k, Take(k, t, m), {t});
    SameQueues(k, Take(k, t, m));
    SettleStable(Take(k, t, m), t);
    StableTrans(k, Take(k, t, m), Settle(Take(k, t, m), t), {t});
  }

  lemma EndStable(k: K, r: K, t: nat)
    requires Inv(k) && t < |k.task| && r == k.(enadsp := r.enadsp, ipmAll := r.ipmAll)
    ensures Stable(k, Dispatch(Terminate(r, t)), {t}) && Stable(k, Dispatch(r), {t}) && Stable(k, r, {t})
  {
    hide Stable, Terminate, Precedes;
    CoreSame(k, r);
    TerminateStable(r, t);
    StableSame(k, r, {t});
    StableMore(r, Terminate(r, t), {}, {t});
    StableTrans(k, r, Terminate(r, t), {t});
    DispatchStable(k, Terminate(r, t), {t});
    DispatchStable(k, r, {t});
  }

  lemma DispatchingStable(k: K, enaall: bool)
    requires Inv(k) && k.run.Some?
    ensures var es := {k.run.value};
            Stable(k, AfterExtTsk(k).k, es) && Stable(k, AfterEnaDsp(k).k, es) && Stable(k, AfterChgIpm(k, enaall).k, es)
            && Stable(k, AfterEnaTer(k).k, es) && Stable(k, AfterDisTer(k).k, es)
  {
    hide Stable, Terminate, Precedes, Dispatch, Core;
    var t := k.run.value;
    StableSame(k, k, {t});
    StableSame(k, SetTask(k, t, k.task[t].(enater := true)), {t});
    StableSame(k, SetTask(k, t, k.task[t].(enater := false)), {t});
    EndStable(k, k, t);
    EndStable(k, k.(enadsp := true, ipmAll := true), t);
    EndStable(k, k.(enadsp := true), t);
    EndStable(k, k.(ipmAll := enaall), t);
    EndStable(k, k.(ipmAll := true), t);
  }

  lemma MutexStable(k: K, m: nat, tmo: Tmo)
    requires Inv(k) && k.run.Some?
    ensures var es := {k.run.value}; Stable(k, AfterLocMtx(k, m, tmo).k, es) && Stable(k, AfterPlocMtx(k, m).k, es) && Stable(k, AfterUnlMtx(k, m).k, es)
  {
    hide Stable, Block, Settle, Take, Release, Precedes, Core;
    var t := k.run.value;
    StableSame(k, k, {t});
    BlockStable(k, OnMutex(m), tmo.Timed?);
    if m < |k.owner| {
      TakeStable(k, t, m);
      CoreQueues(k);
      ReleaseStable(k, t, m);
      DispatchStable(k, Release(k, t, m), {t});
    }
  }

  lemma CoreQueues(k: K)
    requires Inv(k)
    ensures QueuesOk(k) && |k.task| == |k.pri|
  {
  }

  lemma WaitStable(k: K, o: nat, tmo: Tmo)
    requires Inv(k) && k.run.Some?
    ensures var es := {k.run.value}; Stable(k, AfterSlpTsk(k, tmo).k, es) && Stable(k, AfterDlyTsk(k).k, es) && Stable(k, AfterWaitObject(k, o, tmo).k, es)
  {
    hide Stable, Block, Precedes, Core;
    var t := k.run.value;
    StableSame(k, k, {t});
    StableSame(k, SetTask(k, t, k.task[t].(wupque := false)), {t});
    BlockStable(k, Sleep, tmo.Timed?);
    BlockStable(k, Delay, true);
    BlockStable(k, OnObject(o), tmo.Timed?);
  }

  lemma TaskStepStable(k: K, c: Call)
    requires Inv(k) && k.run.Some?
    ensures Stable(k, TaskStep(k, c).k, {k.run.value})
  {
    hide Inv, Stable, AfterSlpTsk, AfterLocMtx, AfterPlocMtx, AfterUnlMtx, AfterDlyTsk, AfterWaitObject, AfterDisTer, AfterEnaTer, AfterChgIpm, AfterExtTsk, AfterEnaDsp;
    StableSame(k, k, {k.run.value});
    match c
    case SlpTsk(tmo) => WaitStable(k, 0, tmo);
    case DlyTsk => WaitStable(k, 0, Poll);
    case WaitObject(o, tmo) => WaitStable(k, o, tmo);
    case LocMtx(m, tmo) => MutexStable(k, m, tmo);
    case PlocMtx(m) => MutexStable(k, m, Poll);
    case UnlMtx(m) => MutexStable(k, m, Poll);
    case DisTer => DispatchingStable(k, true);
    case EnaTer => DispatchingStable(k, true);
    case ChgIpm(enaall) => DispatchingStable(k, enaall);
    case ExtTsk => DispatchingStable(k, true);
    case EnaDsp => DispatchingStable(k, true);
    case _ =>
  }

  lemma InitStable(k: K, o: nat)
    requires Inv(k)
    ensures Stable(k, AfterInitObject(k, o).k, {})
  {
    hide Stable, AwakeAll, Precedes, Core;
    StableSame(k, k, {});
    CoreQueues(k);
    AwakeAllStable(k, Q(k, Object(o)), E_DLT);
    DispatchStable(k, AwakeAll(k, Q(k, Object(o)), E_DLT), {});
  }

  predicate KeepsPri(k: K, r: K, t: nat) { At(r.pri, t) == At(k.pri, t) }

  lemma IniMtxStable(k: K, m: nat)
    requires Inv(k)
    ensures Stable(k, AfterIniMtx(k, m).k, if m < |k.owner| && k.owner[m].Some? then {k.owner[m].value} else {})
    ensures m < |k.owner| && k.owner[m].Some? && KeepsPri(k, AfterIniMtx(k, m).k, k.owner[m].value) ==> Stable(k, AfterIniMtx(k, m).k, {})
  {
    hide Stable, Reinit, Precedes;
    StableSame(k, k, {});
    if m < |k.owner| {
      var es := if k.owner[m].Some? then {k.owner[m].value} else {};
      StableSame(k, k, es);
      ReinitStable(k, m);
      DispatchStable(k, Reinit(k, m), es);
      if Stable(k, Reinit(k, m), {}) { DispatchStable(k, Reinit(k, m), {}); }
    }
  }

  // The tasks a call may put in a new place.
  function Movers(k: K, c: Call): set<nat>
    requires Shaped(k)
  {
    match c
    case ChgPri(t, _) => {t}
    case IniMtx(m) => if m < |k.owner| && k.owner[m].Some? then {k.owner[m].value} else {}
    case _ => if k.run.Some? then {k.run.value} else {}
  }

  lemma EventStable(k: K, c: Call)
    requires Inv(k) && Enabled(k, c)
    requires c.DisDsp? || c.EnterInterrupt? || c.ExitInterrupt?
    ensures Stable(k, Step(k, c).k, {})
  {
    StableSame(k, Step(k, c).k, {});
  }

  lemma OtherStable(k: K, c: Call)
    requires Inv(k) && Enabled(k, c) && !c.ChgPri? && !c.IniMtx?
    requires c.ActTsk? || c.TerTsk? || c.RasTer? || c.WupTsk? || c.RelWai? || c.SusTsk? || c.RsmTsk? || c.RotRdq? || c.DisDsp?
      || c.WakeWaiter? || c.InitObject? || c.EnterInterrupt? || c.ExitInterrupt? || c.Timeout?
    ensures Stable(k, Step(k, c).k, {})
  {
    hide Inv, Stable, TaskStep, AfterActTsk, AfterChgPri, AfterTerTsk, AfterRasTer, AfterRotRdq, AfterWupTsk, AfterSusTsk, AfterRsmTsk,
      AfterRelWai, AfterWakeWaiter, TimeoutEvent, AfterInitObject, AfterIniMtx, AfterDisDsp, Dispatch;
    match c
    case ActTsk(t) => StateStable(k, t);
    case SusTsk(t) => StateStable(k, t);
    case RsmTsk(t) => StateStable(k, t);
    case TerTsk(t) => TermStable(k, t);
    case RasTer(t) => TermStable(k, t);
    case RotRdq(p) => RotateStable(k, p);
    case WupTsk(t) => WakingStable(k, t, 0);
    case RelWai(t) => WakingStable(k, t, 0);
    case WakeWaiter(o, t) => WakingStable(k, t, o);
    case Timeout(t) => WakingStable(k, t, 0);
    case InitObject(o) => InitStable(k, o);
    case DisDsp => EventStable(k, c);
    case EnterInterrupt => EventStable(k, c);
    case ExitInterrupt => EventStable(k, c);
  }

  lemma StepStable(k: K, c: Call)
    requires Inv(k) && Enabled(k, c)
    ensures Shaped(k) && Stable(k, Step(k, c).k, Movers(k, c))
  {
    hide Inv, Stable, TaskStep, AfterChgPri, AfterIniMtx, Movers, AfterActTsk, AfterTerTsk, AfterRasTer, AfterRotRdq, AfterWupTsk, AfterSusTsk, AfterRsmTsk,
      AfterRelWai, AfterWakeWaiter, TimeoutEvent, AfterInitObject, AfterDisDsp, Dispatch;
    ShapedNow(k);
    if c.ChgPri? {
      ChgPriStable(k, c.t, c.tskpri);
      MoversAre(k, c);
    } else if c.IniMtx? {
      IniMtxStable(k, c.m);
      MoversAre(k, c);
    } else if c.ActTsk? || c.TerTsk? || c.RasTer? || c.WupTsk? || c.RelWai? || c.SusTsk? || c.RsmTsk? || c.RotRdq? || c.DisDsp?
      || c.WakeWaiter? || c.InitObject? || c.EnterInterrupt? || c.ExitInterrupt? || c.Timeout? {
      OtherStable(k, c);
      StableMore(k, Step(k, c).k, {}, Movers(k, c));
    } else if k.run.Some? {
      TaskStepStable(k, c);
      MoversAre(k, c);
    } else {
      StableSame(k, Step(k, c).k, Movers(k, c));
    }
  }

  lemma ShapedNow(k: K)
    requires Inv(k)
    ensures Shaped(k)
  {
  }

  lemma MoversAre(k: K, c: Call)
    requires Shaped(k)
    ensures c.ChgPri? ==> Movers(k, c) == {c.t}
    ensures c.IniMtx? ==> Movers(k, c) == if c.m < |k.owner| && k.owner[c.m].Some? then {k.owner[c.m].value} else {}
    ensures !c.ChgPri? && !c.IniMtx? && k.run.Some? ==> Movers(k, c) == {k.run.value}
  {
  }

  // Two tasks that wait in the same queue before and after a call, with priorities that have not
  // changed and unless chg_pri names one of them, wait in the same order.
  lemma WaitOrderKept(k: K, c: Call, pl: Place, x: nat, y: nat)
    requires Inv(k) && Enabled(k, c) && Shaped(k) && pl != Ready
    requires x in Q(k, pl) && y in Q(k, pl) && Precedes(Q(k, pl), x, y)
    requires var r := Step(k, c).k; x in Q(r, pl) && y in Q(r, pl) && KeepsPri(k, r, x) && KeepsPri(k, r, y)
    requires c.ChgPri? ==> c.t != x && c.t != y
    ensures Precedes(Q(Step(k, c).k, pl), x, y)
  {
    hide Step, Precedes, Core;
    StepStable(k, c);
    MoversAre(k, c);
    QueuedWait(k, pl, x);
    QueuedWait(k, pl, y);
    if c.IniMtx? {
      IniMtxStable(k, c.m);
      IniMtxStep(k, c.m);
    }
  }

  lemma IniMtxStep(k: K, m: nat)
    requires Shaped(k) && Enabled(k, IniMtx(m))
    ensures Step(k, IniMtx(m)) == AfterIniMtx(k, m)
  {
  }

  lemma QueuedWait(k: K, pl: Place, x: nat)
    requires Inv(k) && pl != Ready && x in Q(k, pl)
    ensures k.run != Some(x)
  {
    assert Linked(k, pl);
  }
}
