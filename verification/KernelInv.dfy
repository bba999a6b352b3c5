/** What every service call keeps. */
module KernelInvariant {
  import opened Options
  import opened PriorityLists
  import opened KernelState
  import opened KernelCalls

  // ---- each task is linked into exactly the ring its state demands ----

  ghost predicate Linked(k: K, pl: Place) {
    && Distinct(Q(k, pl))
    && (forall t: nat :: t in Q(k, pl) <==> t < |k.task| && PlaceOf(k.task[t].stat) == Some(pl))
    && (ByPriority(k.cfg, pl) ==> Sorted(k.pri, Q(k, pl)))
  }

  ghost predicate QueuesOk(k: K) {
    forall pl :: Linked(k, pl)
  }

  lemma LeaveLinked(k: K, t: nat, pri: seq<nat>, pl: Place)
    requires t < |k.task| == |k.pri| == |pri| && Linked(k, pl)
    requires forall x :: x != t ==> At(pri, x) == At(k.pri, x)
    ensures var q := Q(k.(queue := Leave(k, t)), pl);
            && Distinct(q) && (forall x: nat :: x in q <==> x != t && x in Q(k, pl))
            && (ByPriority(k.cfg, pl) ==> Sorted(pri, q))
  {
    var q0 := Q(k, pl);
    if PlaceOf(k.task[t].stat) == Some(pl) {
      WithoutMembers(q0, t);
      if ByPriority(k.cfg, pl) {
        SortedWithout(k.pri, q0, t);
        SortedOther(k.pri, pri, Without(q0, t));
      }
    } else {
      assert t !in q0;
      if ByPriority(k.cfg, pl) { SortedOther(k.pri, pri, q0); }
    }
  }

  lemma EnqueueLinked(cfg: Config, pri: seq<nat>, q: seq<nat>, pl: Place, t: nat, front: bool)
    requires Distinct(q) && t !in q
    requires ByPriority(cfg, pl) ==> Sorted(pri, q)
    ensures var r := Enqueue(cfg, pri, q, pl, t, front);
            && Distinct(r) && (forall x: nat :: x in r <==> x == t || x in q)
            && (ByPriority(cfg, pl) ==> Sorted(pri, r))
  {
    if front {
      InsertMembers(q, Slot(pri, q, At(pri, t) - 1), t);
      if ByPriority(cfg, pl) { SortedInsertFirst(pri, q, t); }
    } else if ByPriority(cfg, pl) {
      InsertMembers(q, Slot(pri, q, At(pri, t)), t);
      SortedInsertLast(pri, q, t);
    } else {
      InsertMembers(q, |q|, t);
      assert Insert(q, |q|, t) == q + [t];
    }
  }

  // The ring at place pl after a move.
  lemma MoveQueue(k: K, t: nat, s: Stat, p: nat, front: bool, pl: Place)
    requires t < |k.task| == |k.pri|
    ensures var q := Q(k.(queue := Leave(k, t)), pl);
            Q(Move(k, t, s, p, front), pl)
            == if PlaceOf(s) == Some(pl) then Enqueue(k.cfg, k.pri[t := p], q, pl, t, front) else q
  {
  }

  lemma MoveLinked(k: K, t: nat, s: Stat, p: nat, front: bool, pl: Place)
    requires t < |k.task| == |k.pri| && Linked(k, pl)
    ensures Linked(Move(k, t, s, p, front), pl)
  {
    var r, pri := Move(k, t, s, p, front), k.pri[t := p];
    var q := Q(k.(queue := Leave(k, t)), pl);
    LeaveLinked(k, t, pri, pl);
    MoveQueue(k, t, s, p, front, pl);
    if PlaceOf(s) == Some(pl) { EnqueueLinked(k.cfg, pri, q, pl, t, front); }
    assert r.cfg == k.cfg && r.pri == pri && r.task == k.task[t := k.task[t].(stat := s)];
    forall x: nat ensures x in Q(r, pl) <==> x < |r.task| && PlaceOf(r.task[x].stat) == Some(pl) {
      assert x in Q(k, pl) <==> x < |k.task| && PlaceOf(k.task[x].stat) == Some(pl);
    }
  }

  lemma MoveQueues(k: K, t: nat, s: Stat, p: nat, front: bool)
    requires t < |k.task| == |k.pri| && QueuesOk(k)
    ensures QueuesOk(Move(k, t, s, p, front))
  {
    forall pl ensures Linked(Move(k, t, s, p, front), pl) { MoveLinked(k, t, s, p, front, pl); }
  }

  // States that agree on what queues depend on.
  lemma SameQueues(k: K, r: K)
    requires QueuesOk(k)
    requires r.cfg == k.cfg && r.queue == k.queue && r.pri == k.pri && |r.task| == |k.task|
    requires forall t :: 0 <= t < |k.task| ==> PlaceOf(r.task[t].stat) == PlaceOf(k.task[t].stat)
    ensures QueuesOk(r)
  {
    forall pl ensures Linked(r, pl) { assert Linked(k, pl); assert Q(r, pl) == Q(k, pl); }
  }

  lemma ReprioritizeQueues(k: K, t: nat, p: nat, front: bool)
    requires t < |k.task| == |k.pri| && QueuesOk(k)
    ensures QueuesOk(Reprioritize(k, t, p, front))
  {
    var r := Reprioritize(k, t, p, front);
    var ring := PlaceOf(k.task[t].stat);
    if ring.Some? && ByPriority(k.cfg, ring.value) {
      MoveQueues(k, t, k.task[t].stat, p, front && ring.value == Ready);
    } else {
      forall pl ensures Linked(r, pl) {
        assert Linked(k, pl);
        assert Q(r, pl) == Q(k, pl);
        if ByPriority(k.cfg, pl) { SortedOther(k.pri, r.pri, Q(k, pl)); }
      }
    }
  }

  // ---- each task agrees with the mutexes, the timer and its own fields ----

  // The chain of t lists exactly the mutexes whose p_loctsk is t.
  ghost predicate HeldOk(owner: seq<Option<nat>>, t: nat, held: seq<nat>) {
    Distinct(held) && (forall m: nat :: m in held <==> m < |owner| && owner[m] == Some(t))
  }

  predicate WaitsForMutex(s: Stat, m: nat) {
    s.Waiting? && s.cause == OnMutex(m)
  }

  // The base priority is not above a ceiling held or waited for, and a task waits only for a
  // mutex that another task owns.
  ghost predicate CeilOk(cfg: Config, owner: seq<Option<nat>>, a: Task) {
    && (a.stat.Dormant? || (CeilingsAllow(cfg, a.bpri, a.held) && CauseAllows(cfg, a.bpri, a.stat)))
    && (forall m: nat :: WaitsForMutex(a.stat, m) ==> m < |owner| && owner[m].Some? && m !in a.held)
  }

  // A waiting task's timeout block is in the heap exactly when p_tmevtb says so; no other task has one.
  ghost predicate TimerOk(a: Task, pending: bool) {
    if a.stat.Waiting? then a.winfo.Tmevtb? && (a.winfo.registered <==> pending) && (a.stat.cause.Delay? ==> a.winfo.registered)
    else !pending
  }

  // The current priority p is the full recomputation; a dormant task has its initial values.
  ghost predicate RestOk(cfg: Config, t: nat, a: Task, p: nat) {
    if a.stat.Dormant? then
      t < |cfg.ipri| && a.held == [] && a.bpri == p == cfg.ipri[t] && !a.wupque && !a.raster && a.enater
    else
      p == CalcPriority(cfg, a.bpri, a.held)
  }

  ghost predicate Fits(cfg: Config, owner: seq<Option<nat>>, t: nat, a: Task, p: nat, pending: bool) {
    a.bpri < TMAX_TPRI && HeldOk(owner, t, a.held) && CeilOk(cfg, owner, a) && TimerOk(a, pending) && RestOk(cfg, t, a, p)
  }

  ghost predicate TaskOk(k: K, t: nat)
    requires t < |k.task| == |k.pri|
  {
    Fits(k.cfg, k.owner, t, k.task[t], k.pri[t], t in k.tmev)
  }

  ghost predicate ConfigOk(cfg: Config) {
    && (forall t :: 0 <= t < |cfg.ipri| ==> cfg.ipri[t] < TMAX_TPRI)
    && (forall m :: 0 <= m < |cfg.ceil| && cfg.ceil[m].Some? ==> cfg.ceil[m].value < TMAX_TPRI)
  }

  ghost predicate Tables(k: K) {
    && |k.pri| == |k.task| == |k.cfg.ipri| == |k.cfg.noactque| && |k.owner| == |k.cfg.ceil|
    && ConfigOk(k.cfg)
    && (forall t :: 0 <= t < |k.pri| ==> k.pri[t] < TMAX_TPRI)
    && (forall t :: t in k.tmev ==> t < |k.task|)
    && (forall m :: 0 <= m < |k.owner| && k.owner[m].Some? ==> k.owner[m].value < |k.task|)
  }

  // ys: the tasks a call is in the middle of changing.
  ghost predicate Core(k: K, ys: set<nat>) {
    Tables(k) && QueuesOk(k) && forall t: nat :: t < |k.task| && t !in ys ==> TaskOk(k, t)
  }

  // A step on task t leaves the others alone; mutexes change hands among ys.
  ghost predicate OnlyTask(k: K, r: K, t: nat, ys: set<nat>) {
    && SameTables(k, r)
    && (forall u :: 0 <= u < |k.task| && u < |r.task| && u != t ==> r.task[u] == k.task[u])
    && (forall u :: 0 <= u < |k.pri| && u < |r.pri| && u != t ==> r.pri[u] == k.pri[u])
    && (forall u: nat :: u != t ==> (u in r.tmev <==> u in k.tmev))
    && (forall m :: 0 <= m < |k.owner| && m < |r.owner| && r.owner[m] != k.owner[m] ==>
          (k.owner[m].None? || k.owner[m].value in ys) && (r.owner[m].None? || r.owner[m].value in ys))
    && (forall m :: 0 <= m < |k.owner| && m < |r.owner| && k.owner[m].Some? && r.owner[m].None? ==> Q(k, Lock(m)) == [])
  }

  lemma OtherTask(k: K, r: K, t: nat, u: nat, ys: set<nat>)
    requires u < |k.task| == |k.pri| && OnlyTask(k, r, t, ys) && u != t && u !in ys
    requires QueuesOk(k) && TaskOk(k, u)
    ensures TaskOk(r, u)
  {
    forall m: nat | WaitsForMutex(k.task[u].stat, m) ensures r.owner[m].Some? && m !in k.task[u].held {
      assert Linked(k, Lock(m));
      assert u in Q(k, Lock(m));
    }
  }

  lemma OthersKept(k: K, r: K, t: nat, ys: set<nat>)
    requires Core(k, ys) && t in ys && OnlyTask(k, r, t, ys) && Tables(r) && QueuesOk(r)
    ensures Core(r, ys)
  {
    forall u: nat | u < |r.task| && u !in ys ensures TaskOk(r, u) { OtherTask(k, r, t, u, ys); }
  }

  lemma Begin(k: K, t: nat, ys: set<nat>)
    requires Core(k, ys)
    ensures Core(k, ys + {t})
  {
  }

  lemma Finish(k: K, t: nat, ys: set<nat>)
    requires Core(k, ys + {t}) && t < |k.task| && TaskOk(k, t)
    ensures Core(k, ys)
  {
  }

  lemma MoveFields(k: K, t: nat, s: Stat, p: nat, front: bool)
    requires t < |k.task| == |k.pri|
    ensures var r := Move(k, t, s, p, front);
            r == k.(queue := r.queue, pri := k.pri[t := p], task := k.task[t := k.task[t].(stat := s)])
  {
  }

  lemma MoveCore(k: K, t: nat, s: Stat, p: nat, front: bool, ys: set<nat>)
    requires Core(k, ys) && t in ys && t < |k.task| && p < TMAX_TPRI
    ensures Core(Move(k, t, s, p, front), ys)
  {
    MoveQueues(k, t, s, p, front);
    MoveFields(k, t, s, p, front);
    OthersKept(k, Move(k, t, s, p, front), t, ys);
  }

  // Changes of fields that no queue depends on.
  lemma FieldsCore(k: K, r: K, t: nat, ys: set<nat>)
    requires Core(k, ys) && t in ys && t < |k.task| && OnlyTask(k, r, t, ys) && Tables(r)
    requires r.queue == k.queue && r.pri == k.pri && PlaceOf(r.task[t].stat) == PlaceOf(k.task[t].stat)
    ensures Core(r, ys)
  {
    SameQueues(k, r);
    OthersKept(k, r, t, ys);
  }

  // ---- the building blocks ----

  lemma {:induction false} CalcPriorityBound(cfg: Config, bpri: nat, held: seq<nat>)
    ensures CalcPriority(cfg, bpri, held) <= bpri
  {
    if held != [] { CalcPriorityBound(cfg, bpri, held[1..]); }
  }

  // Rewriting the wait information of t and (un)registering its timeout block.
  lemma WaitInfoCore(k: K, t: nat, w: Winfo, timers: set<nat>, ys: set<nat>)
    requires Core(k, ys) && t in ys && t < |k.task|
    requires timers == k.tmev + {t} || timers == k.tmev - {t} || timers == k.tmev
    ensures Core(SetTask(k, t, k.task[t].(winfo := w)).(tmev := timers), ys)
  {
    FieldsCore(k, SetTask(k, t, k.task[t].(winfo := w)).(tmev := timers), t, ys);
  }

  lemma AwakeTask(k: K, t: nat, er: Er)
    requires t < |k.task| == |k.pri|
    requires TaskOk(k, t) && k.task[t].stat.Waiting?
    ensures TaskOk(Awake(k, t, er), t)
  {
    var k1 := SetTask(k, t, k.task[t].(winfo := Wercd(er))).(tmev := k.tmev - {t});
    MoveFields(k1, t, AfterWait(k.task[t].stat), k.pri[t], false);
  }

  lemma AwakeCore(k: K, t: nat, er: Er, ys: set<nat>)
    requires Core(k, ys) && t < |k.task| && t !in ys && k.task[t].stat.Waiting?
    ensures Core(Awake(k, t, er), ys)
  {
    Begin(k, t, ys);
    var k1 := SetTask(k, t, k.task[t].(winfo := Wercd(er))).(tmev := k.tmev - {t});
    WaitInfoCore(k, t, Wercd(er), k.tmev - {t}, ys + {t});
    MoveCore(k1, t, AfterWait(k.task[t].stat), k.pri[t], false, ys + {t});
    AwakeTask(k, t, er);
    Finish(Awake(k, t, er), t, ys);
  }

  // A released task is not waiting any more; nobody else changes state.
  lemma {:induction false} AwakeAllCore(k: K, ts: seq<nat>, er: Er)
    requires Core(k, {})
    ensures Core(AwakeAll(k, ts, er), {})
    decreases |ts|
  {
    if ts != [] {
      if ts[0] < |k.task| && k.task[ts[0]].stat.Waiting? {
        AwakeCore(k, ts[0], er, {});
        AwakeAllCore(Awake(k, ts[0], er), ts[1..], er);
      } else {
        AwakeAllCore(k, ts[1..], er);
      }
    }
  }

  lemma BeginWaitTask(k: K, t: nat, c: Cause, timed: bool)
    requires t < |k.task| == |k.pri|
    requires TaskOk(k, t) && k.task[t].stat.Runnable?
    requires CauseAllows(k.cfg, k.task[t].bpri, Waiting(c, false)) && (c.Delay? ==> timed)
    requires c.OnMutex? ==> c.m < |k.owner| && k.owner[c.m].Some? && k.owner[c.m] != Some(t)
    ensures TaskOk(BeginWait(k, t, c, timed), t)
  {
    var timers := if timed then k.tmev + {t} else k.tmev;
    MoveFields(SetTask(k, t, k.task[t].(winfo := Tmevtb(timed))).(tmev := timers), t, Waiting(c, false), k.pri[t], false);
  }

  lemma BeginWaitCore(k: K, t: nat, c: Cause, timed: bool)
    requires Core(k, {}) && t < |k.task| && k.task[t].stat.Runnable?
    requires CauseAllows(k.cfg, k.task[t].bpri, Waiting(c, false)) && (c.Delay? ==> timed)
    requires c.OnMutex? ==> c.m < |k.owner| && k.owner[c.m].Some? && k.owner[c.m] != Some(t)
    ensures Core(BeginWait(k, t, c, timed), {})
  {
    Begin(k, t, {});
    var timers := if timed then k.tmev + {t} else k.tmev;
    WaitInfoCore(k, t, Tmevtb(timed), timers, {t});
    MoveCore(SetTask(k, t, k.task[t].(winfo := Tmevtb(timed))).(tmev := timers), t, Waiting(c, false), k.pri[t], false, {t});
    BeginWaitTask(k, t, c, timed);
    Finish(BeginWait(k, t, c, timed), t, {});
  }

  lemma ReprioritizeCore(k: K, t: nat, p: nat, front: bool, ys: set<nat>)
    requires Core(k, ys) && t in ys && t < |k.task| && p < TMAX_TPRI
    ensures Core(Reprioritize(k, t, p, front), ys)
  {
    var r := Reprioritize(k, t, p, front);
    ReprioritizeQueues(k, t, p, front);
    ReprioritizeFields(k, t, p, front);
    OthersKept(k, r, t, ys);
  }

  lemma ReprioritizeFields(k: K, t: nat, p: nat, front: bool)
    requires t < |k.task| == |k.pri|
    ensures var r := Reprioritize(k, t, p, front);
            r == k.(queue := r.queue, pri := k.pri[t := p])
  {
    assert k.task[t := k.task[t].(stat := k.task[t].stat)] == k.task;
  }

  lemma SettleCore(k: K, t: nat, ys: set<nat>)
    requires Core(k, ys) && t in ys && t < |k.task| && k.task[t].bpri < TMAX_TPRI
    ensures Core(Settle(k, t), ys)
    ensures var r := Settle(k, t); r == k.(queue := r.queue, pri := k.pri[t := FullPri(k, t)])
  {
    CalcPriorityBound(k.cfg, k.task[t].bpri, k.task[t].held);
    ReprioritizeCore(k, t, FullPri(k, t), true, ys);
    ReprioritizeFields(k, t, FullPri(k, t), true);
    assert k.pri[t := k.pri[t]] == k.pri;
  }

  // ---- locking and unlocking ----

  lemma TakeFits(cfg: Config, owner: seq<Option<nat>>, held: seq<nat>, t: nat, m: nat, bpri: nat)
    requires HeldOk(owner, t, held) && m < |owner| && owner[m] != Some(t)
    requires CeilingsAllow(cfg, bpri, held) && (CeilOf(cfg, m).Some? ==> CeilOf(cfg, m).value <= bpri)
    ensures HeldOk(owner[m := Some(t)], t, [m] + held) && CeilingsAllow(cfg, bpri, [m] + held)
  {
    assert m !in held;
    var h := [m] + held;
    forall i | 0 <= i < |h| && CeilOf(cfg, h[i]).Some? ensures CeilOf(cfg, h[i]).value <= bpri {
      if i > 0 { assert h[i] == held[i - 1]; }
    }
  }

  // A free mutex is taken by a task that is not dormant.
  lemma AcquireCore(k: K, t: nat, m: nat)
    requires Core(k, {}) && t < |k.task| && m < |k.owner| && k.owner[m].None? && k.task[t].stat.Runnable?
    requires CeilOf(k.cfg, m).Some? ==> CeilOf(k.cfg, m).value <= k.task[t].bpri
    ensures Core(Settle(Take(k, t, m), t), {})
  {
    Begin(k, t, {});
    var k1 := Take(k, t, m);
    FieldsCore(k, k1, t, {t});
    SettleCore(k1, t, {t});
    TakeFits(k.cfg, k.owner, k.task[t].held, t, m, k.task[t].bpri);
    Finish(Settle(k1, t), t, {});
  }

  lemma HandOverFields(k: K, m: nat, w: nat)
    requires w < |k.task| == |k.pri| && m < |k.owner| && k.task[w].stat.Waiting?
    requires Q(k, Lock(m)) != [] && Q(k, Lock(m))[0] == w
    ensures var r, a := HandOver(k, m), k.task[w].(winfo := Wercd(E_OK), held := [m] + k.task[w].held);
            r == k.(queue := r.queue, owner := k.owner[m := Some(w)], tmev := k.tmev - {w},
                    task := k.task[w := a.(stat := AfterWait(a.stat))],
                    pri := k.pri[w := CalcPriority(k.cfg, a.bpri, a.held)])
  {
    var a := k.task[w];
    var k1 := Take(SetTask(k, w, a.(winfo := Wercd(E_OK))).(tmev := k.tmev - {w}), w, m);
    MoveFields(k1, w, AfterWait(a.stat), FullPri(k1, w), false);
  }

  lemma HandOverFits(k: K, m: nat, w: nat)
    requires w < |k.task| == |k.pri| && m < |k.owner| && TaskOk(k, w) && WaitsForMutex(k.task[w].stat, m)
    requires Q(k, Lock(m)) != [] && Q(k, Lock(m))[0] == w && k.owner[m] != Some(w)
    ensures TaskOk(HandOver(k, m), w)
  {
    HandOverFields(k, m, w);
    TakeFits(k.cfg, k.owner, k.task[w].held, w, m, k.task[w].bpri);
  }

  // The mutex passes to its first waiter, which then waits no more.
  lemma HandOverWaiter(k: K, m: nat, w: nat, ys: set<nat>)
    requires Core(k, ys) && m < |k.owner| && k.owner[m].Some? && k.owner[m].value in ys
    requires w < |k.task| && w !in ys && WaitsForMutex(k.task[w].stat, m)
    requires Q(k, Lock(m)) != [] && Q(k, Lock(m))[0] == w
    ensures Core(HandOver(k, m), ys)
  {
    var a := k.task[w];
    Begin(k, w, ys);
    WaitInfoCore(k, w, Wercd(E_OK), k.tmev - {w}, ys + {w});
    var k0 := SetTask(k, w, a.(winfo := Wercd(E_OK))).(tmev := k.tmev - {w});
    var k1 := Take(k0, w, m);
    FieldsCore(k0, k1, w, ys + {w});
    CalcPriorityBound(k.cfg, a.bpri, [m] + a.held);
    MoveCore(k1, w, AfterWait(a.stat), FullPri(k1, w), false, ys + {w});
    HandOverFits(k, m, w);
    Finish(HandOver(k, m), w, ys);
  }

  ghost predicate Untouched(k: K, r: K, u: nat)
    requires u < |k.task| == |k.pri| && SameTables(k, r)
  {
    r.task[u] == k.task[u] && r.pri[u] == k.pri[u] && (u in r.tmev <==> u in k.tmev)
  }

  lemma HandOverCore(k: K, m: nat, t: nat)
    requires Core(k, {t}) && m < |k.owner| && k.owner[m] == Some(t) && t < |k.task|
    requires k.task[t].stat.Waiting? ==> Q(k, Lock(m)) == []
    ensures var r := HandOver(k, m);
            && Core(r, {t}) && SameTables(k, r) && Untouched(k, r, t)
            && r.owner == k.owner[m := r.owner[m]] && r.owner[m] != Some(t)
  {
    var q := Q(k, Lock(m));
    assert Linked(k, Lock(m));
    if q == [] {
      FieldsCore(k, HandOver(k, m), t, {t});
    } else {
      assert q[0] in q;
      HandOverWaiter(k, m, q[0], {t});
      HandOverFields(k, m, q[0]);
    }
  }

  // A chain with one mutex passed on.
  lemma UntakeFits(cfg: Config, owner: seq<Option<nat>>, held: seq<nat>, t: nat, m: nat, next: Option<nat>, bpri: nat)
    requires HeldOk(owner, t, held) && m < |owner| && next != Some(t)
    requires CeilingsAllow(cfg, bpri, held)
    ensures HeldOk(owner[m := next], t, Without(held, m)) && CeilingsAllow(cfg, bpri, Without(held, m))
  {
    WithoutMembers(held, m);
    var h := Without(held, m);
    forall i | 0 <= i < |h| && CeilOf(cfg, h[i]).Some? ensures CeilOf(cfg, h[i]).value <= bpri {
      assert h[i] in held;
    }
  }

  lemma ReleaseFits(cfg: Config, owner: seq<Option<nat>>, t: nat, a: Task, p: nat, pending: bool, m: nat, next: Option<nat>)
    requires Fits(cfg, owner, t, a, p, pending) && !a.stat.Dormant?
    requires m < |owner| && next != Some(t) && !WaitsForMutex(a.stat, m)
    ensures var h := Without(a.held, m);
            Fits(cfg, owner[m := next], t, a.(held := h), CalcPriority(cfg, a.bpri, h), pending)
  {
    UntakeFits(cfg, owner, a.held, t, m, next, a.bpri);
  }

  // Off the chain, and the priority settled.
  lemma DropCore(k: K, t: nat, m: nat)
    requires Core(k, {}) && t < |k.task|
    ensures var r, a := Settle(Untake(k, t, m), t), k.task[t].(held := Without(k.task[t].held, m));
            Core(r, {t}) && r == k.(queue := r.queue, task := k.task[t := a], pri := k.pri[t := CalcPriority(k.cfg, a.bpri, a.held)])
            && (Q(k, Lock(m)) == [] ==> Q(r, Lock(m)) == [])
  {
    Begin(k, t, {});
    FieldsCore(k, Untake(k, t, m), t, {t});
    SettleCore(Untake(k, t, m), t, {t});
    if Q(k, Lock(m)) == [] { SettleEmpty(Untake(k, t, m), t, m); }
  }

  lemma NotWaitingFor(k: K, t: nat, m: nat)
    requires Core(k, {}) && t < |k.task| && m < |k.owner| && k.owner[m] == Some(t)
    requires k.task[t].stat.Waiting? ==> Q(k, Lock(m)) == []
    ensures !WaitsForMutex(k.task[t].stat, m) && !k.task[t].stat.Dormant?
  {
    assert Linked(k, Lock(m));
    assert WaitsForMutex(k.task[t].stat, m) ==> t in Q(k, Lock(m));
    assert TaskOk(k, t);
    assert m in k.task[t].held;
  }

  lemma ReleaseParts(k: K, t: nat, m: nat)
    requires Core(k, {}) && t < |k.task| && m < |k.owner| && k.owner[m] == Some(t)
    requires k.task[t].stat.Waiting? ==> Q(k, Lock(m)) == []
    ensures var r, h := Release(k, t, m), Without(k.task[t].held, m);
            && Core(r, {t}) && SameTables(k, r) && r.owner == k.owner[m := r.owner[m]] && r.owner[m] != Some(t)
            && r.task[t] == k.task[t].(held := h) && r.pri[t] == CalcPriority(k.cfg, k.task[t].bpri, h)
            && (t in r.tmev <==> t in k.tmev)
  {
    var k2 := Settle(Untake(k, t, m), t);
    DropCore(k, t, m);
    HandOverCore(k2, m, t);
  }

  lemma ReleaseFinish(k: K, r: K, t: nat, m: nat)
    requires Core(k, {}) && t < |k.task| && m < |k.owner| && k.owner[m] == Some(t)
    requires !WaitsForMutex(k.task[t].stat, m) && !k.task[t].stat.Dormant?
    requires Core(r, {t}) && SameTables(k, r) && r.owner == k.owner[m := r.owner[m]] && r.owner[m] != Some(t)
    requires var h := Without(k.task[t].held, m);
             r.task[t] == k.task[t].(held := h) && r.pri[t] == CalcPriority(k.cfg, k.task[t].bpri, h)
    requires t in r.tmev <==> t in k.tmev
    ensures Core(r, {})
  {
    assert TaskOk(k, t);
    ReleaseFits(k.cfg, k.owner, t, k.task[t], k.pri[t], t in k.tmev, m, r.owner[m]);
    Finish(r, t, {});
  }

  // Unlocking: off the chain, the priority settled, the mutex passed on.
  lemma ReleaseCore(k: K, t: nat, m: nat)
    requires Core(k, {}) && t < |k.task| && m < |k.owner| && k.owner[m] == Some(t)
    requires k.task[t].stat.Waiting? ==> Q(k, Lock(m)) == []
    ensures Core(Release(k, t, m), {})
  {
    NotWaitingFor(k, t, m);
    ReleaseParts(k, t, m);
    ReleaseFinish(k, Release(k, t, m), t, m);
  }

  lemma SettleEmpty(k: K, t: nat, m: nat)
    requires QueuesOk(k) && t < |k.task| == |k.pri| && Q(k, Lock(m)) == []
    ensures Q(Settle(k, t), Lock(m)) == []
  {
    assert Linked(k, Lock(m));
  }

  // ---- termination and activation ----

  // One mutex of a task being terminated is passed on.
  lemma PassOnCore(k: K, t: nat, ms: seq<nat>)
    requires Core(k, {t}) && t < |k.task| && k.task[t].stat.Dormant?
    requires ms != [] && k.task[t].held == ms && HeldOk(k.owner, t, ms)
    ensures ms[0] < |k.owner|
    ensures var k1 := SetTask(k, t, k.task[t].(held := ms[1..])); var r := HandOver(k1, ms[0]);
            && Core(r, {t}) && SameTables(k, r) && Untouched(k1, r, t) && HeldOk(r.owner, t, ms[1..])
  {
    assert ms[0] in ms;
    var k1 := SetTask(k, t, k.task[t].(held := ms[1..]));
    FieldsCore(k, k1, t, {t});
    HandOverCore(k1, ms[0], t);
    forall m: nat ensures m in ms[1..] <==> m in ms && m != ms[0] {
      assert ms == [ms[0]] + ms[1..];
    }
  }

  lemma {:induction false} ReleaseAllCore(k: K, t: nat, ms: seq<nat>)
    requires Core(k, {t}) && t < |k.task| && k.task[t].stat.Dormant?
    requires k.task[t].held == ms && HeldOk(k.owner, t, ms)
    ensures var r := ReleaseAll(k, t, ms);
            && Core(r, {t}) && HeldOk(r.owner, t, []) && r.pri[t] == k.pri[t]
            && r.task[t] == k.task[t].(held := []) && (t in r.tmev <==> t in k.tmev)
    decreases |ms|
  {
    if ms != [] {
      PassOnCore(k, t, ms);
      ReleaseAllCore(HandOver(SetTask(k, t, k.task[t].(held := ms[1..])), ms[0]), t, ms[1..]);
    }
  }

  lemma QuiesceCore(k: K, t: nat)
    requires Core(k, {}) && t < |k.task|
    ensures var r := Quiesce(k, t);
            && Core(r, {t}) && r == k.(queue := r.queue, tmev := k.tmev - {t}, task := k.task[t := k.task[t].(stat := Dormant)])
  {
    Begin(k, t, {});
    var k1 := k.(tmev := k.tmev - {t});
    FieldsCore(k, k1, t, {t});
    MoveCore(k1, t, Dormant, k.pri[t], false, {t});
    MoveFields(k1, t, Dormant, k.pri[t], false);
    assert k.pri[t := k.pri[t]] == k.pri;
  }

  lemma MakeDormantCore(k: K, t: nat)
    requires Core(k, {t}) && t < |k.task| && k.task[t].stat.Dormant? && HeldOk(k.owner, t, []) && t !in k.tmev
    ensures Core(MakeDormant(k, t), {})
  {
    ReprioritizeCore(k, t, k.cfg.ipri[t], false, {t});
    var k1 := Reprioritize(k, t, k.cfg.ipri[t], false);
    FieldsCore(k1, MakeDormant(k, t), t, {t});
    Finish(MakeDormant(k, t), t, {});
  }

  lemma MakeActiveCore(k: K, t: nat)
    requires Core(k, {}) && t < |k.task| && (k.task[t].stat.Dormant? || k.task[t].stat.Suspended?)
    ensures Core(MakeActive(k, t), {})
  {
    Begin(k, t, {});
    assert TaskOk(k, t);
    MoveCore(k, t, Runnable, k.pri[t], false, {t});
    MoveFields(k, t, Runnable, k.pri[t], false);
    Finish(MakeActive(k, t), t, {});
  }

  // A change of flags that no invariant of the core mentions.
  lemma FlagsCore(k: K, t: nat, a: Task)
    requires Core(k, {}) && t < |k.task|
    requires a == k.task[t].(actque := a.actque, wupque := a.wupque, raster := a.raster, enater := a.enater)
    requires k.task[t].stat.Dormant? ==> a == k.task[t].(actque := a.actque)
    ensures Core(SetTask(k, t, a), {})
  {
    Begin(k, t, {});
    assert TaskOk(k, t);
    FieldsCore(k, SetTask(k, t, a), t, {t});
    Finish(SetTask(k, t, a), t, {});
  }

  lemma TerminateCore(k: K, t: nat)
    requires Core(k, {}) && t < |k.task|
    ensures Core(Terminate(k, t), {})
  {
    assert TaskOk(k, t);
    QuiesceCore(k, t);
    var k1 := Quiesce(k, t);
    ReleaseAllCore(k1, t, k.task[t].held);
    var k2 := ReleaseAll(k1, t, k.task[t].held);
    MakeDormantCore(k2, t);
    RestartCore(MakeDormant(k2, t), t);
  }

  lemma RestartCore(k: K, t: nat)
    requires Core(k, {}) && t < |k.task| && k.task[t].stat.Dormant?
    ensures Core(if k.task[t].actque then MakeActive(SetTask(k, t, k.task[t].(actque := false)), t) else k, {})
  {
    FlagsCore(k, t, k.task[t].(actque := false));
    MakeActiveCore(SetTask(k, t, k.task[t].(actque := false)), t);
  }
}
