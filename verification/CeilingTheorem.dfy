/** The immediate priority ceiling theorem: with ceiling mutexes only, and tasks that never
    wait while they hold one, locking never finds a mutex taken by somebody else. */
module CeilingTheorem {
  import opened Options
  import opened PriorityLists
  import opened KernelState
  import opened KernelCalls
  import opened KernelInvariant
  import opened KernelSafety

  // Task x has a base priority strictly higher than each ceiling that h holds.
  ghost predicate Above(cfg: Config, task: seq<Task>, x: nat, h: nat) {
    x < |task| && h < |task| &&
    forall m :: m in task[h].held && CeilOf(cfg, m).Some? ==> task[x].bpri < CeilOf(cfg, m).value
  }

  // Everybody ahead in precedence is above everybody behind.
  ghost predicate Ahead(cfg: Config, task: seq<Task>, q: seq<nat>) {
    forall i, j :: 0 <= i < j < |q| ==> Above(cfg, task, q[i], q[j])
  }

  ghost predicate NoLockWaits(k: K) {
    forall m: nat :: Q(k, Lock(m)) == []
  }

  ghost predicate HoldersRun(k: K) {
    forall t :: 0 <= t < |k.task| && k.task[t].held != [] ==> k.task[t].stat.Runnable?
  }

  ghost predicate NoneSuspended(k: K) {
    forall t :: 0 <= t < |k.task| ==> !k.task[t].stat.Suspended? && (k.task[t].stat.Waiting? ==> !k.task[t].stat.susp)
  }

  ghost predicate AllCeilings(cfg: Config) {
    forall m :: 0 <= m < |cfg.ceil| ==> cfg.ceil[m].Some?
  }

  ghost predicate Ceilings(k: K) {
    AllCeilings(k.cfg) && Dspflg(k) && NoLockWaits(k) && HoldersRun(k) && NoneSuspended(k) && Ahead(k.cfg, k.task, Q(k, Ready))
  }

  // The discipline: no wait while holding a mutex; no suspension, no chg_pri, no rot_rdq,
  // dispatching never disabled, no re-initialisation of mutexes.
  predicate Disciplined(k: K, c: Call)
    requires Shaped(k)
  {
    match c
    case SlpTsk(_) => k.run.Some? ==> k.task[k.run.value].held == []
    case DlyTsk => k.run.Some? ==> k.task[k.run.value].held == []
    case WaitObject(_, _) => k.run.Some? ==> k.task[k.run.value].held == []
    case SusTsk(_) => false
    case RsmTsk(_) => false
    case ChgPri(_, _) => false
    case RotRdq(_) => false
    case DisDsp => false
    case EnaDsp => false
    case ChgIpm(_) => false
    case IniMtx(_) => false
    case _ => true
  }

  // ---- lists ----

  lemma {:induction false} AheadWithout(cfg: Config, task: seq<Task>, q: seq<nat>, t: nat)
    requires Ahead(cfg, task, q)
    ensures Ahead(cfg, task, Without(q, t))
  {
    if q != [] && q[0] != t {
      AheadWithout(cfg, task, q[1..], t);
      WithoutSubset(q[1..], t);
      assert forall x :: x in q[1..] ==> Above(cfg, task, q[0], x);
    }
  }

  lemma AheadInsert(cfg: Config, task: seq<Task>, q: seq<nat>, n: nat, t: nat)
    requires Ahead(cfg, task, q) && n <= |q|
    requires forall i :: 0 <= i < n ==> Above(cfg, task, q[i], t)
    requires forall i :: n <= i < |q| ==> Above(cfg, task, t, q[i])
    ensures Ahead(cfg, task, Insert(q, n, t))
  {
    var r := Insert(q, n, t);
    forall i, j | 0 <= i < j < |r| ensures Above(cfg, task, r[i], r[j]) {
      assert r[i] == (if i < n then q[i] else if i == n then t else q[i - 1]);
      assert r[j] == (if j < n then q[j] else if j == n then t else q[j - 1]);
    }
  }

  // Only base priorities and chains of the listed tasks matter.
  lemma AheadSame(cfg: Config, task: seq<Task>, task': seq<Task>, q: seq<nat>)
    requires Ahead(cfg, task, q) && |task'| == |task|
    requires forall x :: x in q && x < |task| ==> task'[x].bpri == task[x].bpri
    requires forall x, m :: x in q && x < |task| && m in task'[x].held ==> m in task[x].held
    ensures Ahead(cfg, task', q)
  {
    forall i, j | 0 <= i < j < |q| ensures Above(cfg, task', q[i], q[j]) {
      assert Above(cfg, task, q[i], q[j]);
    }
  }

  lemma {:induction false} CalcBelowCeilings(cfg: Config, b: nat, held: seq<nat>)
    ensures forall m :: m in held && CeilOf(cfg, m).Some? ==> CalcPriority(cfg, b, held) <= CeilOf(cfg, m).value
  {
    if held != [] { CalcBelowCeilings(cfg, b, held[1..]); }
  }

  lemma {:induction false} CalcAbove(cfg: Config, b: nat, held: seq<nat>, p: nat)
    requires p < b && forall m :: m in held && CeilOf(cfg, m).Some? ==> p < CeilOf(cfg, m).value
    ensures p < CalcPriority(cfg, b, held)
  {
    if held != [] { CalcAbove(cfg, b, held[1..], p); }
  }

  // ---- a task without mutexes enters the precedence order behind its equals ----

  lemma EnterAhead(k: K, q: seq<nat>, t: nat)
    requires |k.task| == |k.pri| && t < |k.task| && k.task[t].held == [] && k.pri[t] == k.task[t].bpri
    requires Ahead(k.cfg, k.task, q) && Sorted(k.pri, q)
    requires forall x :: x in q ==> x < |k.task| && k.pri[x] == FullPri(k, x)
    ensures Ahead(k.cfg, k.task, InsertLast(k.pri, q, t))
  {
    var n := Slot(k.pri, q, At(k.pri, t));
    forall i | 0 <= i < n ensures Above(k.cfg, k.task, q[i], t) { assert q[i] in q; }
    forall i | n <= i < |q| ensures Above(k.cfg, k.task, t, q[i]) {
      assert q[n] in q && q[i] in q;
      CalcBelowCeilings(k.cfg, k.task[q[i]].bpri, k.task[q[i]].held);
    }
    AheadInsert(k.cfg, k.task, q, n, t);
  }

  // What is known about every queued task.
  ghost predicate ReadyOk(k: K) {
    && |k.task| == |k.pri| && Sorted(k.pri, Q(k, Ready)) && Distinct(Q(k, Ready))
    && (forall x :: x in Q(k, Ready) ==> x < |k.task| && k.task[x].stat.Runnable? && k.pri[x] == FullPri(k, x))
    && (forall x: nat :: x < |k.task| && k.task[x].stat.Runnable? ==> x in Q(k, Ready))
  }

  lemma CoreReady(k: K)
    requires Core(k, {})
    ensures ReadyOk(k)
  {
    assert Linked(k, Ready);
    forall x | x in Q(k, Ready) ensures x < |k.task| && k.task[x].stat.Runnable? && k.pri[x] == FullPri(k, x) {
      assert TaskOk(k, x);
    }
  }

  lemma EntryQueue(k: K, t: nat)
    requires t < |k.task| == |k.pri| && !k.task[t].stat.Runnable?
    ensures var r := MakeActive(k, t);
            r == k.(queue := r.queue, task := k.task[t := k.task[t].(stat := Runnable)])
            && Q(r, Ready) == InsertLast(k.pri, Q(k, Ready), t)
  {
    MoveFields(k, t, Runnable, k.pri[t], false);
    MoveQueue(k, t, Runnable, k.pri[t], false, Ready);
    assert k.pri[t := k.pri[t]] == k.pri;
  }

  lemma FreshEntry(k: K, t: nat)
    requires ReadyOk(k) && Ceilings(k) && t < |k.task| && !k.task[t].stat.Runnable?
    requires k.task[t].bpri == k.pri[t]
    ensures Ceilings(MakeActive(k, t))
  {
    var r := MakeActive(k, t);
    hide MakeActive, InsertLast;
    var q := Q(k, Ready);
    EntryQueue(k, t);
    EnterAhead(k, q, t);
    AheadSame(k.cfg, k.task, r.task, InsertLast(k.pri, q, t));
    ActiveNoLockWaits(k, t);
  }

  lemma ActiveNoLockWaits(k: K, t: nat)
    requires t < |k.task| == |k.pri| && NoLockWaits(k)
    ensures NoLockWaits(MakeActive(k, t))
  {
    StillNoLockWaits(k, t, Runnable, k.pri[t], false);
  }

  lemma StillNoLockWaits(k: K, t: nat, s: Stat, p: nat, front: bool)
    requires t < |k.task| == |k.pri| && NoLockWaits(k)
    requires !(s.Waiting? && s.cause.OnMutex?)
    ensures NoLockWaits(Move(k, t, s, p, front))
  {
    forall m: nat ensures Q(Move(k, t, s, p, front), Lock(m)) == [] { MoveQueue(k, t, s, p, front, Lock(m)); }
  }

  // A task that holds nothing has its base priority.
  lemma NothingHeld(k: K, t: nat)
    requires Core(k, {}) && t < |k.task| && k.task[t].held == []
    ensures k.task[t].bpri == k.pri[t]
  {
    assert TaskOk(k, t);
  }

  // Changes that leave the precedence order, base priorities and chains alone.
  lemma CeilingsSame(k: K, r: K)
    requires Ceilings(k) && r.cfg == k.cfg && Dspflg(r) && r.queue == k.queue && |r.task| == |k.task|
    requires forall t :: 0 <= t < |k.task| ==> r.task[t].bpri == k.task[t].bpri && r.task[t].held == k.task[t].held
    requires forall t :: 0 <= t < |k.task| ==> r.task[t].stat == k.task[t].stat
    ensures Ceilings(r)
  {
    AheadSame(k.cfg, k.task, r.task, Q(k, Ready));
    forall m: nat ensures Q(r, Lock(m)) == [] { assert Q(k, Lock(m)) == []; }
  }

  lemma AwakeCeilings(k: K, t: nat, er: Er)
    requires Core(k, {}) && Ceilings(k) && t < |k.task| && k.task[t].stat.Waiting?
    ensures Ceilings(Awake(k, t, er))
  {
    var k1 := SetTask(k, t, k.task[t].(winfo := Wercd(er))).(tmev := k.tmev - {t});
    assert Awake(k, t, er) == MakeActive(k1, t);
    NothingHeld(k, t);
    CoreReady(k);
    hide Core, MakeActive;
    CeilingsSame(k, k1);
    FreshEntry(k1, t);
  }

  lemma {:induction false} AwakeAllCeilings(k: K, ts: seq<nat>, er: Er)
    requires Core(k, {}) && Ceilings(k)
    ensures Ceilings(AwakeAll(k, ts, er))
    decreases |ts|
  {
    if ts != [] {
      if ts[0] < |k.task| && k.task[ts[0]].stat.Waiting? {
        AwakeCore(k, ts[0], er, {});
        AwakeCeilings(k, ts[0], er);
        AwakeAllCeilings(Awake(k, ts[0], er), ts[1..], er);
      } else {
        AwakeAllCeilings(k, ts[1..], er);
      }
    }
  }

  // A runnable task that holds nothing leaves the precedence order.
  lemma LeaveCeilings(k: K, t: nat, w: Winfo, timers: set<nat>, s: Stat)
    requires Ceilings(k) && t < |k.task| == |k.pri| && k.task[t].stat.Runnable? && k.task[t].held == []
    requires PlaceOf(s) != Some(Ready) && !(s.Waiting? && (s.cause.OnMutex? || s.susp)) && !s.Suspended?
    ensures Ceilings(Move(SetTask(k, t, k.task[t].(winfo := w)).(tmev := timers), t, s, k.pri[t], false))
  {
    var k1 := SetTask(k, t, k.task[t].(winfo := w)).(tmev := timers);
    var r := Move(k1, t, s, k.pri[t], false);
    CeilingsSame(k, k1);
    MoveFields(k1, t, s, k.pri[t], false);
    MoveQueue(k1, t, s, k.pri[t], false, Ready);
    StillNoLockWaits(k1, t, s, k.pri[t], false);
    hide Move;
    AheadWithout(k.cfg, k1.task, Q(k1, Ready), t);
    AheadSame(k.cfg, k1.task, r.task, Q(r, Ready));
  }

  // ---- locking ----

  // The heart of the theorem: the running task is ahead of every other holder, so a mutex
  // held by another task has a ceiling above the running task's base priority.
  lemma HeldElsewhere(k: K, m: nat, h: nat)
    requires Inv(k) && Ceilings(k) && !k.inint && k.run.Some? && m < |k.owner|
    requires k.owner[m] == Some(h) && k.run != Some(h)
    ensures k.task[k.run.value].bpri < CeilOf(k.cfg, m).value
  {
    var q := Q(k, Ready);
    CoreReady(k);
    assert TaskOk(k, h);
    assert m in k.task[h].held;
    assert h in q;
    var j :| 0 <= j < |q| && q[j] == h;
    assert Above(k.cfg, k.task, q[0], q[j]);
  }

  // The running task, at the head, takes a mutex and stays at the head.
  lemma AcquireCeilings(k: K, m: nat)
    requires Inv(k) && Ceilings(k) && !k.inint && k.run.Some? && m < |k.owner|
    ensures Ceilings(Settle(Take(k, k.run.value, m), k.run.value))
  {
    var t, q := k.run.value, Q(k, Ready);
    var k1 := Take(k, t, m);
    var r := Settle(k1, t);
    ReprioritizeFields(k1, t, FullPri(k1, t), true);
    AcquireQueue(k, t, m);
    hide Settle;
    forall i, j | 0 <= i < j < |q| ensures Above(k.cfg, r.task, q[i], q[j]) {
      assert Above(k.cfg, k.task, q[i], q[j]);
    }
  }

  lemma AcquireQueue(k: K, t: nat, m: nat)
    requires Inv(k) && Dspflg(k) && !k.inint && k.run == Some(t) && m < |k.owner|
    ensures var r := Settle(Take(k, t, m), t);
            Q(r, Ready) == Q(k, Ready) && Q(k, Ready) != [] && Q(k, Ready)[0] == t && Distinct(Q(k, Ready))
            && forall n: nat :: Q(r, Lock(n)) == Q(k, Lock(n))
  {
    var k1, q := Take(k, t, m), Q(k, Ready);
    var r := Settle(k1, t);
    assert Linked(k, Ready);
    if FullPri(k1, t) != k.pri[t] {
      var pri := k.pri[t := FullPri(k1, t)];
      assert TaskOk(k, t);
      assert ([m] + k.task[t].held)[1..] == k.task[t].held;
      assert pri[t] < k.pri[t];
      assert Q(r, Ready) == InsertFirst(pri, q[1..], t);
      assert q[1..] != [] ==> k.pri[t] <= At(k.pri, q[1]) && q[1] != t;
      assert Slot(pri, q[1..], At(pri, t) - 1) == 0;
      assert [] + [t] + q[1..] == q;
    }
  }

  // ---- unlocking ----

  // A holder behind t has a current priority below t's base priority.
  lemma HolderLow(k: K, t: nat, x: nat)
    requires Core(k, {}) && AllCeilings(k.cfg) && Above(k.cfg, k.task, t, x)
    requires k.task[x].held != [] && !k.task[x].stat.Dormant?
    ensures k.task[t].bpri < k.pri[x]
  {
    assert TaskOk(k, x);
    var m := k.task[x].held[0];
    assert m in k.task[x].held;
    assert CeilOf(k.cfg, m).Some?;
    CalcAbove(k.cfg, k.task[x].bpri, k.task[x].held, k.task[t].bpri);
  }

  // The running task t has one mutex less and the lower priority p; x is the i-th behind it.
  lemma LoweredPair(k: K, t: nat, p: nat, task: seq<Task>, h: seq<nat>, i: nat)
    requires Core(k, {}) && Ceilings(k) && 0 < i < |Q(k, Ready)| && Q(k, Ready)[0] == t && t < |k.task|
    requires p <= k.task[t].bpri && (forall m :: m in h && CeilOf(k.cfg, m).Some? ==> p <= CeilOf(k.cfg, m).value)
    requires task == k.task[t := k.task[t].(held := h)]
    ensures var x := Q(k, Ready)[i]; x != t && Above(k.cfg, task, t, x) && (At(k.pri, x) < p ==> Above(k.cfg, task, x, t))
  {
    var q, x := Q(k, Ready), Q(k, Ready)[i];
    CoreReady(k);
    assert x in q && q[0] != q[i];
    assert Above(k.cfg, k.task, q[0], q[i]);
    if At(k.pri, x) < p {
      if k.task[x].held != [] { HolderLow(k, t, x); } else { NothingHeld(k, x); }
    }
  }

  lemma LoweredOthers(k: K, t: nat, task: seq<Task>, h: seq<nat>, i: nat, j: nat)
    requires Core(k, {}) && Ceilings(k) && 0 < i < j < |Q(k, Ready)| && Q(k, Ready)[0] == t && t < |k.task|
    requires task == k.task[t := k.task[t].(held := h)]
    ensures Above(k.cfg, task, Q(k, Ready)[i], Q(k, Ready)[j])
  {
    var q := Q(k, Ready);
    CoreReady(k);
    assert q[0] != q[i] && q[0] != q[j];
    assert Above(k.cfg, k.task, q[i], q[j]);
  }

  // It is put ahead of its equals.
  lemma LoweredAhead(k: K, t: nat, p: nat, task: seq<Task>, h: seq<nat>)
    requires Core(k, {}) && Ceilings(k) && Q(k, Ready) != [] && Q(k, Ready)[0] == t && t < |k.task| == |k.pri|
    requires p <= k.task[t].bpri && (forall m :: m in h && CeilOf(k.cfg, m).Some? ==> p <= CeilOf(k.cfg, m).value)
    requires task == k.task[t := k.task[t].(held := h)]
    ensures Ahead(k.cfg, task, InsertFirst(k.pri[t := p], Q(k, Ready)[1..], t))
  {
    hide Core, Ceilings, Above, Q;
    var q, pri := Q(k, Ready), k.pri[t := p];
    var rest := q[1..];
    var n := Slot(pri, rest, At(pri, t) - 1);
    forall i | 0 <= i < |rest| ensures Above(k.cfg, task, t, rest[i]) && (i < n ==> Above(k.cfg, task, rest[i], t)) {
      LoweredPair(k, t, p, task, h, i + 1);
    }
    forall i, j | 0 <= i < j < |rest| ensures Above(k.cfg, task, rest[i], rest[j]) {
      LoweredOthers(k, t, task, h, i + 1, j + 1);
    }
    AheadInsert(k.cfg, task, rest, n, t);
  }

  lemma HandOverFree(k: K, m: nat)
    requires |k.task| == |k.pri| && m < |k.owner| && Q(k, Lock(m)) == []
    ensures HandOver(k, m) == k.(owner := k.owner[m := None])
  {
  }

  lemma UnlockCeilings(k: K, t: nat, m: nat)
    requires Inv(k) && Ceilings(k) && !k.inint && k.run == Some(t) && m < |k.owner|
    ensures Ceilings(Release(k, t, m))
  {
    var h := Without(k.task[t].held, m);
    var k1 := Untake(k, t, m);
    var p := FullPri(k1, t);
    var r1 := Settle(k1, t);
    assert Linked(k, Ready);
    assert Q(k, Ready)[0] == t;
    ReprioritizeFields(k1, t, p, true);
    WithoutSubset(k.task[t].held, m);
    CalcPriorityBound(k.cfg, k.task[t].bpri, h);
    CalcBelowCeilings(k.cfg, k.task[t].bpri, h);
    if p == k.pri[t] {
      AheadSame(k.cfg, k.task, k1.task, Q(k, Ready));
    } else {
      LoweredAhead(k, t, p, k1.task, h);
      assert Q(r1, Ready) == InsertFirst(k.pri[t := p], Q(k, Ready)[1..], t);
    }
    forall n: nat ensures Q(r1, Lock(n)) == [] { assert Q(k, Lock(n)) == []; }
    HandOverFree(r1, m);
    FreedCeilings(k, r1, Release(k, t, m), t);
  }

  lemma FreedCeilings(k: K, r1: K, r: K, t: nat)
    requires Ceilings(k) && t < |k.task| && r1 == k.(task := r1.task, queue := r1.queue, pri := r1.pri)
    requires |r1.task| == |k.task| && r1.task == k.task[t := k.task[t].(held := r1.task[t].held)]
    requires k.task[t].stat.Runnable?
    requires Ahead(k.cfg, r1.task, Q(r1, Ready)) && NoLockWaits(r1) && r == r1.(owner := r.owner)
    ensures Ceilings(r)
  {
  }

  // ---- termination ----

  // One mutex of a chain becomes free when nobody waits for any mutex.
  lemma PassOnFree(k: K, t: nat, ms: seq<nat>)
    requires t < |k.task| == |k.pri| && NoLockWaits(k) && ms != []
    ensures var k1 := SetTask(k, t, k.task[t].(held := ms[1..]));
            var r := if ms[0] < |k.owner| then HandOver(k1, ms[0]) else k1;
            r == k.(task := k.task[t := k.task[t].(held := ms[1..])], owner := r.owner) && |r.owner| == |k.owner| && NoLockWaits(r)
  {
    var k1 := SetTask(k, t, k.task[t].(held := ms[1..]));
    assert Q(k, Lock(ms[0])) == [];
    if ms[0] < |k.owner| { HandOverFree(k1, ms[0]); }
    forall m: nat ensures Q(k1, Lock(m)) == [] { assert Q(k, Lock(m)) == []; }
  }

  lemma {:induction false} ReleaseAllFree(k: K, t: nat, ms: seq<nat>)
    requires t < |k.task| == |k.pri| && NoLockWaits(k) && k.task[t].held == ms
    ensures var r := ReleaseAll(k, t, ms); r == k.(task := k.task[t := k.task[t].(held := [])], owner := r.owner)
    decreases |ms|
  {
    if ms != [] {
      PassOnFree(k, t, ms);
      var k1 := SetTask(k, t, k.task[t].(held := ms[1..]));
      var k2 := if ms[0] < |k.owner| then HandOver(k1, ms[0]) else k1;
      hide HandOver, NoLockWaits;
      ReleaseAllFree(k2, t, ms[1..]);
      assert k2.task[t := k2.task[t].(held := [])] == k.task[t := k.task[t].(held := [])];
    } else {
      assert k.task[t := k.task[t].(held := [])] == k.task;
    }
  }

  // The state of the queues after a termination, before a possible restart.
  lemma DormantQueues(k: K, t: nat)
    requires Core(k, {}) && NoLockWaits(k) && t < |k.task|
    ensures var k1 := Quiesce(k, t); var r := MakeDormant(ReleaseAll(k1, t, k1.task[t].held), t);
            && r.queue == Leave(k, t) && NoLockWaits(r) && r.cfg == k.cfg && Dspflg(r) == Dspflg(k)
            && |r.task| == |k.task| && r.task == k.task[t := r.task[t]] && r.task[t].stat == Dormant && r.task[t].held == []
  {
    var k0, k1 := k.(tmev := k.tmev - {t}), Quiesce(k, t);
    MoveFields(k0, t, Dormant, k.pri[t], false);
    assert forall m: nat :: Q(k0, Lock(m)) == Q(k, Lock(m));
    StillNoLockWaits(k0, t, Dormant, k.pri[t], false);
    ReleaseAllFree(k1, t, k1.task[t].held);
    assert k1.queue == Leave(k, t);
    hide Quiesce, ReleaseAll;
    var r := MakeDormant(ReleaseAll(k1, t, k1.task[t].held), t);
    assert forall m: nat :: Q(r, Lock(m)) == Q(k1, Lock(m));
  }

  lemma DormantCore(k: K, t: nat)
    requires Core(k, {}) && t < |k.task|
    ensures var k1 := Quiesce(k, t); Core(MakeDormant(ReleaseAll(k1, t, k1.task[t].held), t), {})
  {
    assert TaskOk(k, t);
    QuiesceCore(k, t);
    ReleaseAllCore(Quiesce(k, t), t, k.task[t].held);
    MakeDormantCore(ReleaseAll(Quiesce(k, t), t, k.task[t].held), t);
  }

  lemma DormantCeilings(k: K, t: nat)
    requires Core(k, {}) && Ceilings(k) && t < |k.task|
    ensures var k1 := Quiesce(k, t); Ceilings(MakeDormant(ReleaseAll(k1, t, k1.task[t].held), t))
  {
    var k1 := Quiesce(k, t);
    var r := MakeDormant(ReleaseAll(k1, t, k1.task[t].held), t);
    DormantQueues(k, t);
    CoreReady(k);
    hide Quiesce, ReleaseAll, MakeDormant, Core;
    GoneAhead(k, t, r.task, Q(r, Ready));
  }

  lemma GoneAhead(k: K, t: nat, task: seq<Task>, q: seq<nat>)
    requires ReadyOk(k) && Ceilings(k) && t < |k.task| && |task| == |k.task|
    requires forall x :: 0 <= x < |task| && x != t ==> task[x].bpri == k.task[x].bpri && task[x].held == k.task[x].held
    requires q == Q(k, Ready) || q == Without(Q(k, Ready), t)
    requires k.task[t].stat.Runnable? ==> q == Without(Q(k, Ready), t)
    ensures Ahead(k.cfg, task, q)
  {
    WithoutMembers(Q(k, Ready), t);
    AheadWithout(k.cfg, k.task, Q(k, Ready), t);
    AheadSame(k.cfg, k.task, task, q);
  }

  lemma TerminateCeilings(k: K, t: nat)
    requires Core(k, {}) && Ceilings(k) && t < |k.task|
    ensures Ceilings(Terminate(k, t))
  {
    DormantCeilings(k, t);
    DormantCore(k, t);
    var k1 := Quiesce(k, t);
    var k3 := MakeDormant(ReleaseAll(k1, t, k1.task[t].held), t);
    RestartCeilings(k3, t);
  }

  lemma RestartCeilings(k: K, t: nat)
    requires Core(k, {}) && Ceilings(k) && t < |k.task| && k.task[t].stat.Dormant?
    ensures Ceilings(if k.task[t].actque then MakeActive(SetTask(k, t, k.task[t].(actque := false)), t) else k)
  {
    var k4 := SetTask(k, t, k.task[t].(actque := false));
    assert TaskOk(k, t);
    FlagsCore(k, t, k.task[t].(actque := false));
    CoreReady(k4);
    CeilingsSame(k, k4);
    FreshEntry(k4, t);
  }

  // ---- every disciplined call keeps the discipline's invariant ----

  lemma DispatchCeilings(k: K)
    requires Ceilings(k)
    ensures Ceilings(Dispatch(k))
  {
    CeilingsSame(k, Dispatch(k));
  }

  lemma FlagsCeilings(k: K, t: nat, a: Task)
    requires Ceilings(k) && t < |k.task|
    requires a == k.task[t].(actque := a.actque, wupque := a.wupque, raster := a.raster, enater := a.enater)
    ensures Ceilings(SetTask(k, t, a))
  {
    CeilingsSame(k, SetTask(k, t, a));
  }

  lemma ActTskCeilings(k: K, t: nat)
    requires Inv(k) && Ceilings(k)
    ensures Ceilings(AfterActTsk(k, t).k)
  {
    if t < |k.task| {
      FlagsCeilings(k, t, k.task[t].(actque := true));
      if k.task[t].stat.Dormant? {
        assert TaskOk(k, t);
        CoreReady(k);
        FreshEntry(k, t);
        DispatchCeilings(MakeActive(k, t));
      }
    }
  }

  lemma EndCeilings(k: K, t: nat)
    requires Core(k, {}) && Ceilings(k) && t < |k.task|
    ensures Ceilings(Dispatch(Terminate(k, t)))
  {
    TerminateCeilings(k, t);
    DispatchCeilings(Terminate(k, t));
  }

  lemma RequestCeilings(k: K, t: nat)
    requires Inv(k) && Ceilings(k) && t < |k.task| && !k.task[t].stat.Dormant?
    ensures Ceilings(RequestTermination(k, t).k)
  {
    var x := k.task[t];
    if x.stat.Runnable? {
      FlagsCeilings(k, t, x.(raster := true));
    } else {
      var x1 := x.(raster := true, winfo := if x.stat.Waiting? then Wercd(E_RASTER) else x.winfo);
      var k1 := SetTask(k, t, x1).(tmev := k.tmev - {t});
      NothingHeld(k, t);
      CoreReady(k);
      CeilingsSame(k, k1);
      hide Core, Inv;
      FreshEntry(k1, t);
      DispatchCeilings(MakeActive(k1, t));
    }
  }

  lemma TermCeilings(k: K, t: nat)
    requires Inv(k) && Ceilings(k)
    ensures Ceilings(AfterTerTsk(k, t).k) && Ceilings(AfterRasTer(k, t).k)
  {
    if t < |k.task| && !k.task[t].stat.Dormant? {
      hide Ceilings, Terminate, RequestTermination;
      EndCeilings(k, t);
      RequestCeilings(k, t);
    }
  }

  lemma WakeCeilings(k: K, t: nat, o: nat)
    requires Inv(k) && Ceilings(k)
    ensures Ceilings(AfterWupTsk(k, t).k) && Ceilings(AfterRelWai(k, t).k)
  {
    if t < |k.task| {
      FlagsCeilings(k, t, k.task[t].(wupque := true));
      if k.task[t].stat.Waiting? {
        AwakeCeilings(k, t, E_OK);
        DispatchCeilings(Awake(k, t, E_OK));
        AwakeCeilings(k, t, E_RLWAI);
        DispatchCeilings(Awake(k, t, E_RLWAI));
      }
    }
  }

  lemma EventCeilings(k: K, t: nat, o: nat)
    requires Inv(k) && Ceilings(k)
    ensures Ceilings(AfterWakeWaiter(k, o, t).k) && Ceilings(TimeoutEvent(k, t)) && Ceilings(AfterInitObject(k, o).k)
  {
    if t < |k.task| && k.task[t].stat.Waiting? {
      var er := if k.task[t].stat.cause.Delay? then E_OK else E_TMOUT;
      AwakeCeilings(k, t, er);
      AwakeCeilings(k, t, E_OK);
      DispatchCeilings(Awake(k, t, E_OK));
    }
    AwakeAllCeilings(k, Q(k, Object(o)), E_DLT);
    DispatchCeilings(AwakeAll(k, Q(k, Object(o)), E_DLT));
  }

  lemma BlockCeilings(k: K, c: Cause, timed: bool)
    requires Inv(k) && Ceilings(k) && k.run.Some? && k.task[k.run.value].held == [] && !c.OnMutex?
    ensures Ceilings(Block(k, c, timed).k)
  {
    var t := k.run.value;
    LeaveCeilings(k, t, Tmevtb(timed), if timed then k.tmev + {t} else k.tmev, Waiting(c, false));
    DispatchCeilings(BeginWait(k, t, c, timed));
  }

  lemma SlpCeilings(k: K, tmo: Tmo)
    requires Inv(k) && Ceilings(k) && k.run.Some? && k.task[k.run.value].held == []
    ensures Ceilings(AfterSlpTsk(k, tmo).k)
  {
    BlockCeilings(k, Sleep, tmo.Timed?);
    FlagsCeilings(k, k.run.value, k.task[k.run.value].(wupque := false));
  }

  lemma ObjectWaitCeilings(k: K, o: nat, tmo: Tmo)
    requires Inv(k) && Ceilings(k) && k.run.Some? && k.task[k.run.value].held == []
    ensures Ceilings(AfterDlyTsk(k).k) && Ceilings(AfterWaitObject(k, o, tmo).k)
  {
    BlockCeilings(k, Delay, true);
    BlockCeilings(k, OnObject(o), tmo.Timed?);
  }

  // A lock request is decided at once: refused, granted, or an error because the mutex is already the caller's.
  lemma LockDecides(k: K, m: nat, blocked: Res)
    requires Inv(k) && Ceilings(k) && k.run.Some? && m < |k.owner| && !k.inint
    ensures LockOrElse(k, m, blocked)
            == if !CauseAllows(k.cfg, k.task[k.run.value].bpri, Waiting(OnMutex(m), false)) then Ret(E_ILUSE, k)
               else if k.owner[m].None? then Ret(E_OK, Settle(Take(k, k.run.value, m), k.run.value))
               else Ret(E_OBJ, k)
  {
    if k.owner[m].Some? && k.owner[m] != k.run { HeldElsewhere(k, m, k.owner[m].value); }
  }

  lemma LockCeilings(k: K, m: nat, tmo: Tmo)
    requires Inv(k) && Ceilings(k) && k.run.Some?
    ensures Ceilings(AfterLocMtx(k, m, tmo).k) && Ceilings(AfterPlocMtx(k, m).k)
    ensures !AfterLocMtx(k, m, tmo).out.Blocks?
  {
    if m < |k.owner| && !k.inint {
      LockDecides(k, m, if tmo.Poll? then Ret(E_TMOUT, k) else Block(k, OnMutex(m), tmo.Timed?));
      LockDecides(k, m, Ret(E_TMOUT, k));
      AcquireCeilings(k, m);
    }
  }

  lemma UnlMtxCeilings(k: K, m: nat)
    requires Inv(k) && Ceilings(k) && k.run.Some?
    ensures Ceilings(AfterUnlMtx(k, m).k)
  {
    if !k.inint && m < |k.owner| {
      UnlockCeilings(k, k.run.value, m);
      DispatchCeilings(Release(k, k.run.value, m));
    }
  }

  lemma OwnTermCeilings(k: K)
    requires Inv(k) && Ceilings(k) && k.run.Some?
    ensures Ceilings(AfterExtTsk(k).k) && Ceilings(AfterDisTer(k).k) && Ceilings(AfterEnaTer(k).k)
  {
    var t := k.run.value;
    EndCeilings(k, t);
    assert k.(enadsp := true, ipmAll := true) == k;
    FlagsCeilings(k, t, k.task[t].(enater := false));
    FlagsCeilings(k, t, k.task[t].(enater := true));
  }

  lemma TaskStepCeilings(k: K, c: Call)
    requires Inv(k) && Ceilings(k) && k.run.Some? && Disciplined(k, c)
    ensures Ceilings(TaskStep(k, c).k)
  {
    hide Inv, Ceilings, AfterSlpTsk, AfterLocMtx, AfterPlocMtx, AfterUnlMtx, AfterDlyTsk, AfterWaitObject, AfterDisTer, AfterEnaTer, AfterChgIpm, AfterExtTsk, AfterEnaDsp;
    match c
    case SlpTsk(tmo) => SlpCeilings(k, tmo);
    case LocMtx(m, tmo) => LockCeilings(k, m, tmo);
    case PlocMtx(m) => LockCeilings(k, m, Poll);
    case UnlMtx(m) => UnlMtxCeilings(k, m);
    case DlyTsk => ObjectWaitCeilings(k, 0, Poll);
    case WaitObject(o, tmo) => ObjectWaitCeilings(k, o, tmo);
    case DisTer => OwnTermCeilings(k);
    case EnaTer => OwnTermCeilings(k);
    case ExtTsk => OwnTermCeilings(k);
    case _ =>
  }

  lemma InterruptCeilings(k: K)
    requires Ceilings(k)
    ensures Ceilings(k.(inint := true)) && Ceilings(Dispatch(k.(inint := false)))
  {
    CeilingsSame(k, k.(inint := true));
    CeilingsSame(k, k.(inint := false));
    DispatchCeilings(k.(inint := false));
  }

  lemma StepCeilings(k: K, c: Call)
    requires Inv(k) && Ceilings(k) && Enabled(k, c) && Disciplined(k, c)
    ensures Ceilings(Step(k, c).k)
  {
    hide Inv, Ceilings, TaskStep, AfterActTsk, AfterChgPri, AfterTerTsk, AfterRasTer, AfterRotRdq, AfterWupTsk, AfterSusTsk, AfterRsmTsk,
      AfterRelWai, AfterWakeWaiter, TimeoutEvent, AfterInitObject, AfterIniMtx, AfterDisDsp, Dispatch, AfterSlpTsk, AfterLocMtx;
    match c
    case ActTsk(t) => ActTskCeilings(k, t);
    case TerTsk(t) => TermCeilings(k, t);
    case RasTer(t) => TermCeilings(k, t);
    case WupTsk(t) => WakeCeilings(k, t, 0);
    case RelWai(t) => WakeCeilings(k, t, 0);
    case WakeWaiter(o, t) => EventCeilings(k, t, o);
    case Timeout(t) => EventCeilings(k, t, 0);
    case InitObject(o) => EventCeilings(k, 0, o);
    case EnterInterrupt => InterruptCeilings(k);
    case ExitInterrupt => InterruptCeilings(k);
    case _ => if k.run.Some? { DisciplinedInv(k); TaskStepCeilings(k, c); }
  }

  lemma DisciplinedInv(k: K)
    requires Inv(k)
    ensures Shaped(k)
  {
  }

  // ---- the theorem ----

  ghost predicate DisciplinedRun(k: K, calls: seq<Call>)
    decreases |calls|
  {
    calls == [] ||
    (Shaped(k) && Enabled(k, calls[0]) && Disciplined(k, calls[0]) && DisciplinedRun(Step(k, calls[0]).k, calls[1..]))
  }

  lemma {:induction false} DisciplinedRunKeeps(k: K, calls: seq<Call>)
    requires Inv(k) && Ceilings(k) && DisciplinedRun(k, calls)
    ensures Exec(k, calls).Some? && Inv(Exec(k, calls).value) && Ceilings(Exec(k, calls).value)
    decreases |calls|
  {
    if calls != [] {
      StepInv(k, calls[0]);
      StepCeilings(k, calls[0]);
      hide Inv, Ceilings, Step, Enabled, Disciplined, Shaped;
      DisciplinedRunKeeps(Step(k, calls[0]).k, calls[1..]);
    }
  }

  // In every disciplined run loc_mtx never waits, whatever mutex it is asked for, and so no
  // task ever waits for a mutex: neither blocking nor deadlock on mutexes can occur.
  lemma CeilingTheorem(cfg: Config, calls: seq<Call>, k: K)
    requires ConfigOk(cfg) && |cfg.noactque| == |cfg.ipri| && AllCeilings(cfg)
    requires DisciplinedRun(Initial(cfg), calls) && Exec(Initial(cfg), calls) == Some(k)
    ensures Shaped(k) && (k.run.Some? ==> forall m, tmo :: !AfterLocMtx(k, m, tmo).out.Blocks?)
    ensures forall t: nat, m: nat :: t < |k.task| ==> !WaitsForMutex(k.task[t].stat, m)
  {
    InitialInv(cfg);
    DisciplinedRunKeeps(Initial(cfg), calls);
    if k.run.Some? {
      forall m, tmo ensures !AfterLocMtx(k, m, tmo).out.Blocks? { LockCeilings(k, m, tmo); }
    }
    forall t: nat, m: nat | t < |k.task| ensures !WaitsForMutex(k.task[t].stat, m) {
      assert Linked(k, Lock(m));
      assert Q(k, Lock(m)) == [];
    }
  }
}
