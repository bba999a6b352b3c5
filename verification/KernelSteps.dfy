/** The plain state machine's building blocks taken apart into the single updates that the kernel's
    routines perform, in the order they perform them. */
module KernelSteps {
  import opened Options
  import opened PriorityLists
  import opened ReadyQueues
  import opened KernelState
  import opened KernelCalls
  import opened KernelInvariant
  import opened KernelSafety

  // Scanning the chain from its newest mutex with a running minimum.
  lemma {:induction false} CalcPriorityFrom(cfg: Config, p: nat, c: nat, held: seq<nat>)
    ensures CalcPriority(cfg, if c < p then c else p, held)
            == if c < CalcPriority(cfg, p, held) then c else CalcPriority(cfg, p, held)
  {
    if held != [] { CalcPriorityFrom(cfg, p, c, held[1..]); }
  }

  // ---- the building blocks of KernelState, step by step as the routines perform them ----

  function SetStat(k: K, t: nat, s: Stat): K
    requires t < |k.task|
  {
    SetTask(k, t, k.task[t].(stat := s))
  }

  function SetWinfo(k: K, t: nat, w: Winfo): K
    requires t < |k.task|
  {
    SetTask(k, t, k.task[t].(winfo := w))
  }

  function Unlink(k: K, t: nat): K
    requires t < |k.task|
  {
    k.(queue := Leave(k, t))
  }

  function Append(k: K, pl: Place, t: nat): K {
    k.(queue := k.queue[pl := if ByPriority(k.cfg, pl) then InsertLast(k.pri, Q(k, pl), t) else Q(k, pl) + [t]])
  }

  lemma SamePri(k: K, t: nat)
    requires t < |k.pri|
    ensures k.pri[t := k.pri[t]] == k.pri
  {
  }

  lemma MoveSteps(k: K, t: nat, s: Stat)
    requires t < |k.task| == |k.pri|
    ensures var k1 := SetStat(Unlink(k, t), t, s);
            Move(k, t, s, k.pri[t], false) == if PlaceOf(s).Some? then Append(k1, PlaceOf(s).value, t) else k1
  {
    SamePri(k, t);
  }

  // The parts of a state that leaving a ring depends on.
  lemma UnlinkWinfo(k: K, t: nat, w: Winfo, timers: set<nat>)
    requires t < |k.task|
    ensures Unlink(SetWinfo(k, t, w).(tmev := timers), t) == SetWinfo(Unlink(k, t).(tmev := timers), t, w)
  {
  }

  lemma AwakeSteps(k: K, t: nat, er: Er)
    requires t < |k.task| == |k.pri| && k.task[t].stat.Waiting?
    ensures var s := AfterWait(k.task[t].stat);
            var k1 := SetStat(SetWinfo(Unlink(k, t).(tmev := k.tmev - {t}), t, Wercd(er)), t, s);
            Awake(k, t, er) == if s.Runnable? then Append(k1, Ready, t) else k1
  {
    UnlinkWinfo(k, t, Wercd(er), k.tmev - {t});
    MoveSteps(SetWinfo(k, t, Wercd(er)).(tmev := k.tmev - {t}), t, AfterWait(k.task[t].stat));
    hide Move, Unlink, Append;
  }

  lemma BeginWaitSteps(k: K, t: nat, c: Cause, timed: bool)
    requires t < |k.task| == |k.pri|
    ensures var s, timers := Waiting(c, false), if timed then k.tmev + {t} else k.tmev;
            var k1 := SetStat(SetWinfo(Unlink(k, t).(tmev := timers), t, Tmevtb(timed)), t, s);
            BeginWait(k, t, c, timed) == if PlaceOf(s).Some? then Append(k1, PlaceOf(s).value, t) else k1
  {
    var timers := if timed then k.tmev + {t} else k.tmev;
    UnlinkWinfo(k, t, Tmevtb(timed), timers);
    MoveSteps(SetWinfo(k, t, Tmevtb(timed)).(tmev := timers), t, Waiting(c, false));
    hide Move, Unlink, Append;
  }

  // Taking t out of the precedence order, whatever its state field says already.
  function Unready(k: K, t: nat): K {
    k.(queue := k.queue[Ready := Without(Q(k, Ready), t)])
  }

  lemma UnreadyStat(k: K, t: nat, s: Stat)
    requires t < |k.task| && k.task[t].stat.Runnable?
    ensures Unready(SetStat(k, t, s), t) == SetStat(Unlink(k, t), t, s)
  {
  }

  // The new place of t in a ring after its priority changed.
  function Requeue(k: K, pl: Place, t: nat, front: bool): K {
    var q := Without(Q(k, pl), t);
    k.(queue := k.queue[pl := if front then InsertFirst(k.pri, q, t) else InsertLast(k.pri, q, t)])
  }

  lemma ReprioritizeSteps(k: K, t: nat, p: nat, front: bool)
    requires t < |k.task| == |k.pri|
    ensures var k1, pl := k.(pri := k.pri[t := p]), PlaceOf(k.task[t].stat);
            Reprioritize(k, t, p, front)
            == if pl.Some? && ByPriority(k.cfg, pl.value) then Requeue(k1, pl.value, t, front && pl.value == Ready) else k1
  {
    var k1, pl := k.(pri := k.pri[t := p]), PlaceOf(k.task[t].stat);
    ReprioritizeFields(k, t, p, front);
    if pl.Some? && ByPriority(k.cfg, pl.value) {
      var q := Without(Q(k, pl.value), t);
      var x := if front && pl.value == Ready then InsertFirst(k1.pri, q, t) else InsertLast(k1.pri, q, t);
      assert k.queue[pl.value := q][pl.value := x] == k.queue[pl.value := x];
    }
  }

  lemma SetTwice<T>(s: seq<T>, t: nat, a: T, b: T)
    requires t < |s|
    ensures s[t := a][t := b] == s[t := b]
  {
  }

  // make_wait: the state field first, then the ready queue, then the wait information.
  lemma WaitSteps(k: K, t: nat, c: Cause, timed: bool)
    requires t < |k.task| == |k.pri| && k.task[t].stat.Runnable?
    ensures var s, timers := Waiting(c, false), if timed then k.tmev + {t} else k.tmev;
            var k1 := SetWinfo(Unready(SetStat(k, t, s), t), t, Tmevtb(timed)).(tmev := timers);
            BeginWait(k, t, c, timed) == if PlaceOf(s).Some? then Append(k1, PlaceOf(s).value, t) else k1
  {
    var s, x := Waiting(c, false), k.task[t];
    BeginWaitSteps(k, t, c, timed);
    UnreadyStat(k, t, s);
    SetTwice(k.task, t, x.(stat := s), x.(stat := s, winfo := Tmevtb(timed)));
    SetTwice(k.task, t, x.(winfo := Tmevtb(timed)), x.(stat := s, winfo := Tmevtb(timed)));
    hide Unready, Unlink, Append, BeginWait;
  }

  lemma OverwriteReady(w: map<Place, seq<nat>>, a: seq<nat>, b: seq<nat>)
    ensures w[Ready := a][Ready := b] == w[Ready := b] && Ready in w[Ready := a] && w[Ready := a][Ready] == a
  {
  }

  // ---- mutexes ----

  // The first waiter of m, if any, is as a waiter should be.
  ghost predicate Grantable(k: K, m: nat) {
    Q(k, Lock(m)) != [] ==>
      var t := Q(k, Lock(m))[0];
      && t < |k.task| == |k.pri| && m < |k.owner| && WaitsForMutex(k.task[t].stat, m) && k.pri[t] == FullPri(k, t)
      && k.task[t].winfo.Tmevtb? && (k.task[t].winfo.registered <==> t in k.tmev)
      && t !in Q(k, Ready)
  }

  lemma FirstWaiter(k: K, m: nat, ys: set<nat>)
    requires Core(k, ys) && m < |k.owner|
    requires forall t: nat :: t in ys && t < |k.task| ==> !k.task[t].stat.Waiting?
    ensures Grantable(k, m)
  {
    if Q(k, Lock(m)) != [] {
      var t := Q(k, Lock(m))[0];
      assert Linked(k, Lock(m)) && Linked(k, Ready);
      assert t in Q(k, Lock(m));
      assert TaskOk(k, t);
    }
  }

  // The waiter has the mutex: E_OK, on its chain, its priority raised.
  function Grant(k: K, t: nat, m: nat): K
    requires t < |k.task| == |k.pri| && m < |k.owner|
  {
    var k1 := Take(SetWinfo(k, t, Wercd(E_OK)), t, m);
    k1.(pri := k.pri[t := FullPri(k1, t)])
  }

  lemma HandOverSteps(k: K, m: nat)
    requires Grantable(k, m) && Q(k, Lock(m)) != []
    ensures var t := Q(k, Lock(m))[0]; var s := AfterWait(k.task[t].stat);
            var k1 := SetStat(Grant(Unlink(k, t).(tmev := k.tmev - {t}), t, m), t, s);
            HandOver(k, m) == if s.Runnable? then Append(k1, Ready, t) else k1
  {
    var t := Q(k, Lock(m))[0];
    var s := AfterWait(k.task[t].stat);
    var k1 := Take(SetWinfo(k, t, Wercd(E_OK)).(tmev := k.tmev - {t}), t, m);
    MoveFields(k1, t, s, FullPri(k1, t), false);
    MoveQueue(k1, t, s, FullPri(k1, t), false, Ready);
  }

  // One more mutex on the chain: no need to look at the older ones.
  lemma TakenPriority(cfg: Config, bpri: nat, m: nat, held: seq<nat>)
    ensures var p := CalcPriority(cfg, bpri, held);
            CalcPriority(cfg, bpri, [m] + held) == if CeilOf(cfg, m).Some? && CeilOf(cfg, m).value < p then CeilOf(cfg, m).value else p
  {
    assert ([m] + held)[1..] == held;
  }

  // mutex_drop_priority's short cut: without a ceiling equal to the current priority,
  // dropping m cannot change the recomputed priority.
  lemma {:induction false} DroppedPriority(cfg: Config, bpri: nat, m: nat, held: seq<nat>)
    requires m in held
    ensures var p := CalcPriority(cfg, bpri, Without(held, m));
            CalcPriority(cfg, bpri, held) == if CeilOf(cfg, m).Some? && CeilOf(cfg, m).value < p then CeilOf(cfg, m).value else p
  {
    if held[0] != m {
      DroppedPriority(cfg, bpri, m, held[1..]);
      assert Without(held, m)[1..] == Without(held[1..], m);
    }
  }

  // t is being terminated and has mutexes to pass on.
  ghost predicate Chained(k: K, t: nat) {
    Core(k, {t}) && t < |k.task| && k.task[t].stat.Dormant? && HeldOk(k.owner, t, k.task[t].held)
  }

  lemma ReleaseAllStep(k: K, t: nat)
    requires Chained(k, t) && k.task[t].held != []
    ensures var ms := k.task[t].held; var k1 := SetTask(k, t, k.task[t].(held := ms[1..]));
            && ms[0] < |k.owner| && Grantable(k1, ms[0])
            && Chained(HandOver(k1, ms[0]), t) && HandOver(k1, ms[0]).task[t].held == ms[1..]
            && ReleaseAll(HandOver(k1, ms[0]), t, ms[1..]) == ReleaseAll(k, t, ms)
  {
    var ms := k.task[t].held;
    PassOnCore(k, t, ms);
    var k1 := SetTask(k, t, k.task[t].(held := ms[1..]));
    FieldsCore(k, k1, t, {t});
    FirstWaiter(k1, ms[0], {t});
  }

  lemma AwakeAllStep(k: K, pl: Place, er: Er)
    requires Core(k, {}) && pl != Ready && Q(k, pl) != []
    ensures var t := Q(k, pl)[0];
            && t < |k.task| && k.task[t].stat.Waiting? && k.task[t].winfo.Tmevtb? && (k.task[t].winfo.registered <==> t in k.tmev)
            && Core(Awake(k, t, er), {}) && |Q(Awake(k, t, er), pl)| < |Q(k, pl)|
            && AwakeAll(Awake(k, t, er), Q(Awake(k, t, er), pl), er) == AwakeAll(k, Q(k, pl), er)
  {
    var t := Q(k, pl)[0];
    AwakeHead(k, pl, er);
    AwakeCore(k, t, er, {});
    assert TaskOk(k, t);
  }

  // Skipping the more urgent entries reaches the head of ready queue p.
  lemma RotateTarget(pri: seq<nat>, ready: seq<seq<nat>>, p: nat)
    requires Bucketed(pri, ready) && p < |ready|
    ensures var above: int := p; var n := Slot(pri, Flat(ready), above - 1);
            if ready[p] == [] then n < |Flat(ready)| ==> At(pri, Flat(ready)[n]) != p
            else n < |Flat(ready)| && Flat(ready)[n] == ready[p][0] && At(pri, ready[p][0]) == p
  {
    var a, q, b := Flat(ready[..p]), ready[p], Flat(ready[p + 1..]);
    FlatSplit(ready, p);
    FlatBounds(pri, ready, p);
    Assoc(a, q, b);
    var above: int := p;
    InsertBetween(pri, a, q + b, above - 1, 0);
    if q == [] {
      assert q + b == b;
      assert b != [] ==> b[0] in b;
    } else {
      assert q[0] in q && (a + (q + b))[|a|] == q[0];
    }
  }

  lemma RequeueSteps(k: K, t: nat)
    requires t < |k.task| == |k.pri| && k.task[t].stat.Runnable?
    ensures Move(k, t, Runnable, k.pri[t], false) == Requeue(k, Ready, t, false)
  {
    MoveFields(k, t, Runnable, k.pri[t], false);
    SamePri(k, t);
    assert k.task[t := k.task[t].(stat := Runnable)] == k.task;
    MoveQueue(k, t, Runnable, k.pri[t], false, Ready);
    var w := Without(Q(k, Ready), t);
    assert k.queue[Ready := w][Ready := InsertLast(k.pri, w, t)] == k.queue[Ready := InsertLast(k.pri, w, t)];
  }

  // rot_rdq
  lemma RotateSteps(k: K, ready: seq<seq<nat>>, p: nat)
    requires Shaped(k) && Q(k, Ready) == Flat(ready) && Bucketed(k.pri, ready) && p < |ready|
    requires ready[p] != [] ==> ready[p][0] < |k.task| && k.task[ready[p][0]].stat.Runnable?
    ensures Rotate(k, p) == if ready[p] == [] then k else Requeue(k, Ready, ready[p][0], false)
  {
    RotateTarget(k.pri, ready, p);
    if ready[p] != [] { RequeueSteps(k, ready[p][0]); }
    hide Move, Requeue, Flat;
  }

  // A task leaves every ring and timer, whatever it was doing.
  lemma QuiesceSteps(k: K, t: nat)
    requires t < |k.task| == |k.pri|
    ensures Quiesce(k, t) == SetStat(Unlink(k, t).(tmev := k.tmev - {t}), t, Dormant)
    ensures k.task[t].stat.Runnable? ==> Unlink(k, t) == Unready(k, t)
    ensures !k.task[t].stat.Runnable? && !k.task[t].stat.Waiting? ==> Unlink(k, t) == k
    ensures t !in k.tmev ==> k.tmev - {t} == k.tmev
  {
    SamePri(k, t);
  }

  // signal_time has removed the timeout block before it calls back.
  lemma TimerOff(k: K, t: nat, er: Er)
    requires t < |k.task| == |k.pri| && k.task[t].stat.Waiting?
    ensures Awake(k.(tmev := k.tmev - {t}), t, er) == Awake(k, t, er)
  {
    assert k.tmev - {t} - {t} == k.tmev - {t};
  }

  lemma TimerGone(k: K, t: nat)
    requires t < |k.task| && t !in k.tmev
    ensures Unlink(k, t).(tmev := k.tmev - {t}) == Unlink(k, t)
    ensures k.task[t].stat.Waiting? && k.task[t].stat.cause.Delay? ==> Unlink(k, t) == k
  {
    assert k.tmev - {t} == k.tmev;
  }

  lemma MakeActiveSteps(k: K, t: nat)
    requires t < |k.task| == |k.pri| && PlaceOf(k.task[t].stat).None?
    ensures MakeActive(k, t) == Append(SetStat(k, t, Runnable), Ready, t)
  {
    MoveSteps(k, t, Runnable);
  }

  // A queued activation starts the task again.
  function Restart(k: K, t: nat): K
    requires t < |k.task| == |k.pri|
  {
    if k.task[t].actque then MakeActive(SetTask(k, t, k.task[t].(actque := false)), t) else k
  }

  function Withdrawn(k: K, t: nat): K
    requires t < |k.task| == |k.pri|
  {
    var k1 := Quiesce(k, t);
    ReleaseAll(k1, t, k1.task[t].held)
  }

  // task_terminate stage by stage.
  lemma TerminateSteps(k: K, t: nat)
    requires Core(k, {}) && t < |k.task|
    ensures var k1, k2 := Quiesce(k, t), Withdrawn(k, t);
            && t < |k1.task| && t < |k2.task| && Chained(k1, t) && (k1.task[t].held == [] ==> k2 == k1)
            && Tables(k2) && t !in Q(k2, Ready) && k2.task[t].held == []
            && t < |MakeDormant(k2, t).task| && MakeDormant(k2, t).task[t].stat.Dormant? && Terminate(k, t) == Restart(MakeDormant(k2, t), t)
  {
    assert TaskOk(k, t);
    QuiesceCore(k, t);
    var k1 := Quiesce(k, t);
    ReleaseAllCore(k1, t, k1.task[t].held);
    assert Linked(ReleaseAll(k1, t, k1.task[t].held), Ready);
  }

  // ---- service calls ----

  // A wait broken off by ras_ter.
  function Aborted(k: K, t: nat): K
    requires t < |k.task|
  {
    if k.task[t].stat.Waiting? then SetWinfo(Unlink(k, t).(tmev := k.tmev - {t}), t, Wercd(E_RASTER)) else k
  }

  // ras_ter on a task that is not runnable.
  lemma RequestSteps(k: K, t: nat)
    requires Shaped(k) && t < |k.task| && !k.task[t].stat.Runnable? && !k.task[t].stat.Dormant?
    requires !k.task[t].stat.Waiting? ==> t !in k.tmev
    ensures var k0 := SetTask(k, t, k.task[t].(raster := true));
            t < |Aborted(k0, t).task|
            && RequestTermination(k, t) == Switch(Append(SetStat(Aborted(k0, t), t, Runnable), Ready, t))
  {
    var x := k.task[t];
    var k0 := SetTask(k, t, x.(raster := true));
    if x.stat.Waiting? {
      UnlinkWinfo(k0, t, Wercd(E_RASTER), k.tmev - {t});
      SetTwice(k.task, t, x.(raster := true), x.(raster := true, winfo := Wercd(E_RASTER)));
      MoveSteps(SetWinfo(k0, t, Wercd(E_RASTER)).(tmev := k.tmev - {t}), t, Runnable);
    } else {
      assert k.tmev - {t} == k.tmev;
      MoveSteps(k0, t, Runnable);
    }
    hide Move, Unlink, Append;
  }

  // Dropping a mutex whose owner field is already cleared.
  lemma SettleOwner(k: K, t: nat, owner: seq<Option<nat>>)
    requires t < |k.task| == |k.pri|
    ensures Settle(k.(owner := owner), t) == Settle(k, t).(owner := owner)
  {
    ReprioritizeSteps(k, t, FullPri(k, t), true);
    ReprioritizeSteps(k.(owner := owner), t, FullPri(k, t), true);
    hide Reprioritize, CalcPriority, ByPriority;
  }

  // ini_mtx: after the waiters are gone the mutex is dropped and stays free.
  lemma ReinitSteps(k: K, m: nat)
    requires Core(k, {}) && Shaped(k) && m < |k.owner|
    ensures var k1 := AwakeAll(k, Q(k, Lock(m)), E_DLT);
            && Core(k1, {}) && k1.owner == k.owner && k1.run == k.run
            && (k1.owner[m].Some? ==> k1.owner[m].value < |k1.task| && m in k1.task[k1.owner[m].value].held)
            && (k1.owner[m].Some? ==> !k1.task[k1.owner[m].value].stat.Dormant?)
            && Reinit(k, m) == match k1.owner[m]
                               case Some(t) => Settle(Untake(k1.(owner := k1.owner[m := None]), t, m), t)
                               case None => k1
  {
    var k1 := AwakeAll(k, Q(k, Lock(m)), E_DLT);
    AwakeAllCore(k, Q(k, Lock(m)), E_DLT);
    AwakeAllEmpties(k, Lock(m), E_DLT);
    AwakeAllCalm(k, Q(k, Lock(m)), E_DLT);
    if k1.owner[m].Some? {
      var t := k1.owner[m].value;
      assert TaskOk(k1, t);
      DropCore(k1, t, m);
      SettleOwner(Untake(k1, t, m), t, k1.owner[m := None]);
      assert Untake(k1.(owner := k1.owner[m := None]), t, m) == Untake(k1, t, m).(owner := k1.owner[m := None]);
    }
  }

  // unl_mtx: the newest mutex leaves the chain.
  lemma UnlockSteps(k: K, t: nat, m: nat)
    requires Core(k, {}) && t < |k.task| && k.task[t].stat.Runnable? && k.task[t].held != [] && k.task[t].held[0] == m
    ensures m < |k.owner| && Without(k.task[t].held, m) == k.task[t].held[1..]
    ensures Grantable(Settle(Untake(k, t, m), t), m)
  {
    assert TaskOk(k, t);
    assert m in k.task[t].held;
    DropCore(k, t, m);
    FirstWaiter(Settle(Untake(k, t, m), t), m, {t});
  }

  // The walk along a chain stops at m, or at its end.
  lemma UnlinkAt(ms: seq<nat>, i: nat, m: nat)
    requires i <= |ms| && m !in ms[..i] && (i < |ms| ==> ms[i] == m)
    ensures Without(ms, m) == if i < |ms| then ms[..i] + ms[i + 1..] else ms
  {
    assert ms == ms[..i] + ms[i..];
    WithoutSkips(ms[..i], ms[i..], m);
    assert ms[i..] == [] ==> ms[..i] == ms;
  }
}
