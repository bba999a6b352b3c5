/** The kernel's own data structures and the C routines on them: ready queues, bitmap, the cached
    task to run, wait queues, mutex chains.  Each routine is tied to the plain state machine of
    KernelState and KernelCalls by the state function St. */
module Kernel {
  import opened Options
  import opened PriorityLists
  import opened PriorityMap
  import opened ReadyQueues
  import opened KernelState
  import opened KernelCalls
  import opened KernelInvariant
  import opened KernelSafety
  import opened KernelSteps

  class Kernel {
    const cfg: Config
    var task: seq<Task>             // TCBs, without the current priority
    var pri: seq<nat>               // priority of each TCB
    var ready: seq<seq<nat>>        // ready_queue
    var primap: bv16                // ready_primap
    var sched: Option<nat>          // p_schedtsk
    var run: Option<nat>            // p_runtsk
    var enadsp: bool
    var ipmAll: bool                // the interrupt priority mask is TIPM_ENAALL
    var dspflg: bool
    var inint: bool                 // sense_context()
    var wait: map<Place, seq<nat>>  // wait_queue of every object
    var owner: seq<Option<nat>>     // p_loctsk of every mutex
    var tmev: set<nat>              // tasks whose timeout block is registered

    ghost function St(): K
      reads this`task, this`pri, this`ready, this`wait, this`owner, this`tmev, this`run, this`enadsp, this`ipmAll, this`inint
    {
      K(cfg, task, pri, wait[Ready := Flat(ready)], owner, tmev, run, enadsp, ipmAll, inint)
    }

    // initialize_task, initialize_mutex and the start of the kernel
    constructor (cfg: Config)
      requires ConfigOk(cfg) && |cfg.noactque| == |cfg.ipri|
      ensures Valid() && this.cfg == cfg && St() == Initial(cfg)
    {
      this.cfg := cfg;
      task := Initial(cfg).task;
      pri := cfg.ipri;
      ready := seq(TNUM_TPRI, _ => []);
      primap := 0;
      sched := None;
      run := None;
      enadsp, ipmAll, dspflg, inint := true, true, true, true;
      wait := map[];
      owner := Initial(cfg).owner;
      tmev := {};
      new;
      FlatEmpty(ready);
      forall p: nat | p < TNUM_TPRI ensures !HasBit(primap, p) { NoBits(p); }
      InitialInv(cfg);
    }

    // What routines look at, as parts of the state.
    lemma Fields()
      ensures St().cfg == cfg && St().task == task && St().pri == pri && St().owner == owner && St().run == run && St().tmev == tmev
      ensures St().enadsp == enadsp && St().ipmAll == ipmAll && St().inint == inint && Q(St(), Ready) == Flat(ready)
    {
    }

    // The bitmap and the queues fit together.
    ghost predicate Sane()
      reads this`task, this`pri, this`ready, this`primap, this`owner
    {
      && |pri| == |task| && |owner| == |cfg.ceil| && |ready| == TNUM_TPRI && (forall t :: 0 <= t < |pri| ==> pri[t] < TNUM_TPRI)
      && Fit(pri, ready, primap)
    }

    lemma Lengths()
      requires Sane()
      ensures |pri| == |task| && |owner| == |cfg.ceil| && |ready| == TNUM_TPRI
    {
    }

    // While dispatching is possible, p_schedtsk is what a full search would find.
    ghost predicate SchedOk()
      reads this`dspflg, this`sched, this`ready
    {
      dspflg ==> sched == Head(Flat(ready))
    }

    ghost predicate Valid()
      reads this
    {
      && Sane() && SchedOk() && dspflg == (enadsp && ipmAll) && (!dspflg ==> sched == run)
      && Inv(St())
    }

    // ---- task.c ----

    // search_schedtsk
    method SearchSchedtsk() returns (t: nat)
      requires Sane() && Flat(ready) != []
      ensures t == Flat(ready)[0]
    {
      SearchFindsHead(primap, ready);
      var schedpri := BitmapSearch(primap);
      t := ready[schedpri][0];
    }

    method MakeRunnable(t: nat)
      requires Sane() && SchedOk() && t < |pri|
      modifies this`ready, this`primap, this`sched
      ensures Sane() && SchedOk() && (!dspflg ==> sched == old(sched))
      ensures St() == Append(old(St()), Ready, t)
    {
      hide Fit, Flat, InsertLast, PrimapSet;
      AppendFits(pri, ready, primap, t);
      var p := pri[t];
      ready := ready[p := ready[p] + [t]];
      primap := PrimapSet(primap, p);
      if dspflg {
        if sched.None? || p < At(pri, sched.value) {
          sched := Some(t);
        }
      }
    }

    method MakeNonRunnable(t: nat)
      requires Sane() && SchedOk() && t < |pri| && t in Flat(ready)
      requires sched == Some(t) ==> dspflg
      modifies this`ready, this`primap, this`sched
      ensures Sane() && SchedOk() && (!dspflg ==> sched == old(sched))
      ensures St() == Unready(old(St()), t)
    {
      hide Fit, Flat, Without, PrimapClear;
      OverwriteReady(wait, Flat(ready), Without(Flat(ready), t));
      RemoveFits(pri, ready, primap, t);
      var p := pri[t];
      ready := ready[p := Without(ready[p], t)];
      if ready[p] == [] {
        primap := PrimapClear(primap, p);
        FitSearch(pri, ready, primap);
        if sched == Some(t) {
          if primap == 0 {
            sched := None;
          } else {
            var s := SearchSchedtsk();
            sched := Some(s);
          }
        }
      } else {
        if sched == Some(t) {
          sched := Some(ready[p][0]);
        }
      }
    }

    // change_priority on a runnable task: the ready queues
    method RelinkReady(t: nat, newpri: nat, mtxmode: bool)
      requires Sane() && t < |pri| && newpri < TNUM_TPRI && t in Flat(ready) && Distinct(Flat(ready))
      modifies this`pri, this`ready, this`primap
      ensures Sane() && pri == old(pri)[t := newpri]
      ensures var rest := Without(old(Flat(ready)), t);
              Flat(ready) == if mtxmode then InsertFirst(pri, rest, t) else InsertLast(pri, rest, t)
      ensures St() == Requeue(old(St()).(pri := old(pri)[t := newpri]), Ready, t, mtxmode)
    {
      hide Fit, Flat, Without, PrimapClear, PrimapSet, InsertFirst, InsertLast;
      ghost var rest := Without(Flat(ready), t);
      OverwriteReady(wait, Flat(ready), if mtxmode then InsertFirst(pri[t := newpri], rest, t) else InsertLast(pri[t := newpri], rest, t));
      RequeueFits(pri, ready, primap, t, newpri, mtxmode);
      var oldpri := pri[t];
      pri := pri[t := newpri];
      ready := ready[oldpri := Without(ready[oldpri], t)];
      if ready[oldpri] == [] {
        primap := PrimapClear(primap, oldpri);
      }
      if mtxmode {
        ready := ready[newpri := [t] + ready[newpri]];
      } else {
        ready := ready[newpri := ready[newpri] + [t]];
      }
      primap := PrimapSet(primap, newpri);
    }

    // change_priority on a runnable task: the task to run
    method UpdateSched(t: nat, oldpri: nat, newpri: nat, mtxmode: bool)
      requires Sane() && Flat(ready) != []
      requires dspflg ==> sched.Some? && HeadAfter(pri, Flat(ready)[0], sched.value, t, oldpri, newpri, mtxmode)
      modifies this`sched
      ensures SchedOk() && (!dspflg ==> sched == old(sched)) && Sane() && St() == old(St())
    {
      hide Fit, Flat;
      if dspflg {
        if sched == Some(t) {
          if newpri >= oldpri {
            var s := SearchSchedtsk();
            sched := Some(s);
          }
        } else {
          if (if mtxmode then newpri <= At(pri, sched.value) else newpri < At(pri, sched.value)) {
            sched := Some(t);
          }
        }
      }
    }

    method ChangeReadyPriority(t: nat, newpri: nat, mtxmode: bool)
      requires Sane() && SchedOk()
      requires t < |pri| && newpri < TNUM_TPRI && t in Flat(ready) && Distinct(Flat(ready))
      modifies this`pri, this`ready, this`primap, this`sched
      ensures Sane() && SchedOk() && (!dspflg ==> sched == old(sched))
      ensures St() == Requeue(old(St()).(pri := old(pri)[t := newpri]), Ready, t, mtxmode)
    {
      hide Fit, Flat, Distinct, Without, InsertFirst, InsertLast, Requeue, HeadAfter, St, Slot;
      var oldpri := pri[t];
      RequeuedHead(pri, ready, primap, t, newpri, mtxmode);
      RelinkReady(t, newpri, mtxmode);
      UpdateSched(t, oldpri, newpri, mtxmode);
    }

    // rotate_ready_queue
    method RotateReadyQueue(p: nat)
      requires Sane() && SchedOk() && p < TNUM_TPRI && Distinct(Flat(ready)) && forall t :: t in Flat(ready) ==> t < |pri|
      modifies this`ready, this`sched
      ensures Sane() && SchedOk() && (!dspflg ==> sched == old(sched))
      ensures St() == if old(ready[p]) == [] then old(St()) else Requeue(old(St()), Ready, old(ready[p][0]), false)
    {
      hide Fit, Flat, Without, InsertLast;
      if ready[p] != [] {
        RotateFits(pri, ready, primap, p);
        OverwriteReady(wait, Flat(ready), InsertLast(pri, Without(Flat(ready), ready[p][0]), ready[p][0]));
      }
      if |ready[p]| >= 2 {
        var t := ready[p][0];
        ready := ready[p := ready[p][1..] + [t]];
        if dspflg {
          if sched == Some(t) {
            sched := Some(ready[p][0]);
          }
        }
      }
    }

    // queue_insert_tpri: the for loop over the ring
    method InsertTpri(q: seq<nat>, t: nat) returns (r: seq<nat>)
      requires t < |pri|
      ensures r == InsertLast(pri, q, t)
    {
      var p := pri[t];
      var i := 0;
      while i < |q| && At(pri, q[i]) <= p
        invariant i <= |q|
        invariant forall j :: 0 <= j < i ==> At(pri, q[j]) <= p
      {
        i := i + 1;
      }
      r := q[..i] + [t] + q[i..];
      assert q[..i] + q[i..] == q;
      var n := Slot(pri, q, p);
      assert n < |q| ==> p < At(pri, q[n]);
      assert i < |q| ==> p < At(pri, q[i]);
    }

    function Ring(pl: Place): seq<nat>
      reads this`wait
    {
      if pl in wait then wait[pl] else []
    }

    // A change of the ring at pl, seen in the state.
    lemma RingUpdate(pl: Place, q: seq<nat>)
      requires pl != Ready
      ensures wait[pl := q][Ready := Flat(ready)] == wait[Ready := Flat(ready)][pl := q]
      ensures Q(St(), pl) == Ring(pl)
    {
    }

    // wobj_change_priority
    method WobjChangePriority(pl: Place, t: nat)
      requires t < |pri| && pl != Ready
      modifies this`wait
      ensures St() == if ByPriority(cfg, pl) then Requeue(old(St()), pl, t, false) else old(St())
    {
      hide Flat, Without, InsertLast;
      if ByPriority(cfg, pl) {
        var q := InsertTpri(Without(Ring(pl), t), t);
        RingUpdate(pl, q);
        wait := wait[pl := q];
      }
    }

    // change_priority
    method ChangePriority(t: nat, newpri: nat, mtxmode: bool)
      requires Sane() && SchedOk() && t < |pri| && newpri < TNUM_TPRI && Distinct(Flat(ready))
      requires t in Flat(ready) <==> task[t].stat.Runnable?
      modifies this`pri, this`ready, this`primap, this`sched, this`wait
      ensures Sane() && SchedOk() && (!dspflg ==> sched == old(sched))
      ensures St() == Reprioritize(old(St()), t, newpri, mtxmode)
    {
      hide Fit, Flat, Reprioritize, Requeue;
      ReprioritizeSteps(St(), t, newpri, mtxmode);
      if task[t].stat.Runnable? {
        ChangeReadyPriority(t, newpri, mtxmode);
      } else {
        UnqueuedFits(pri, ready, primap, t, newpri);
        pri := pri[t := newpri];
        if PlaceOf(task[t].stat).Some? {
          WobjChangePriority(PlaceOf(task[t].stat).value, t);
        }
      }
    }

    // ---- wait.h, wait.c ----

    method WaitDequeueWobj(t: nat)
      requires t < |task| && !task[t].stat.Runnable?
      modifies this`wait
      ensures St() == Unlink(old(St()), t)
    {
      hide Flat, Without;
      var pl := PlaceOf(task[t].stat);
      if pl.Some? {
        RingUpdate(pl.value, Without(Ring(pl.value), t));
        wait := wait[pl.value := Without(Ring(pl.value), t)];
      }
    }

    method WaitDequeueTmevtb(t: nat)
      requires t < |task| && task[t].winfo.Tmevtb? && (task[t].winfo.registered <==> t in tmev)
      modifies this`tmev
      ensures St() == old(St()).(tmev := old(tmev) - {t})
    {
      if task[t].winfo.registered {
        tmev := tmev - {t};
      }
      assert tmev == old(tmev) - {t};
    }

    method MakeNonWait(t: nat)
      requires Sane() && SchedOk() && t < |task| && task[t].stat.Waiting?
      modifies this`task, this`ready, this`primap, this`sched
      ensures Sane() && SchedOk() && (!dspflg ==> sched == old(sched))
      ensures var s := AfterWait(old(task[t].stat)); var k1 := SetStat(old(St()), t, s);
              St() == if s.Runnable? then Append(k1, Ready, t) else k1
    {
      hide Flat, Append;
      if !task[t].stat.susp {
        task := task[t := task[t].(stat := Runnable)];
        MakeRunnable(t);
      } else {
        task := task[t := task[t].(stat := Suspended)];
      }
    }

    // The three lines ahead of make_non_wait in rel_wai, ras_ter and the calls that complete a wait.
    method AbortWait(t: nat, er: Er)
      requires Sane() && t < |task| && task[t].stat.Waiting?
      requires task[t].winfo.Tmevtb? && (task[t].winfo.registered <==> t in tmev)
      modifies this`task, this`wait, this`tmev
      ensures Sane() && |task| == old(|task|) && task[t].stat == old(task[t].stat)
      ensures St() == SetWinfo(Unlink(old(St()), t).(tmev := old(tmev) - {t}), t, Wercd(er))
    {
      hide Fit, Flat, Unlink;
      WaitDequeueWobj(t);
      WaitDequeueTmevtb(t);
      task := task[t := task[t].(winfo := Wercd(er))];
    }

    // wait_complete, rel_wai and the body of init_wait_queue's loop
    method ReleaseWaiting(t: nat, er: Er)
      requires Sane() && SchedOk() && t < |task| && task[t].stat.Waiting?
      requires task[t].winfo.Tmevtb? && (task[t].winfo.registered <==> t in tmev)
      modifies this`task, this`ready, this`primap, this`sched, this`wait, this`tmev
      ensures Sane() && SchedOk() && (!dspflg ==> sched == old(sched))
      ensures St() == Awake(old(St()), t, er)
    {
      hide Sane, SchedOk, St, Append, Unlink, Awake, SetWinfo;
      Fields();
      Lengths();
      AwakeSteps(St(), t, er);
      AbortWait(t, er);
      MakeNonWait(t);
    }

    // wobj_queue_insert and the plain append to a receivers' queue
    method WobjQueueInsert(pl: Place, t: nat)
      requires t < |pri| && pl != Ready
      modifies this`wait
      ensures St() == Append(old(St()), pl, t)
    {
      hide Flat, InsertLast;
      var q := Ring(pl) + [t];
      if ByPriority(cfg, pl) {
        q := InsertTpri(Ring(pl), t);
      }
      RingUpdate(pl, q);
      wait := wait[pl := q];
    }

    // make_wait and make_wait_tmout, up to the ready queue and the timeout block
    method MakeWaitTmout(t: nat, timed: bool)
      requires Sane() && SchedOk() && t < |task| && t in Flat(ready)
      requires sched == Some(t) ==> dspflg
      modifies this`task, this`ready, this`primap, this`sched, this`tmev
      ensures Sane() && SchedOk() && (!dspflg ==> sched == old(sched))
      ensures |task| == old(|task|) && task[t].stat == old(task[t].stat)
      ensures St() == SetWinfo(Unready(old(St()), t), t, Tmevtb(timed)).(tmev := if timed then old(tmev) + {t} else old(tmev))
    {
      hide Flat, Unready;
      MakeNonRunnable(t);
      task := task[t := task[t].(winfo := Tmevtb(timed))];
      if timed {
        tmev := tmev + {t};
      }
    }

    method SetWaiting(t: nat, c: Cause)
      requires t < |task| && Sane()
      modifies this`task
      ensures Sane() && |task| == old(|task|) && task[t].stat == Waiting(c, false)
      ensures St() == SetStat(old(St()), t, Waiting(c, false))
    {
      hide Flat, Fit;
      task := task[t := task[t].(stat := Waiting(c, false))];
    }

    // wobj_make_wait, wobj_make_wait_tmout, and make_wait for waits without an object
    method MakeWait(t: nat, c: Cause, timed: bool)
      requires Sane() && SchedOk() && t < |task| && task[t].stat.Runnable? && t in Flat(ready)
      requires sched == Some(t) ==> dspflg
      modifies this`task, this`ready, this`primap, this`sched, this`wait, this`tmev
      ensures Sane() && SchedOk() && (!dspflg ==> sched == old(sched))
      ensures St() == BeginWait(old(St()), t, c, timed)
    {
      hide Sane, SchedOk, Append, SetStat, SetWinfo, Unready, BeginWait, Flat, Fit;
      Lengths();
      WaitSteps(St(), t, c, timed);
      SetWaiting(t, c);
      MakeWaitTmout(t, timed);
      if PlaceOf(task[t].stat).Some? {
        WobjQueueInsert(PlaceOf(task[t].stat).value, t);
      }
    }

    // ---- mutex.c ----

    // mutex_calc_priority: from the newest mutex down the chain
    method CalcPriorityLoop(t: nat) returns (p: nat)
      requires t < |task|
      ensures p == FullPri(St(), t)
    {
      var ms := task[t].held;
      p := task[t].bpri;
      while ms != []
        invariant CalcPriority(cfg, p, ms) == CalcPriority(cfg, task[t].bpri, task[t].held)
        decreases |ms|
      {
        var c := CeilOf(cfg, ms[0]);
        if c.Some? && c.value < p {
          CalcPriorityFrom(cfg, p, c.value, ms[1..]);
          p := c.value;
        } else if c.Some? {
          CalcPriorityBound(cfg, p, ms[1..]);
          CalcPriorityFrom(cfg, c.value, p, ms[1..]);
        }
        ms := ms[1..];
      }
    }

    // mutex_check_ceilpri
    method CheckCeilpri(t: nat, bpri: nat) returns (ok: bool)
      requires t < |task|
      ensures ok == (CeilingsAllow(cfg, bpri, task[t].held) && CauseAllows(cfg, bpri, task[t].stat))
    {
      var i := 0;
      while i < |task[t].held|
        invariant i <= |task[t].held| && CeilingsAllow(cfg, bpri, task[t].held[..i])
      {
        var c := CeilOf(cfg, task[t].held[i]);
        if c.Some? && bpri < c.value {
          return false;
        }
        i := i + 1;
      }
      if task[t].stat.Waiting? && task[t].stat.cause.OnMutex? {
        var c := CeilOf(cfg, task[t].stat.cause.m);
        if c.Some? && bpri < c.value {
          return false;
        }
      }
      return true;
    }

    // mutex_scan_ceilmtx
    method ScanCeilmtx(t: nat) returns (found: bool)
      requires t < |task|
      ensures found == HoldsCeiling(cfg, task[t].held)
    {
      var i := 0;
      while i < |task[t].held|
        invariant i <= |task[t].held| && forall j :: 0 <= j < i ==> CeilOf(cfg, task[t].held[j]).None?
      {
        if CeilOf(cfg, task[t].held[i]).Some? {
          return true;
        }
        i := i + 1;
      }
      return false;
    }

    // mutex_drop_priority: m has just left the chain of t
    method DropPriority(t: nat, m: nat, ghost before: seq<nat>)
      requires Sane() && SchedOk() && t < |task| && Distinct(Flat(ready)) && task[t].bpri < TNUM_TPRI
      requires t in Flat(ready) <==> task[t].stat.Runnable?
      requires m in before && task[t].held == Without(before, m) && pri[t] == CalcPriority(cfg, task[t].bpri, before)
      modifies this`pri, this`ready, this`primap, this`sched, this`wait
      ensures Sane() && SchedOk() && (!dspflg ==> sched == old(sched))
      ensures St() == Settle(old(St()), t)
    {
      hide Fit, Flat, Reprioritize, Without, CalcPriority;
      DroppedPriority(cfg, task[t].bpri, m, before);
      CalcPriorityBound(cfg, task[t].bpri, task[t].held);
      if CeilOf(cfg, m) == Some(pri[t]) {
        var newpri := CalcPriorityLoop(t);
        if newpri != pri[t] {
          ChangePriority(t, newpri, true);
        }
      }
    }

    // mutex_acquire
    method MutexAcquire(t: nat, m: nat)
      requires Sane() && SchedOk() && t < |task| && m < |owner| && Distinct(Flat(ready))
      requires t in Flat(ready) <==> task[t].stat.Runnable?
      requires pri[t] == FullPri(St(), t)
      modifies this`owner, this`task, this`pri, this`ready, this`primap, this`sched, this`wait
      ensures Sane() && SchedOk() && (!dspflg ==> sched == old(sched))
      ensures St() == Settle(Take(old(St()), t, m), t)
    {
      hide Fit, Flat, Reprioritize, CalcPriority;
      TakenPriority(cfg, task[t].bpri, m, task[t].held);
      owner := owner[m := Some(t)];
      task := task[t := task[t].(held := [m] + task[t].held)];
      var c := CeilOf(cfg, m);
      if c.Some? && c.value < pri[t] {
        ChangePriority(t, c.value, true);
      }
    }

    // the middle of mutex_release: the waiter becomes the owner
    method MutexGrant(t: nat, m: nat)
      requires Sane() && t < |task| && m < |owner| && t !in Flat(ready) && pri[t] == FullPri(St(), t)
      modifies this`owner, this`task, this`pri
      ensures Sane() && |task| == old(|task|) && task[t].stat == old(task[t].stat)
      ensures St() == Grant(old(St()), t, m)
    {
      hide Fit, Flat, CalcPriority;
      var p := CalcPriority(cfg, task[t].bpri, [m] + task[t].held);
      TakenPriority(cfg, task[t].bpri, m, task[t].held);
      UnqueuedFits(pri, ready, primap, t, p);
      task := task[t := task[t].(winfo := Wercd(E_OK))];
      owner := owner[m := Some(t)];
      task := task[t := task[t].(held := [m] + task[t].held)];
      var c := CeilOf(cfg, m);
      if c.Some? {
        if c.value < pri[t] {
          pri := pri[t := c.value];
        }
      }
    }

    // mutex_release
    method MutexRelease(m: nat)
      requires Sane() && SchedOk() && m < |owner| && Grantable(St(), m)
      modifies this`owner, this`task, this`pri, this`ready, this`primap, this`sched, this`wait, this`tmev
      ensures Sane() && SchedOk() && (!dspflg ==> sched == old(sched))
      ensures St() == HandOver(old(St()), m)
    {
      hide Flat, Fit, Without, CalcPriority, Append;
      if Ring(Lock(m)) == [] {
        owner := owner[m := None];
      } else {
        var t := Ring(Lock(m))[0];
        HandOverSteps(St(), m);
        WaitDequeueWobj(t);
        WaitDequeueTmevtb(t);
        MutexGrant(t, m);
        MakeNonWait(t);
      }
    }

    // mutex_release_all
    method MutexReleaseAll(t: nat)
      requires Sane() && SchedOk() && Chained(St(), t)
      modifies this`owner, this`task, this`pri, this`ready, this`primap, this`sched, this`wait, this`tmev
      ensures Sane() && SchedOk() && (!dspflg ==> sched == old(sched))
      ensures Chained(St(), t) && task[t].held == []
      ensures St() == ReleaseAll(old(St()), t, old(task[t].held))
    {
      hide Fit, Flat, HandOver, Core, HeldOk, Grantable;
      while task[t].held != []
        invariant Sane() && SchedOk() && (!dspflg ==> sched == old(sched))
        invariant Chained(St(), t) && ReleaseAll(St(), t, task[t].held) == ReleaseAll(old(St()), t, old(task[t].held))
        decreases |task[t].held|
      {
        ReleaseAllStep(St(), t);
        var m := task[t].held[0];
        task := task[t := task[t].(held := task[t].held[1..])];
        MutexRelease(m);
      }
    }

    // ---- wait.c ----

    // init_wait_queue
    method InitWaitQueue(pl: Place)
      requires Sane() && SchedOk() && Core(St(), {}) && pl != Ready
      modifies this`task, this`ready, this`primap, this`sched, this`wait, this`tmev
      ensures Sane() && SchedOk() && (!dspflg ==> sched == old(sched))
      ensures St() == AwakeAll(old(St()), old(Ring(pl)), E_DLT)
    {
      hide Fit, Flat, Awake, Core;
      while Ring(pl) != []
        invariant Sane() && SchedOk() && (!dspflg ==> sched == old(sched)) && Core(St(), {})
        invariant AwakeAll(St(), Ring(pl), E_DLT) == AwakeAll(old(St()), old(Ring(pl)), E_DLT)
        decreases |Ring(pl)|
      {
        AwakeAllStep(St(), pl, E_DLT);
        ReleaseWaiting(Ring(pl)[0], E_DLT);
      }
    }

    // ---- task.c: activation and termination ----

    // make_dormant
    method MakeDormant(t: nat)
      requires Sane() && t < |task| && Tables(St()) && t !in Flat(ready) && task[t].held == []
      modifies this`task, this`pri
      ensures Sane() && St() == KernelState.MakeDormant(old(St()), t)
    {
      hide Fit, Flat;
      UnqueuedFits(pri, ready, primap, t, cfg.ipri[t]);
      task := task[t := task[t].(stat := Dormant)];
      task := task[t := task[t].(bpri := cfg.ipri[t])];
      pri := pri[t := cfg.ipri[t]];
      task := task[t := task[t].(wupque := false)];
      task := task[t := task[t].(raster := false)];
      task := task[t := task[t].(enater := true)];
    }

    // make_active, and the same two lines in rsm_tsk
    method MakeActive(t: nat)
      requires Sane() && SchedOk() && t < |task| && PlaceOf(task[t].stat).None?
      modifies this`task, this`ready, this`primap, this`sched
      ensures Sane() && SchedOk() && (!dspflg ==> sched == old(sched))
      ensures St() == KernelState.MakeActive(old(St()), t)
    {
      hide Fit, Flat, Append, KernelState.MakeActive;
      MakeActiveSteps(St(), t);
      task := task[t := task[t].(stat := Runnable)];
      MakeRunnable(t);
    }

    // The first half of task_terminate.  The state field is set here already, which
    // mutex_release_all does not look at.
    method Quiesce(t: nat)
      requires Sane() && SchedOk() && t < |task| && (t in Flat(ready) <==> task[t].stat.Runnable?)
      requires sched == Some(t) ==> dspflg
      requires if task[t].stat.Waiting? then task[t].winfo.Tmevtb? && (task[t].winfo.registered <==> t in tmev) else t !in tmev
      modifies this`task, this`ready, this`primap, this`sched, this`wait, this`tmev
      ensures Sane() && SchedOk() && (!dspflg ==> sched == old(sched))
      ensures St() == KernelState.Quiesce(old(St()), t)
    {
      hide St, Sane, SchedOk, KernelState.Quiesce, Unlink, Unready;
      Fields();
      Lengths();
      QuiesceSteps(St(), t);
      if task[t].stat.Runnable? {
        MakeNonRunnable(t);
      } else if task[t].stat.Waiting? {
        WaitDequeueWobj(t);
        WaitDequeueTmevtb(t);
      }
      Fields();
      SetFields(t, task[t].(stat := Dormant));
    }

    // What the invariant says about task t in terms of the structures here.
    lemma TaskFacts(t: nat)
      requires Core(St(), {}) && t < |task|
      ensures Distinct(Flat(ready)) && Tables(St()) && task[t].bpri < TNUM_TPRI
      ensures t in Flat(ready) <==> task[t].stat.Runnable?
      ensures if task[t].stat.Waiting? then task[t].winfo.Tmevtb? && (task[t].winfo.registered <==> t in tmev) else t !in tmev
      ensures !task[t].stat.Dormant? ==> pri[t] == FullPri(St(), t)
    {
      assert Linked(St(), Ready);
      assert TaskOk(St(), t);
    }

    // the end of task_terminate: a queued activation
    method RestartQueued(t: nat)
      requires Sane() && SchedOk() && t < |task| && task[t].stat.Dormant?
      modifies this`task, this`ready, this`primap, this`sched
      ensures Sane() && SchedOk() && (!dspflg ==> sched == old(sched))
      ensures St() == Restart(old(St()), t)
    {
      hide Fit, Flat, KernelState.MakeActive;
      if task[t].actque {
        task := task[t := task[t].(actque := false)];
        MakeActive(t);
      }
    }

    // task_terminate up to make_dormant: off every ring and timer, mutexes passed on
    method Withdraw(t: nat)
      requires Sane() && SchedOk() && Core(St(), {}) && t < |task|
      requires sched == Some(t) ==> dspflg
      modifies this`owner, this`task, this`pri, this`ready, this`primap, this`sched, this`wait, this`tmev
      ensures Sane() && SchedOk() && (!dspflg ==> sched == old(sched))
      ensures St() == Withdrawn(old(St()), t)
    {
      hide Fit, Flat, Core, Chained, Tables, KernelState.Quiesce, ReleaseAll, Terminate, FullPri, Sane, SchedOk, St, Q;
      Fields();
      TaskFacts(t);
      TerminateSteps(St(), t);
      Quiesce(t);
      Fields();
      if task[t].held != [] {
        MutexReleaseAll(t);
      }
    }

    // task_terminate
    method TaskTerminate(t: nat)
      requires Sane() && SchedOk() && Core(St(), {}) && t < |task|
      requires sched == Some(t) ==> dspflg
      modifies this`owner, this`task, this`pri, this`ready, this`primap, this`sched, this`wait, this`tmev
      ensures Sane() && SchedOk() && (!dspflg ==> sched == old(sched))
      ensures St() == Terminate(old(St()), t)
    {
      hide Fit, Flat, Core, Chained, Tables, Withdrawn, Terminate, Restart, KernelState.MakeDormant, Sane, SchedOk, St, Q;
      Fields();
      TerminateSteps(St(), t);
      Withdraw(t);
      Fields();
      MakeDormant(t);
      Fields();
      RestartQueued(t);
    }

    // if (p_runtsk != p_schedtsk) dispatch(), or request_dispatch() in a handler
    method Dispatch()
      requires SchedOk() && dspflg == (enadsp && ipmAll) && (!dspflg ==> sched == run)
      modifies this`run
      ensures SchedOk() && (!dspflg ==> sched == run)
      ensures St() == KernelState.Dispatch(old(St()))
    {
      hide Flat;
      if run != sched {
        if !inint {
          run := sched;
        }
      }
    }

    // ---- service calls: each does what KernelCalls says, and keeps the invariant ----

    lemma Facts()
      requires Valid()
      ensures Sane() && SchedOk() && dspflg == (enadsp && ipmAll) && (!dspflg ==> sched == run) && Inv(St()) && Core(St(), {}) && Shaped(St())
      ensures run.Some? ==> task[run.value].stat.Runnable?
      ensures !inint ==> run == sched
    {
    }

    lemma Reestablish()
      requires Sane() && SchedOk() && dspflg == (enadsp && ipmAll) && (!dspflg ==> sched == run) && Inv(St())
      ensures Valid()
    {
    }

    // Stores to the TCB of t that no queue depends on.
    method SetFields(t: nat, a: Task)
      requires t < |task| && Sane()
      modifies this`task
      ensures Sane() && task == old(task)[t := a] && St() == SetTask(old(St()), t, a)
    {
      hide Fit, Flat;
      task := task[t := a];
    }

    // act_tsk
    method ActTsk(t: nat) returns (out: Outcome)
      requires Valid()
      modifies this
      ensures Valid() && Res(out, St()) == AfterActTsk(old(St()), t)
    {
      hide Inv, Core, KernelState.MakeActive, KernelState.Dispatch, SetTask, Q, Sane, SchedOk, St;
      Fields();
      Facts();
      ActTskInv(St(), t);
      if t >= |task| {
        return Returns(E_ID);
      }
      if task[t].stat.Dormant? {
        MakeActive(t);
        Dispatch();
        Reestablish();
        return Returns(E_OK);
      } else if cfg.noactque[t] || task[t].actque {
        return Returns(E_QOVR);
      } else {
        SetFields(t, task[t].(actque := true));
        Reestablish();
        return Returns(E_OK);
      }
    }

    // the locked part of chg_pri
    method ChangeBasePriority(t: nat, newbpri: nat) returns (out: Outcome)
      requires Valid() && t < |task| && newbpri < TNUM_TPRI
      modifies this
      ensures Valid() && Res(out, St()) == ChangeBase(old(St()), t, newbpri)
    {
      hide Valid, Inv, Core, Tables, Distinct, KernelState.Dispatch, Q, Sane, SchedOk, St, SetTask, Reprioritize, CeilingsAllow, CauseAllows, HoldsCeiling, FullPri;
      Fields();
      Facts();
      TaskFacts(t);
      ChangeBaseInv(St(), t, newbpri);
      if task[t].stat.Dormant? {
        return Returns(E_OBJ);
      }
      if task[t].held != [] || (task[t].stat.Waiting? && task[t].stat.cause.OnMutex?) {
        var ok := CheckCeilpri(t, newbpri);
        if !ok {
          return Returns(E_ILUSE);
        }
      }
      out := StoreBasePriority(t, newbpri);
      Reestablish();
    }

    method StoreBasePriority(t: nat, newbpri: nat) returns (out: Outcome)
      requires Sane() && SchedOk() && dspflg == (enadsp && ipmAll) && (!dspflg ==> sched == run)
      requires t < |task| && newbpri < TNUM_TPRI && Distinct(Flat(ready)) && (t in Flat(ready) <==> task[t].stat.Runnable?)
      modifies this
      ensures Sane() && SchedOk() && dspflg == (enadsp && ipmAll) && (!dspflg ==> sched == run)
      ensures var k := old(St()); var k1 := SetTask(k, t, k.task[t].(bpri := newbpri));
              Res(out, St()) == if HoldsCeiling(cfg, k.task[t].held) then Ret(E_OK, k1) else Switch(Reprioritize(k1, t, newbpri, false))
    {
      hide Valid, Inv, Core, Tables, Distinct, KernelState.Dispatch, Q, Sane, SchedOk, St, Reprioritize;
      Fields();
      Lengths();
      SetFields(t, task[t].(bpri := newbpri));
      Fields();
      var ceiling := false;
      if task[t].held != [] {
        ceiling := ScanCeilmtx(t);
      }
      if !ceiling {
        ChangePriority(t, newbpri, false);
        Dispatch();
      }
      return Returns(E_OK);
    }

    // chg_pri
    method ChgPri(t: nat, tskpri: nat) returns (out: Outcome)
      requires Valid()
      modifies this
      ensures Valid() && Res(out, St()) == AfterChgPri(old(St()), t, tskpri)
    {
      hide Valid, Inv, Core, Distinct, KernelState.Dispatch, Q, Sane, SchedOk, St, ChangeBase;
      Fields();
      Facts();
      if inint {
        return Returns(E_CTX);
      }
      if t >= |task| {
        return Returns(E_ID);
      }
      if tskpri == TPRI_INI {
        TaskFacts(t);
        out := ChangeBasePriority(t, cfg.ipri[t]);
      } else if TMIN_TPRI <= tskpri <= TMAX_TPRI {
        out := ChangeBasePriority(t, tskpri - TMIN_TPRI);
      } else {
        return Returns(E_PAR);
      }
    }

    // ter_tsk
    method TerTsk(t: nat) returns (out: Outcome)
      requires Valid()
      modifies this
      ensures Valid() && Res(out, St()) == AfterTerTsk(old(St()), t)
    {
      hide Valid, Inv, Core, Tables, Distinct, KernelState.Dispatch, Q, Sane, SchedOk, St, Terminate;
      Fields();
      Facts();
      TerTskInv(St(), t);
      if inint {
        return Returns(E_CTX);
      }
      if t >= |task| {
        return Returns(E_ID);
      }
      if run == Some(t) {
        return Returns(E_ILUSE);
      }
      if task[t].stat.Dormant? {
        return Returns(E_OBJ);
      }
      TaskTerminate(t);
      Dispatch();
      Reestablish();
      return Returns(E_OK);
    }

    method BecomeRunnable(t: nat)
      requires Sane() && SchedOk() && t < |task|
      modifies this`task, this`ready, this`primap, this`sched
      ensures Sane() && SchedOk() && (!dspflg ==> sched == old(sched))
      ensures St() == Append(SetStat(old(St()), t, Runnable), Ready, t)
    {
      hide Fit, Flat, Append;
      task := task[t := task[t].(stat := Runnable)];
      MakeRunnable(t);
    }

    // ras_ter on a task that waits or is suspended: it runs, to find the request
    method InterruptWait(t: nat)
      requires Sane() && SchedOk() && dspflg == (enadsp && ipmAll) && (!dspflg ==> sched == run)
      requires t < |task| && (task[t].stat.Waiting? ==> task[t].winfo.Tmevtb? && (task[t].winfo.registered <==> t in tmev))
      modifies this`task, this`ready, this`primap, this`sched, this`wait, this`tmev, this`run
      ensures Sane() && SchedOk() && (!dspflg ==> sched == run)
      ensures St() == KernelState.Dispatch(Append(SetStat(Aborted(old(St()), t), t, Runnable), Ready, t))
    {
      hide KernelState.Dispatch, Sane, SchedOk, St, Append, Unlink, SetWinfo, SetStat;
      Fields();
      if task[t].stat.Waiting? {
        AbortWait(t, E_RASTER);
        Fields();
      }
      BecomeRunnable(t);
      Dispatch();
    }

    // the tail of ras_ter: a task that may not be terminated now
    method RequestTaskTermination(t: nat) returns (out: Outcome)
      requires Sane() && SchedOk() && dspflg == (enadsp && ipmAll) && (!dspflg ==> sched == run) && Core(St(), {}) && Shaped(St())
      requires t < |task| && !task[t].stat.Dormant?
      modifies this
      ensures Sane() && SchedOk() && dspflg == (enadsp && ipmAll) && (!dspflg ==> sched == run)
      ensures Res(out, St()) == RequestTermination(old(St()), t)
    {
      hide Core, Tables, Distinct, KernelState.Dispatch, Q, Sane, SchedOk, St, Append, Aborted, SetStat;
      Fields();
      TaskFacts(t);
      if !task[t].stat.Runnable? { RequestSteps(St(), t); }
      SetFields(t, task[t].(raster := true));
      Fields();
      if !task[t].stat.Runnable? {
        InterruptWait(t);
      }
      return Returns(E_OK);
    }

    // ras_ter
    method RasTer(t: nat) returns (out: Outcome)
      requires Valid()
      modifies this
      ensures Valid() && Res(out, St()) == AfterRasTer(old(St()), t)
    {
      hide Valid, Inv, Core, Tables, Distinct, KernelState.Dispatch, Q, Sane, SchedOk, St, Terminate, RequestTermination;
      Fields();
      Facts();
      RasTerInv(St(), t);
      if inint {
        return Returns(E_CTX);
      }
      if t >= |task| {
        return Returns(E_ID);
      }
      if run == Some(t) {
        return Returns(E_ILUSE);
      }
      if task[t].stat.Dormant? {
        return Returns(E_OBJ);
      }
      if task[t].enater {
        TaskTerminate(t);
        Dispatch();
        Reestablish();
        return Returns(E_OK);
      }
      out := RequestTaskTermination(t);
      Reestablish();
    }

    // dis_ter
    method DisTer() returns (out: Outcome)
      requires Valid() && run.Some?
      modifies this
      ensures Valid() && Res(out, St()) == AfterDisTer(old(St()))
    {
      hide Valid, Inv, Core, Tables, Distinct, KernelState.Dispatch, Q, Sane, SchedOk, St, SetTask;
      Fields();
      Facts();
      TerminationFlagsInv(St());
      if inint {
        return Returns(E_CTX);
      }
      SetFields(run.value, task[run.value].(enater := false));
      Reestablish();
      return Returns(E_OK);
    }

    // ena_ter
    method EnaTer() returns (out: Outcome)
      requires Valid() && run.Some?
      modifies this
      ensures Valid() && Res(out, St()) == AfterEnaTer(old(St()))
    {
      hide Valid, Inv, Core, Tables, Distinct, KernelState.Dispatch, Q, Sane, SchedOk, St, SetTask, Terminate;
      Fields();
      Facts();
      TerminationFlagsInv(St());
      if inint {
        return Returns(E_CTX);
      }
      if task[run.value].raster && dspflg {
        TaskTerminate(run.value);
        Dispatch();
        Reestablish();
        return NoReturn;
      }
      SetFields(run.value, task[run.value].(enater := true));
      Reestablish();
      return Returns(E_OK);
    }

    // Dispatching becomes possible: p_schedtsk has to be searched for.
    method Resume()
      requires Sane() && Flat(ready) != [] && enadsp && ipmAll
      modifies this`dspflg, this`sched
      ensures Sane() && SchedOk() && dspflg && St() == old(St())
    {
      hide Fit, Flat;
      dspflg := true;
      var s := SearchSchedtsk();
      sched := Some(s);
    }

    method EnableAll()
      requires Sane()
      modifies this`enadsp, this`ipmAll
      ensures Sane() && St() == old(St()).(enadsp := true, ipmAll := true) && enadsp && ipmAll
    {
      hide Fit, Flat;
      if !enadsp {
        enadsp := true;
      }
      if !ipmAll {
        ipmAll := true;
      }
    }

    // ext_tsk
    method ExtTsk() returns (out: Outcome)
      requires Valid() && run.Some?
      modifies this
      ensures Valid() && Res(out, St()) == AfterExtTsk(old(St()))
    {
      hide Valid, Inv, Core, Tables, Distinct, KernelState.Dispatch, Q, Sane, SchedOk, St, Terminate, Flat;
      Fields();
      Facts();
      TaskFacts(run.value);
      CoreSame(St(), St().(enadsp := true, ipmAll := true));
      DispatchingInv(St(), true);
      if inint {
        return Returns(E_CTX);
      }
      if !enadsp || !ipmAll {
        EnableAll();
        Resume();
      }
      TaskTerminate(run.value);
      Dispatch();
      Reestablish();
      return NoReturn;
    }

    // the common end of ena_dsp and chg_ipm
    method Reenable() returns (out: Outcome)
      requires Sane() && enadsp && ipmAll && run.Some? && Core(St(), {}) && Shaped(St()) && run.value in Flat(ready)
      modifies this
      ensures Sane() && SchedOk() && dspflg == (enadsp && ipmAll) && (!dspflg ==> sched == run)
      ensures Res(out, St()) == Reenabled(old(St()))
    {
      hide Valid, Inv, Core, Tables, Distinct, KernelState.Dispatch, Q, Sane, SchedOk, St, Terminate, Flat;
      Fields();
      Resume();
      if task[run.value].raster && task[run.value].enater {
        TaskTerminate(run.value);
        Dispatch();
        return NoReturn;
      }
      Dispatch();
      return Returns(E_OK);
    }

    // dis_dsp
    method DisDsp() returns (out: Outcome)
      requires Valid() && (inint || run.Some?)
      modifies this
      ensures Valid() && Res(out, St()) == AfterDisDsp(old(St()))
    {
      hide Inv, Core, Fit, Flat;
      Facts();
      DisDspInv(St());
      if inint {
        return Returns(E_CTX);
      }
      enadsp := false;
      dspflg := false;
      Reestablish();
      return Returns(E_OK);
    }

    // ena_dsp
    method EnaDsp() returns (out: Outcome)
      requires Valid() && run.Some?
      modifies this
      ensures Valid() && Res(out, St()) == AfterEnaDsp(old(St()))
    {
      hide Inv, Core, Reenabled, Fit, Flat;
      Fields();
      Facts();
      TaskFacts(run.value);
      CoreSame(St(), St().(enadsp := true));
      DispatchingInv(St(), true);
      if inint {
        return Returns(E_CTX);
      }
      enadsp := true;
      if ipmAll {
        out := Reenable();
        Reestablish();
      } else {
        Reestablish();
        return Returns(E_OK);
      }
    }

    // chg_ipm; enaall: the new mask is TIPM_ENAALL
    method ChgIpm(enaall: bool) returns (out: Outcome)
      requires Valid() && run.Some?
      modifies this
      ensures Valid() && Res(out, St()) == AfterChgIpm(old(St()), enaall)
    {
      hide Inv, Core, Reenabled, Fit, Flat;
      Fields();
      Facts();
      TaskFacts(run.value);
      CoreSame(St(), St().(ipmAll := enaall));
      DispatchingInv(St(), enaall);
      if inint {
        return Returns(E_CTX);
      }
      ipmAll := enaall;
      if enaall && enadsp {
        out := Reenable();
        Reestablish();
      } else {
        dspflg := false;
        Reestablish();
        return Returns(E_OK);
      }
    }

    // rot_rdq
    method RotRdq(tskpri: nat) returns (out: Outcome)
      requires Valid() && (inint || run.Some?)
      modifies this
      ensures Valid() && Res(out, St()) == AfterRotRdq(old(St()), tskpri)
    {
      hide Valid, Inv, Core, Tables, Distinct, KernelState.Dispatch, Q, Sane, SchedOk, St, Rotate;
      Fields();
      Facts();
      RotRdqInv(St(), tskpri);
      if tskpri == TPRI_SELF && !inint {
        TaskFacts(run.value);
        RotateAndDispatch(task[run.value].bpri);
      } else if TMIN_TPRI <= tskpri <= TMAX_TPRI {
        RotateAndDispatch(tskpri - TMIN_TPRI);
      } else {
        return Returns(E_PAR);
      }
      Reestablish();
      return Returns(E_OK);
    }

    method RotateAndDispatch(p: nat)
      requires Sane() && SchedOk() && dspflg == (enadsp && ipmAll) && (!dspflg ==> sched == run) && Core(St(), {}) && Shaped(St()) && p < TNUM_TPRI
      modifies this`ready, this`sched, this`run
      ensures Sane() && SchedOk() && (!dspflg ==> sched == run)
      ensures St() == KernelState.Dispatch(Rotate(old(St()), p))
    {
      hide Valid, Inv, Core, Tables, Distinct, KernelState.Dispatch, Q, Sane, SchedOk, St, Rotate, Flat, Requeue;
      Fields();
      Lengths();
      ReadyFacts();
      if ready[p] != [] { FlatHas(ready, p, ready[p][0]); }
      RotateSteps(St(), ready, p);
      RotateReadyQueue(p);
      Dispatch();
    }

    lemma ReadyFacts()
      requires Sane() && Core(St(), {})
      ensures Distinct(Flat(ready)) && Bucketed(pri, ready)
      ensures forall t :: t in Flat(ready) ==> t < |task| && task[t].stat.Runnable?
    {
      assert Linked(St(), Ready);
    }

    // A wait of the running task begins.
    method BlockRunning(c: Cause, timed: bool) returns (out: Outcome)
      requires Sane() && SchedOk() && dspflg && enadsp && ipmAll && Core(St(), {}) && Shaped(St())
      requires run.Some? && task[run.value].stat.Runnable?
      modifies this`task, this`ready, this`primap, this`sched, this`wait, this`tmev, this`run
      ensures Sane() && SchedOk() && Res(out, St()) == Block(old(St()), c, timed)
    {
      hide Valid, Inv, Core, Tables, Distinct, KernelState.Dispatch, Q, Sane, SchedOk, St, BeginWait;
      Fields();
      TaskFacts(run.value);
      MakeWait(run.value, c, timed);
      Dispatch();
      return Blocks;
    }

    // slp_tsk (TMO_FEVR) and tslp_tsk
    method SlpTsk(tmo: Tmo) returns (out: Outcome)
      requires Valid() && run.Some?
      modifies this
      ensures Valid() && Res(out, St()) == AfterSlpTsk(old(St()), tmo)
    {
      hide Valid, Inv, Core, Tables, Distinct, KernelState.Dispatch, Q, Sane, SchedOk, St, SetTask, Block;
      Fields();
      Facts();
      SlpTskInv(St(), tmo);
      if inint || !dspflg {
        return Returns(E_CTX);
      }
      if task[run.value].raster {
        return Returns(E_RASTER);
      }
      if task[run.value].wupque {
        SetFields(run.value, task[run.value].(wupque := false));
        Reestablish();
        return Returns(E_OK);
      }
      if tmo.Poll? {
        return Returns(E_TMOUT);
      }
      out := BlockRunning(Sleep, tmo.Timed?);
      Reestablish();
    }

    // dly_tsk
    method DlyTsk() returns (out: Outcome)
      requires Valid() && run.Some?
      modifies this
      ensures Valid() && Res(out, St()) == AfterDlyTsk(old(St()))
    {
      hide Valid, Inv, Core, Tables, Distinct, KernelState.Dispatch, Q, Sane, SchedOk, St, Block;
      Fields();
      Facts();
      WaitInv(St(), 0, Poll);
      if inint || !dspflg {
        return Returns(E_CTX);
      }
      if task[run.value].raster {
        return Returns(E_RASTER);
      }
      out := BlockRunning(Delay, true);
      Reestablish();
    }

    // wup_tsk
    method WupTsk(t: nat) returns (out: Outcome)
      requires Valid()
      modifies this
      ensures Valid() && Res(out, St()) == AfterWupTsk(old(St()), t)
    {
      hide Valid, Inv, Core, Tables, Distinct, KernelState.Dispatch, Q, Sane, SchedOk, St, SetTask, Awake;
      Fields();
      Facts();
      WupTskInv(St(), t);
      if t >= |task| {
        return Returns(E_ID);
      }
      if task[t].stat.Dormant? {
        return Returns(E_OBJ);
      }
      if task[t].stat.Waiting? && task[t].stat.cause.Sleep? {
        TaskFacts(t);
        ReleaseWaiting(t, E_OK);
        Dispatch();
        Reestablish();
        return Returns(E_OK);
      } else if !task[t].wupque {
        SetFields(t, task[t].(wupque := true));
        Reestablish();
        return Returns(E_OK);
      }
      return Returns(E_QOVR);
    }

    // rel_wai
    method RelWai(t: nat) returns (out: Outcome)
      requires Valid()
      modifies this
      ensures Valid() && Res(out, St()) == AfterRelWai(old(St()), t)
    {
      hide Valid, Inv, Core, Tables, Distinct, KernelState.Dispatch, Q, Sane, SchedOk, St, Awake;
      Fields();
      Facts();
      ReleasedInv(St(), t, 0);
      if t >= |task| {
        return Returns(E_ID);
      }
      if !task[t].stat.Waiting? {
        return Returns(E_OBJ);
      }
      TaskFacts(t);
      ReleaseWaiting(t, E_RLWAI);
      Dispatch();
      Reestablish();
      return Returns(E_OK);
    }

    // sus_tsk on a runnable task
    method SuspendRunnable(t: nat)
      requires Sane() && SchedOk() && dspflg == (enadsp && ipmAll) && (!dspflg ==> sched == run) && Core(St(), {})
      requires t < |task| && task[t].stat.Runnable? && (run == Some(t) ==> dspflg)
      modifies this`task, this`ready, this`primap, this`sched, this`run
      ensures Sane() && SchedOk() && (!dspflg ==> sched == run)
      ensures St() == KernelState.Dispatch(Move(old(St()), t, Suspended, old(pri[t]), false))
    {
      hide Valid, Inv, Core, Tables, Distinct, KernelState.Dispatch, Q, Sane, SchedOk, St, Move, Unlink, Unready;
      Fields();
      TaskFacts(t);
      MoveSteps(St(), t, Suspended);
      UnreadyStat(St(), t, Suspended);
      SetFields(t, task[t].(stat := Suspended));
      Fields();
      MakeNonRunnable(t);
      Dispatch();
    }

    // sus_tsk
    method SusTsk(t: nat) returns (out: Outcome)
      requires Valid()
      modifies this
      ensures Valid() && Res(out, St()) == AfterSusTsk(old(St()), t)
    {
      hide Valid, Inv, Core, Tables, Distinct, KernelState.Dispatch, Q, Sane, SchedOk, St, SetTask, Move;
      Fields();
      Facts();
      SusTskInv(St(), t);
      if inint {
        return Returns(E_CTX);
      }
      if t >= |task| {
        return Returns(E_ID);
      }
      if run == Some(t) && !dspflg {
        return Returns(E_CTX);
      }
      if task[t].stat.Dormant? {
        return Returns(E_OBJ);
      }
      if task[t].raster {
        return Returns(E_RASTER);
      }
      if task[t].stat.Runnable? {
        SuspendRunnable(t);
        Reestablish();
        return Returns(E_OK);
      }
      if task[t].stat.Suspended? || task[t].stat.susp {
        return Returns(E_QOVR);
      }
      SetFields(t, task[t].(stat := Waiting(task[t].stat.cause, true)));
      Reestablish();
      return Returns(E_OK);
    }

    // rsm_tsk
    method RsmTsk(t: nat) returns (out: Outcome)
      requires Valid()
      modifies this
      ensures Valid() && Res(out, St()) == AfterRsmTsk(old(St()), t)
    {
      hide Valid, Inv, Core, Tables, Distinct, KernelState.Dispatch, Q, Sane, SchedOk, St, SetTask, KernelState.MakeActive;
      Fields();
      Facts();
      RsmTskInv(St(), t);
      if inint {
        return Returns(E_CTX);
      }
      if t >= |task| {
        return Returns(E_ID);
      }
      if task[t].stat.Suspended? {
        MakeActive(t);
        Dispatch();
        Reestablish();
        return Returns(E_OK);
      }
      if !(task[t].stat.Waiting? && task[t].stat.susp) {
        return Returns(E_OBJ);
      }
      SetFields(t, task[t].(stat := Waiting(task[t].stat.cause, false)));
      Reestablish();
      return Returns(E_OK);
    }

    // the tests loc_mtx, ploc_mtx and tloc_mtx share; None: somebody else has the mutex
    method TryLock(m: nat) returns (er: Option<Er>)
      requires Valid() && run.Some? && !inint && m < |owner|
      modifies this
      ensures Sane() && SchedOk() && dspflg == (enadsp && ipmAll) && (!dspflg ==> sched == run)
      ensures er.Some? ==> forall r :: Ret(er.value, St()) == LockOrElse(old(St()), m, r)
      ensures er.None? ==> St() == old(St()) && (forall r :: LockOrElse(St(), m, r) == r) && dspflg == old(dspflg)
    {
      hide Valid, Inv, Core, Tables, Distinct, Q, Sane, St, Flat, Settle, Take, FullPri;
      Fields();
      Facts();
      TaskFacts(run.value);
      AcquireStaysFirst(St(), run.value, m);
      if CeilOf(cfg, m).Some? && task[run.value].bpri < CeilOf(cfg, m).value {
        return Some(E_ILUSE);
      }
      if owner[m].None? {
        MutexAcquire(run.value, m);
        Fields();
        assert run == sched;
        return Some(E_OK);
      }
      if owner[m] == run {
        return Some(E_OBJ);
      }
      return None;
    }

    // loc_mtx (TMO_FEVR) and tloc_mtx
    method LocMtx(m: nat, tmo: Tmo) returns (out: Outcome)
      requires Valid() && run.Some?
      modifies this
      ensures Valid() && Res(out, St()) == AfterLocMtx(old(St()), m, tmo)
    {
      hide Valid, Inv, Core, Tables, Distinct, KernelState.Dispatch, Q, Sane, SchedOk, St, Block, LockOrElse;
      Fields();
      Facts();
      LocMtxInv(St(), m, tmo);
      if inint || !dspflg {
        return Returns(E_CTX);
      }
      if m >= |owner| {
        return Returns(E_ID);
      }
      if task[run.value].raster {
        return Returns(E_RASTER);
      }
      var er := TryLock(m);
      if er.Some? {
        Reestablish();
        return Returns(er.value);
      }
      Reestablish();
      if tmo.Poll? {
        return Returns(E_TMOUT);
      }
      Fields();
      out := BlockRunning(OnMutex(m), tmo.Timed?);
      Reestablish();
    }

    // ploc_mtx
    method PlocMtx(m: nat) returns (out: Outcome)
      requires Valid() && run.Some?
      modifies this
      ensures Valid() && Res(out, St()) == AfterPlocMtx(old(St()), m)
    {
      hide Valid, Inv, Core, Tables, Distinct, KernelState.Dispatch, Q, Sane, SchedOk, St, LockOrElse;
      Fields();
      Facts();
      PlocMtxInv(St(), m);
      if inint {
        return Returns(E_CTX);
      }
      if m >= |owner| {
        return Returns(E_ID);
      }
      var er := TryLock(m);
      if er.Some? {
        Reestablish();
        return Returns(er.value);
      }
      Reestablish();
      return Returns(E_TMOUT);
    }

    // the working part of unl_mtx
    method UnlockNewest(m: nat)
      requires Sane() && SchedOk() && dspflg == (enadsp && ipmAll) && (!dspflg ==> sched == run) && Core(St(), {})
      requires run.Some? && run.value < |task| && task[run.value].stat.Runnable? && task[run.value].held != [] && task[run.value].held[0] == m
      modifies this
      ensures Sane() && SchedOk() && dspflg == (enadsp && ipmAll) && (!dspflg ==> sched == run)
      ensures m < old(|owner|) && St() == KernelState.Dispatch(Release(old(St()), old(run).value, m))
    {
      hide Valid, Inv, Core, Tables, Distinct, KernelState.Dispatch, Q, Sane, SchedOk, St, Settle, HandOver, Grantable, Without;
      Fields();
      TaskFacts(run.value);
      UnlockSteps(St(), run.value, m);
      ghost var before := task[run.value].held;
      SetFields(run.value, task[run.value].(held := task[run.value].held[1..]));
      Fields();
      DropPriority(run.value, m, before);
      Fields();
      MutexRelease(m);
      Dispatch();
    }

    // unl_mtx
    method UnlMtx(m: nat) returns (out: Outcome)
      requires Valid() && run.Some?
      modifies this
      ensures Valid() && Res(out, St()) == AfterUnlMtx(old(St()), m)
    {
      hide Valid, Inv, Core, Tables, Distinct, KernelState.Dispatch, Q, Sane, SchedOk, St, Release;
      Fields();
      Facts();
      UnlMtxInv(St(), m);
      if inint {
        return Returns(E_CTX);
      }
      if m >= |owner| {
        return Returns(E_ID);
      }
      if task[run.value].held == [] || task[run.value].held[0] != m {
        return Returns(E_OBJ);
      }
      UnlockNewest(m);
      Reestablish();
      return Returns(E_OK);
    }

    // ini_mtx's walk along the chain of t
    method Unchain(t: nat, m: nat)
      requires t < |task| && Sane()
      modifies this`task
      ensures Sane() && St() == Untake(old(St()), t, m)
    {
      hide Sane, St;
      Fields();
      var ms := task[t].held;
      var i := 0;
      while i < |ms| && ms[i] != m
        invariant i <= |ms| && m !in ms[..i]
      {
        i := i + 1;
      }
      UnlinkAt(ms, i, m);
      if i < |ms| {
        SetFields(t, task[t].(held := ms[..i] + ms[i + 1..]));
      } else {
        assert task[t := task[t].(held := ms)] == task;
      }
    }

    // ini_mtx once nobody waits for m: the owner loses it
    method TakeAway(t: nat, m: nat)
      requires Sane() && SchedOk() && Core(St(), {}) && m < |owner| && t < |task| && m in task[t].held && !task[t].stat.Dormant?
      modifies this`owner, this`task, this`pri, this`ready, this`primap, this`sched, this`wait
      ensures Sane() && SchedOk() && (!dspflg ==> sched == old(sched))
      ensures St() == Settle(Untake(old(St()).(owner := old(owner)[m := None]), t, m), t)
    {
      Fields();
      TaskFacts(t);
      hide Inv, Core, Q, SchedOk, Settle, FullPri, Without, Fit, Flat;
      ghost var before := task[t].held;
      owner := owner[m := None];
      hide St, Sane;
      Unchain(t, m);
      Fields();
      DropPriority(t, m, before);
    }

    // ini_mtx
    method IniMtx(m: nat) returns (out: Outcome)
      requires Valid()
      modifies this
      ensures Valid() && Res(out, St()) == AfterIniMtx(old(St()), m)
    {
      hide Valid, Inv, Core, Tables, Distinct, KernelState.Dispatch, Q, Sane, SchedOk, St, Reinit, AwakeAll, Settle, Untake;
      Fields();
      Facts();
      InitInv(St(), 0, m);
      if m < |owner| { ReinitSteps(St(), m); }
      if inint {
        return Returns(E_CTX);
      }
      if m >= |owner| {
        return Returns(E_ID);
      }
      RingUpdate(Lock(m), []);
      InitWaitQueue(Lock(m));
      Fields();
      if owner[m].Some? {
        TakeAway(owner[m].value, m);
      }
      Dispatch();
      Reestablish();
      return Returns(E_OK);
    }

    // a call that has to wait for some other object
    method WaitObject(o: nat, tmo: Tmo) returns (out: Outcome)
      requires Valid() && run.Some?
      modifies this
      ensures Valid() && Res(out, St()) == AfterWaitObject(old(St()), o, tmo)
    {
      hide Valid, Inv, Core, Tables, Distinct, KernelState.Dispatch, Q, Sane, SchedOk, St, Block;
      Fields();
      Facts();
      WaitInv(St(), o, tmo);
      if inint || !dspflg {
        return Returns(E_CTX);
      }
      if o >= |cfg.otpri| {
        return Returns(E_ID);
      }
      if task[run.value].raster {
        return Returns(E_RASTER);
      }
      if tmo.Poll? {
        return Returns(E_TMOUT);
      }
      out := BlockRunning(OnObject(o), tmo.Timed?);
      Reestablish();
    }

    // a call that completes the wait of t
    method WakeWaiter(o: nat, t: nat) returns (out: Outcome)
      requires Valid()
      modifies this
      ensures Valid() && Res(out, St()) == AfterWakeWaiter(old(St()), o, t)
    {
      hide Valid, Inv, Core, Tables, Distinct, KernelState.Dispatch, Q, Sane, SchedOk, St, Awake;
      Fields();
      Facts();
      ReleasedInv(St(), t, o);
      if t < |task| && task[t].stat.Waiting? && task[t].stat.cause == OnObject(o) {
        TaskFacts(t);
        ReleaseWaiting(t, E_OK);
        Dispatch();
      }
      Reestablish();
      return Returns(E_OK);
    }

    // ini_sem, ini_flg, ini_dtq, ...
    method InitObject(o: nat) returns (out: Outcome)
      requires Valid()
      modifies this
      ensures Valid() && Res(out, St()) == AfterInitObject(old(St()), o)
    {
      hide Valid, Inv, Core, Tables, Distinct, KernelState.Dispatch, Q, Sane, SchedOk, St, AwakeAll;
      Fields();
      Facts();
      InitInv(St(), o, 0);
      RingUpdate(Object(o), []);
      if inint {
        return Returns(E_CTX);
      }
      InitWaitQueue(Object(o));
      Dispatch();
      Reestablish();
      return Returns(E_OK);
    }

    // ---- interrupts ----

    method DropTimer(t: nat)
      modifies this`tmev
      ensures tmev == old(tmev) - {t} && St() == old(St()).(tmev := old(tmev) - {t})
    {
      hide Flat;
      tmev := tmev - {t};
    }

    // wait_tmout: signal_time has already taken the block off the heap
    method WaitTmout(t: nat)
      requires Sane() && SchedOk() && t < |task| && task[t].stat.Waiting? && t !in tmev
      modifies this`task, this`ready, this`primap, this`sched, this`wait
      ensures Sane() && SchedOk() && (!dspflg ==> sched == old(sched))
      ensures St() == Awake(old(St()), t, E_TMOUT)
    {
      hide Sane, SchedOk, St, Awake, Append, Unlink;
      Fields();
      Lengths();
      AwakeSteps(St(), t, E_TMOUT);
      TimerGone(St(), t);
      WaitDequeueWobj(t);
      Fields();
      SetFields(t, task[t].(winfo := Wercd(E_TMOUT)));
      Fields();
      MakeNonWait(t);
    }

    // wait_tmout_ok: the same for dly_tsk, which waits in no queue
    method WaitTmoutOk(t: nat)
      requires Sane() && SchedOk() && t < |task| && task[t].stat.Waiting? && task[t].stat.cause.Delay? && t !in tmev
      modifies this`task, this`ready, this`primap, this`sched
      ensures Sane() && SchedOk() && (!dspflg ==> sched == old(sched))
      ensures St() == Awake(old(St()), t, E_OK)
    {
      hide Sane, SchedOk, St, Awake, Append, Unlink;
      Fields();
      Lengths();
      AwakeSteps(St(), t, E_OK);
      TimerGone(St(), t);
      SetFields(t, task[t].(winfo := Wercd(E_OK)));
      Fields();
      MakeNonWait(t);
    }

    // signal_time calls back for the timeout block of t
    method Timeout(t: nat)
      requires Valid() && inint
      modifies this
      ensures Valid() && St() == TimeoutEvent(old(St()), t)
    {
      hide Valid, Inv, Core, Sane, SchedOk, St, Awake;
      Fields();
      Facts();
      TimeoutInv(St(), t);
      if t in tmev && t < |task| && task[t].stat.Waiting? {
        TimerOff(St(), t, if task[t].stat.cause.Delay? then E_OK else E_TMOUT);
        DropTimer(t);
        Fields();
        if task[t].stat.cause.Delay? {
          WaitTmoutOk(t);
        } else {
          WaitTmout(t);
        }
        Fields();
        Reestablish();
      }
    }

    method EnterInterrupt()
      requires Valid() && !inint
      modifies this
      ensures Valid() && St() == Step(old(St()), KernelCalls.Call.EnterInterrupt).k
    {
      hide Inv, Fit, Flat;
      InterruptInv(St(), true);
      inint := true;
    }

    // The return from the outermost handler performs the dispatch that was requested.
    method ExitInterrupt()
      requires Valid() && inint
      modifies this
      ensures Valid() && St() == Step(old(St()), KernelCalls.Call.ExitInterrupt).k
    {
      hide Inv, Fit, Flat, KernelState.Dispatch;
      InterruptInv(St(), false);
      inint := false;
      Dispatch();
    }

    // ---- one step of the state machine, by the real structures ----

    // Calls about the running task.
    method PerformAsTask(c: Call) returns (out: Outcome)
      requires Valid() && run.Some?
      modifies this
      ensures Valid() && Shaped(old(St())) && Res(out, St()) == TaskStep(old(St()), c)
    {
      hide Valid, Inv, Core, Sane, SchedOk, St, AfterExtTsk, AfterDisTer, AfterEnaTer, AfterSlpTsk, AfterDlyTsk, AfterLocMtx,
        AfterPlocMtx, AfterUnlMtx, AfterEnaDsp, AfterChgIpm, AfterWaitObject;
      Fields();
      Facts();
      match c
      case ExtTsk => out := ExtTsk();
      case DisTer => out := DisTer();
      case EnaTer => out := EnaTer();
      case SlpTsk(tmo) => out := SlpTsk(tmo);
      case DlyTsk => out := DlyTsk();
      case LocMtx(m, tmo) => out := LocMtx(m, tmo);
      case PlocMtx(m) => out := PlocMtx(m);
      case UnlMtx(m) => out := UnlMtx(m);
      case EnaDsp => out := EnaDsp();
      case ChgIpm(enaall) => out := ChgIpm(enaall);
      case WaitObject(o, tmo) => out := WaitObject(o, tmo);
      case _ => out := Returns(E_CTX);
    }

    // Calls that name a task.
    method PerformOnTask(c: Call) returns (out: Outcome)
      requires Valid() && Enabled(St(), c)
      requires c.ActTsk? || c.TerTsk? || c.RasTer? || c.WupTsk? || c.RelWai? || c.SusTsk? || c.RsmTsk? || c.ChgPri? || c.WakeWaiter?
      modifies this
      ensures Valid() && Shaped(old(St())) && Res(out, St()) == Step(old(St()), c)
    {
      hide Valid, Inv, Core, Sane, SchedOk, St, TaskStep, AfterActTsk, AfterTerTsk, AfterRasTer, AfterWupTsk, AfterRelWai, AfterSusTsk,
        AfterRsmTsk, AfterIniMtx, AfterChgPri, AfterRotRdq, AfterDisDsp, AfterWakeWaiter, AfterInitObject, TimeoutEvent, KernelState.Dispatch;
      Fields();
      Facts();
      match c
      case ActTsk(t) => out := ActTsk(t);
      case TerTsk(t) => out := TerTsk(t);
      case RasTer(t) => out := RasTer(t);
      case WupTsk(t) => out := WupTsk(t);
      case RelWai(t) => out := RelWai(t);
      case SusTsk(t) => out := SusTsk(t);
      case RsmTsk(t) => out := RsmTsk(t);
      case ChgPri(t, p) => out := ChgPri(t, p);
      case WakeWaiter(o, t) => out := WakeWaiter(o, t);
    }

    // The kernel's structures make the same step as the plain state machine, on every call.
    method Perform(c: Call) returns (out: Outcome)
      requires Valid() && Enabled(St(), c)
      modifies this
      ensures Valid() && Shaped(old(St())) && Res(out, St()) == Step(old(St()), c)
    {
      hide Valid, Inv, Core, Sane, SchedOk, St, TaskStep, AfterActTsk, AfterTerTsk, AfterRasTer, AfterWupTsk, AfterRelWai, AfterSusTsk,
        AfterRsmTsk, AfterIniMtx, AfterChgPri, AfterRotRdq, AfterDisDsp, AfterWakeWaiter, AfterInitObject, TimeoutEvent, KernelState.Dispatch;
      Fields();
      Facts();
      if c.ActTsk? || c.TerTsk? || c.RasTer? || c.WupTsk? || c.RelWai? || c.SusTsk? || c.RsmTsk? || c.ChgPri? || c.WakeWaiter? {
        out := PerformOnTask(c);
      } else if c.IniMtx? {
        out := IniMtx(c.m);
      } else if c.RotRdq? {
        out := RotRdq(c.tskpri);
      } else if c.DisDsp? {
        out := DisDsp();
      } else if c.InitObject? {
        out := InitObject(c.o);
      } else if c.EnterInterrupt? {
        EnterInterrupt();
        out := Returns(E_OK);
      } else if c.ExitInterrupt? {
        ExitInterrupt();
        out := Returns(E_OK);
      } else if c.Timeout? {
        Timeout(c.t);
        out := Returns(E_OK);
      } else if run.Some? {
        out := PerformAsTask(c);
      } else {
        out := Returns(E_CTX);
      }
    }
  }
}
