/** What the steps inside the calls do to the state, field by field and place by place. */
module StateEffects {
  import opened Options
  import opened PriorityLists
  import opened KernelState
  import opened KernelCalls
  import opened KernelInvariant
  import opened KernelSafety
  import opened QueueLaws

  // Everything but the queues and the running task.
  ghost predicate Rest(k: K, r: K, task: seq<Task>, pri: seq<nat>, owner: seq<Option<nat>>, tmev: set<nat>) {
    && r.cfg == k.cfg && r.task == task && r.pri == pri && r.owner == owner && r.tmev == tmev
    && r.enadsp == k.enadsp && r.ipmAll == k.ipmAll && r.inint == k.inint
  }

  // Only the record of t has changed, into a.
  ghost predicate Recorded(k: K, r: K, t: nat, a: Task) {
    t < |k.task| && Rest(k, r, k.task[t := a], k.pri, k.owner, k.tmev) && SameQueuesAs(k, r)
  }

  // t, which was in no queue, is runnable.
  ghost predicate Started(k: K, r: K, t: nat) {
    && t < |k.task| && Rest(k, r, k.task[t := k.task[t].(stat := Runnable)], k.pri, k.owner, k.tmev)
    && Relinked(k, r, t, None, Some(Ready))
  }

  // The wait of t has ended with er: off its queue and its timer, suspended if that was asked for meanwhile.
  ghost predicate Woken(k: K, r: K, t: nat, er: Er) {
    && t < |k.task| && k.task[t].stat.Waiting?
    && var susp := k.task[t].stat.susp;
    && Rest(k, r, k.task[t := k.task[t].(stat := if susp then Suspended else Runnable, winfo := Wercd(er))], k.pri, k.owner, k.tmev - {t})
    && Relinked(k, r, t, PlaceOf(k.task[t].stat), if susp then None else Some(Ready))
  }

  // t waits, with its timeout block registered exactly if the wait is timed.
  ghost predicate Began(k: K, r: K, t: nat, c: Cause, timed: bool) {
    && t < |k.task|
    && Rest(k, r, k.task[t := k.task[t].(stat := Waiting(c, false), winfo := Tmevtb(timed))], k.pri, k.owner, if timed then k.tmev + {t} else k.tmev)
    && Relinked(k, r, t, Some(Ready), PlaceOf(Waiting(c, false)))
  }

  // t keeps its place in a first-in first-out queue; in a queue in priority order it takes a new one.
  ghost predicate Repositioned(k: K, r: K, t: nat, front: bool)
    requires t < |k.task|
  {
    var at := PlaceOf(k.task[t].stat);
    if at.Some? && ByPriority(k.cfg, at.value) then Replaced(k, r, t, at.value, front && at == Some(Ready)) else SameQueuesAs(k, r)
  }

  // t has the current priority p.
  ghost predicate Reranked(k: K, r: K, t: nat, p: nat, front: bool) {
    && t < |k.task| == |k.pri| && Rest(k, r, k.task, k.pri[t := p], k.owner, k.tmev)
    && Repositioned(k, r, t, front)
  }

  // t has the priority its base priority and its mutexes give it, ahead of its equals if that is a change.
  ghost predicate Settled(k: K, r: K, t: nat) {
    t < |k.task| == |k.pri| && if FullPri(k, t) == k.pri[t] then r == k else Reranked(k, r, t, FullPri(k, t), true)
  }

  // w, the first to wait for m, owns m and waits no more.
  ghost predicate Inherited(k: K, r: K, m: nat, w: nat) {
    && w < |k.task| == |k.pri| && m < |k.owner| && WaitsForMutex(k.task[w].stat, m)
    && Head(Q(k, Lock(m))) == Some(w)
    && var a := k.task[w]; var held := [m] + a.held; var susp := a.stat.susp;
    && Rest(k, r, k.task[w := a.(stat := if susp then Suspended else Runnable, winfo := Wercd(E_OK), held := held)],
            k.pri[w := CalcPriority(k.cfg, a.bpri, held)], k.owner[m := Some(w)], k.tmev - {w})
    && Relinked(k, r, w, Some(Lock(m)), if susp then None else Some(Ready))
  }

  // Mutex m goes to the first who waits for it, or becomes free.
  ghost predicate PassedOn(k: K, r: K, m: nat) {
    m < |k.owner| && if Q(k, Lock(m)) == [] then r == k.(owner := k.owner[m := None]) else Inherited(k, r, m, Q(k, Lock(m))[0])
  }

  // ---- the queues see neither the running task nor the records ----

  lemma RelinkedSame(k: K, k1: K, r: K, r1: K, t: nat, from: Option<Place>, to: Option<Place>)
    requires Relinked(k, r, t, from, to) && k1.queue == k.queue && r1.queue == r.queue && k1.cfg == k.cfg && r1.pri == r.pri
    ensures Relinked(k1, r1, t, from, to)
  {
    hide Quits, Joins;
    forall pl ensures if from == Some(pl) then Quits(Q(k1, pl), Q(r1, pl), t)
        else if to == Some(pl) then Joins(r1.pri, Q(k1, pl), Q(r1, pl), t, ByPriority(k1.cfg, pl))
        else Q(r1, pl) == Q(k1, pl)
    {
      assert Q(k1, pl) == Q(k, pl) && Q(r1, pl) == Q(r, pl);
    }
  }

  lemma ReplacedSame(k: K, k1: K, r: K, r1: K, t: nat, at: Place, front: bool)
    requires Replaced(k, r, t, at, front) && k1.queue == k.queue && r1.queue == r.queue && r1.pri == r.pri
    ensures Replaced(k1, r1, t, at, front)
  {
    hide Requeues;
    assert forall pl :: Q(k1, pl) == Q(k, pl) && Q(r1, pl) == Q(r, pl);
  }

  // ---- the building blocks ----

  lemma StartEffect(k: K, t: nat)
    requires t < |k.task| == |k.pri| && QueuesOk(k) && PlaceOf(k.task[t].stat).None?
    ensures Started(k, MakeActive(k, t), t)
  {
    hide Relinked, Move;
    MoveFields(k, t, Runnable, k.pri[t], false);
    MoveRelinks(k, t, Runnable, k.pri[t]);
    assert k.pri[t := k.pri[t]] == k.pri;
  }

  lemma WakeEffect(k: K, t: nat, er: Er)
    requires t < |k.task| == |k.pri| && QueuesOk(k) && k.task[t].stat.Waiting?
    ensures Woken(k, Awake(k, t, er), t, er)
  {
    hide Relinked, Move;
    var k1, s := SetTask(k, t, k.task[t].(winfo := Wercd(er))).(tmev := k.tmev - {t}), AfterWait(k.task[t].stat);
    SameQueues(k, k1);
    MoveFields(k1, t, s, k.pri[t], false);
    MoveRelinks(k1, t, s, k.pri[t]);
    RelinkedSame(k1, k, Move(k1, t, s, k.pri[t], false), Awake(k, t, er), t, PlaceOf(k.task[t].stat), PlaceOf(s));
    assert k.pri[t := k.pri[t]] == k.pri;
  }

  lemma BeginEffect(k: K, t: nat, c: Cause, timed: bool)
    requires t < |k.task| == |k.pri| && QueuesOk(k) && k.task[t].stat.Runnable?
    ensures Began(k, BeginWait(k, t, c, timed), t, c, timed)
  {
    hide Relinked, Move;
    var s, timers := Waiting(c, false), if timed then k.tmev + {t} else k.tmev;
    var k1 := SetTask(k, t, k.task[t].(winfo := Tmevtb(timed))).(tmev := timers);
    SameQueues(k, k1);
    MoveFields(k1, t, s, k.pri[t], false);
    MoveRelinks(k1, t, s, k.pri[t]);
    RelinkedSame(k1, k, Move(k1, t, s, k.pri[t], false), BeginWait(k, t, c, timed), t, Some(Ready), PlaceOf(s));
    assert k.pri[t := k.pri[t]] == k.pri;
  }

  lemma RerankEffect(k: K, t: nat, p: nat, front: bool)
    requires t < |k.task| == |k.pri| && QueuesOk(k)
    ensures Reranked(k, Reprioritize(k, t, p, front), t, p, front)
  {
    hide Replaced, Move;
    ReprioritizeFields(k, t, p, front);
    var at := PlaceOf(k.task[t].stat);
    if at.Some? && ByPriority(k.cfg, at.value) {
      MoveReplaces(k, t, k.task[t].stat, p, front && at.value == Ready, at.value);
    }
  }

  lemma SettleEffect(k: K, t: nat)
    requires t < |k.task| == |k.pri| && QueuesOk(k)
    ensures Settled(k, Settle(k, t), t)
  {
    hide Reranked, Reprioritize;
    RerankEffect(k, t, FullPri(k, t), true);
  }

  lemma InheritEffect(k: K, m: nat, w: nat)
    requires w < |k.task| == |k.pri| && m < |k.owner| && QueuesOk(k) && WaitsForMutex(k.task[w].stat, m)
    requires Q(k, Lock(m)) != [] && Q(k, Lock(m))[0] == w
    ensures Inherited(k, HandOver(k, m), m, w)
  {
    hide Relinked, Move, QueuesOk;
    var a := k.task[w];
    var k1, s := Take(SetTask(k, w, a.(winfo := Wercd(E_OK))).(tmev := k.tmev - {w}), w, m), AfterWait(a.stat);
    SameQueues(k, k1);
    HandOverFields(k, m, w);
    MoveFields(k1, w, s, FullPri(k1, w), false);
    MoveRelinks(k1, w, s, FullPri(k1, w));
    RelinkedSame(k1, k, Move(k1, w, s, FullPri(k1, w), false), HandOver(k, m), w, Some(Lock(m)), PlaceOf(s));
  }

  lemma HandOverEffect(k: K, m: nat)
    requires |k.task| == |k.pri| && m < |k.owner| && QueuesOk(k)
    ensures PassedOn(k, HandOver(k, m), m)
  {
    hide Inherited;
    var q := Q(k, Lock(m));
    assert Linked(k, Lock(m));
    if q != [] {
      assert q[0] in q;
      InheritEffect(k, m, q[0]);
    }
  }

  // Everybody in ts is woken, in this order.
  ghost predicate AllWoken(k: K, r: K, ts: seq<nat>, er: Er)
    decreases |ts|
  {
    if ts == [] then r == k else exists mid :: Woken(k, mid, ts[0], er) && AllWoken(mid, r, ts[1..], er)
  }

  lemma {:induction false} WakeAllEffect(k: K, pl: Place, er: Er)
    requires Core(k, {}) && pl != Ready
    ensures AllWoken(k, AwakeAll(k, Q(k, pl), er), Q(k, pl), er)
    decreases |Q(k, pl)|
  {
    hide Woken, Awake;
    var q := Q(k, pl);
    if q != [] {
      AwakeHead(k, pl, er);
      WakeEffect(k, q[0], er);
      AwakeCore(k, q[0], er, {});
      WakeAllEffect(Awake(k, q[0], er), pl, er);
    }
  }

  // ---- termination ----

  // t is off its queue and its timer, and dormant.
  ghost predicate Detached(k: K, r: K, t: nat) {
    && t < |k.task| && Rest(k, r, k.task[t := k.task[t].(stat := Dormant)], k.pri, k.owner, k.tmev - {t})
    && Relinked(k, r, t, PlaceOf(k.task[t].stat), None)
  }

  // The mutexes ms on the chain of t are passed on, one after the other.
  ghost predicate AllPassedOn(k: K, r: K, t: nat, ms: seq<nat>)
    decreases |ms|
  {
    if ms == [] then r == k
    else t < |k.task| && exists mid :: PassedOn(Unchained(k, t, ms), mid, ms[0]) && AllPassedOn(mid, r, t, ms[1..])
  }

  function Unchained(k: K, t: nat, ms: seq<nat>): K
    requires t < |k.task| && ms != []
  {
    SetTask(k, t, k.task[t].(held := ms[1..]))
  }

  // t has its initial values.
  ghost predicate Reset(k: K, r: K, t: nat) {
    && t < |k.task| == |k.pri| == |k.cfg.ipri| && SameQueuesAs(k, r)
    && var a := Task(Dormant, k.cfg.ipri[t], [], k.task[t].winfo, k.task[t].actque, false, false, true);
    && Rest(k, r, k.task[t := a], k.pri[t := k.cfg.ipri[t]], k.owner, k.tmev)
  }

  // From its initial values, t starts again if an activation is queued.
  ghost predicate Again(k: K, r: K, t: nat) {
    t < |k.task| && if k.task[t].actque then Started(SetTask(k, t, k.task[t].(actque := false)), r, t) else r == k
  }

  // t has been terminated.
  ghost predicate Ended(k: K, r: K, t: nat) {
    t < |k.task| && exists k1, k2, k3 :: Detached(k, k1, t) && AllPassedOn(k1, k2, t, k.task[t].held) && Reset(k2, k3, t) && Again(k3, r, t)
  }

  lemma DetachEffect(k: K, t: nat)
    requires t < |k.task| == |k.pri| && QueuesOk(k)
    ensures Detached(k, Quiesce(k, t), t)
  {
    hide Relinked, Move;
    var k1 := k.(tmev := k.tmev - {t});
    SameQueues(k, k1);
    MoveFields(k1, t, Dormant, k.pri[t], false);
    MoveRelinks(k1, t, Dormant, k.pri[t]);
    RelinkedSame(k1, k, Move(k1, t, Dormant, k.pri[t], false), Quiesce(k, t), t, PlaceOf(k.task[t].stat), None);
    assert k.pri[t := k.pri[t]] == k.pri;
  }

  lemma {:induction false} PassAllEffect(k: K, t: nat, ms: seq<nat>)
    requires Core(k, {t}) && t < |k.task| && k.task[t].stat.Dormant?
    requires k.task[t].held == ms && HeldOk(k.owner, t, ms)
    ensures AllPassedOn(k, ReleaseAll(k, t, ms), t, ms)
    decreases |ms|
  {
    hide PassedOn, Core, HandOver, HeldOk;
    if ms != [] {
      PassOnCore(k, t, ms);
      var k1 := Unchained(k, t, ms);
      ChainQueues(k, t, ms);
      HandOverEffect(k1, ms[0]);
      PassAllEffect(HandOver(k1, ms[0]), t, ms[1..]);
    }
  }

  lemma ChainQueues(k: K, t: nat, ms: seq<nat>)
    requires Core(k, {t}) && t < |k.task| && ms != []
    ensures QueuesOk(Unchained(k, t, ms)) && |Unchained(k, t, ms).task| == |k.pri|
  {
    SameQueues(k, Unchained(k, t, ms));
  }

  lemma EndEffect(k: K, t: nat)
    requires Core(k, {}) && t < |k.task|
    ensures Ended(k, Terminate(k, t), t)
  {
    hide Detached, AllPassedOn, QueuesOk, Started;
    assert TaskOk(k, t);
    DetachEffect(k, t);
    QuiesceCore(k, t);
    var k1, ms := Quiesce(k, t), k.task[t].held;
    PassAllEffect(k1, t, ms);
    ReleaseAllCore(k1, t, ms);
    var k2 := ReleaseAll(k1, t, ms);
    var k3 := MakeDormant(k2, t);
    MakeDormantCore(k2, t);
    assert Reset(k2, k3, t);
    assert Again(k3, Terminate(k, t), t) by {
      if k3.task[t].actque {
        var k4 := SetTask(k3, t, k3.task[t].(actque := false));
        SameQueues(k3, k4);
        StartEffect(k4, t);
      }
    }
  }

  // ---- what a termination comes to ----

  // u is the first to wait for a mutex of ms.
  ghost predicate Heir(k: K, ms: seq<nat>, u: nat) {
    u < |k.task| && k.task[u].stat.Waiting? && k.task[u].stat.cause.OnMutex? && k.task[u].stat.cause.m in ms
    && Head(Q(k, Lock(k.task[u].stat.cause.m))) == Some(u)
  }

  // What becomes of a task u that is not the terminated one.
  ghost predicate Bystander(k: K, r: K, ms: seq<nat>, u: nat)
    requires u < |k.task|
  {
    var a := k.task[u];
    && u < |r.task|
    && if Heir(k, ms, u) then
         && r.task[u] == a.(stat := if a.stat.susp then Suspended else Runnable, winfo := Wercd(E_OK), held := [a.stat.cause.m] + a.held)
         && u !in r.tmev
       else
         r.task[u] == a && At(r.pri, u) == At(k.pri, u) && (u in r.tmev <==> u in k.tmev)
  }

  ghost predicate Inheritance(k: K, r: K, t: nat, ms: seq<nat>) {
    && r.cfg == k.cfg && |r.task| == |k.task| == |k.pri| == |r.pri| && |r.owner| == |k.owner|
    && (forall m :: 0 <= m < |k.owner| ==> r.owner[m] == if m in ms then Head(Q(k, Lock(m))) else k.owner[m])
    && (forall u: nat :: u < |k.task| && u != t ==> Bystander(k, r, ms, u))
  }

  lemma PassedOnMeans(k: K, r: K, t: nat, ms: seq<nat>)
    requires t < |k.task| == |k.pri| && k.task[t].stat.Dormant? && ms != [] && PassedOn(Unchained(k, t, ms), r, ms[0])
    ensures Inheritance(k, r, t, [ms[0]])
    ensures r.task[t] == k.task[t].(held := ms[1..]) && At(r.pri, t) == At(k.pri, t) && (t in r.tmev <==> t in k.tmev)
    ensures forall m: nat :: m != ms[0] ==> Q(r, Lock(m)) == Q(k, Lock(m))
    ensures r.enadsp == k.enadsp && r.ipmAll == k.ipmAll && r.inint == k.inint
  {
    hide Quits, Joins;
    var k1 := Unchained(k, t, ms);
    assert forall pl :: Q(k1, pl) == Q(k, pl);
    forall u: nat | u < |k.task| && u != t ensures Bystander(k, r, [ms[0]], u) {
      assert k1.task[u] == k.task[u];
    }
  }

  // Two hand-overs of different mutexes do not interfere.
  lemma InheritanceAdds(k: K, mid: K, r: K, t: nat, ms: seq<nat>)
    requires ms != [] && Distinct(ms) && Inheritance(k, mid, t, [ms[0]]) && Inheritance(mid, r, t, ms[1..])
    requires forall m: nat :: m != ms[0] ==> Q(mid, Lock(m)) == Q(k, Lock(m))
    ensures Inheritance(k, r, t, ms)
  {
    assert ms == [ms[0]] + ms[1..];
    assert ms[0] !in ms[1..];
    forall u: nat | u < |k.task| && u != t ensures Bystander(k, r, ms, u) {
      assert Bystander(k, mid, [ms[0]], u) && Bystander(mid, r, ms[1..], u);
    }
  }

  lemma {:induction false} AllPassedOnMeans(k: K, r: K, t: nat, ms: seq<nat>)
    requires AllPassedOn(k, r, t, ms) && Distinct(ms) && t < |k.task| == |k.pri| && k.task[t].stat.Dormant? && k.task[t].held == ms
    ensures Inheritance(k, r, t, ms)
    ensures r.task[t] == k.task[t].(held := []) && (t in r.tmev <==> t in k.tmev)
    ensures r.enadsp == k.enadsp && r.ipmAll == k.ipmAll && r.inint == k.inint
    decreases |ms|
  {
    hide PassedOn, Inheritance;
    if ms != [] {
      var mid :| PassedOn(Unchained(k, t, ms), mid, ms[0]) && AllPassedOn(mid, r, t, ms[1..]);
      PassedOnMeans(k, mid, t, ms);
      InheritanceLengths(k, mid, t, [ms[0]]);
      AllPassedOnMeans(mid, r, t, ms[1..]);
      InheritanceAdds(k, mid, r, t, ms);
    } else {
      NoInheritance(k, t);
    }
  }

  lemma InheritanceLengths(k: K, r: K, t: nat, ms: seq<nat>)
    requires Inheritance(k, r, t, ms)
    ensures r.cfg == k.cfg && |r.task| == |k.task| == |k.pri| == |r.pri| && |r.owner| == |k.owner|
  {
  }

  lemma NoInheritance(k: K, t: nat)
    requires |k.task| == |k.pri|
    ensures Inheritance(k, k, t, [])
  {
  }

  // The state of a task after its termination: a queued activation starts it again, and only one.
  ghost predicate EndedTask(k: K, r: K, t: nat) {
    && t < |r.task| == |r.pri| && t < |k.task| && t < |k.cfg.ipri|
    && var a := r.task[t];
    && a.bpri == r.pri[t] == k.cfg.ipri[t] && a.held == [] && !a.actque && !a.wupque && !a.raster && a.enater && t !in r.tmev
    && if k.task[t].actque then a.stat.Runnable? && Stands(r.pri, Q(r, Ready), t) else a.stat.Dormant?
  }

  // Each of its mutexes goes to the first who waits for it, the others stay where they are.
  ghost predicate Bequeathed(k: K, r: K, t: nat) {
    && |r.owner| == |k.owner| && t < |k.task| == |r.task|
    && (forall m :: 0 <= m < |k.owner| ==> r.owner[m] == if k.owner[m] == Some(t) then Head(Q(k, Lock(m))) else k.owner[m])
    && (forall u: nat :: u < |k.task| && u != t ==> Bystander(k, r, k.task[t].held, u))
  }

  lemma EndedMeans(k: K, r: K, t: nat)
    requires Core(k, {}) && Ended(k, r, t)
    ensures EndedTask(k, r, t) && Bequeathed(k, r, t)
    ensures r.cfg == k.cfg && r.enadsp == k.enadsp && r.ipmAll == k.ipmAll && r.inint == k.inint
  {
    hide Detached, AllPassedOn, Reset, Again, Core, EndedTask, Bequeathed;
    var k1, k2, k3 :| Detached(k, k1, t) && AllPassedOn(k1, k2, t, k.task[t].held) && Reset(k2, k3, t) && Again(k3, r, t);
    OwnChain(k, t);
    DetachedMeans(k, k1, t);
    AllPassedOnMeans(k1, k2, t, k.task[t].held);
    ResetMeans(k, k1, k2, k3, t);
    AgainMeans(k, k3, r, t);
  }

  lemma DetachedMeans(k: K, r: K, t: nat)
    requires Detached(k, r, t) && |k.task| == |k.pri|
    ensures Rest(k, r, k.task[t := k.task[t].(stat := Dormant)], k.pri, k.owner, k.tmev - {t})
    ensures forall m: nat :: PlaceOf(k.task[t].stat) != Some(Lock(m)) ==> Q(r, Lock(m)) == Q(k, Lock(m))
  {
    hide Quits, Joins;
  }

  lemma ResetMeans(k: K, k1: K, k2: K, r: K, t: nat)
    requires t < |k.task| == |k.pri| && Reset(k2, r, t) && Inheritance(k1, k2, t, k.task[t].held)
    requires k2.task[t] == k1.task[t].(held := []) && (t in k2.tmev <==> t in k1.tmev)
    requires k2.enadsp == k1.enadsp && k2.ipmAll == k1.ipmAll && k2.inint == k1.inint
    requires Rest(k, k1, k.task[t := k.task[t].(stat := Dormant)], k.pri, k.owner, k.tmev - {t})
    requires forall m: nat :: m in k.task[t].held ==> Q(k1, Lock(m)) == Q(k, Lock(m))
    requires forall m: nat :: m in k.task[t].held <==> m < |k.owner| && k.owner[m] == Some(t)
    ensures t < |r.task| == |r.pri| == |k.cfg.ipri| && Bequeathed(k, r, t)
    ensures r.task[t] == Task(Dormant, k.cfg.ipri[t], [], k.task[t].winfo, k.task[t].actque, false, false, true)
    ensures r.pri[t] == k.cfg.ipri[t] && t !in r.tmev
    ensures r.cfg == k.cfg && r.enadsp == k.enadsp && r.ipmAll == k.ipmAll && r.inint == k.inint
  {
    forall u: nat | u < |k.task| && u != t ensures Bystander(k, r, k.task[t].held, u) {
      assert Bystander(k1, k2, k.task[t].held, u);
    }
  }

  lemma AgainMeans(k: K, k3: K, r: K, t: nat)
    requires Again(k3, r, t) && t < |k3.task| == |k3.pri| == |k.cfg.ipri| && Bequeathed(k, k3, t)
    requires k3.task[t] == Task(Dormant, k.cfg.ipri[t], [], k.task[t].winfo, k.task[t].actque, false, false, true)
    requires k3.pri[t] == k.cfg.ipri[t] && t !in k3.tmev
    requires k3.cfg == k.cfg && k3.enadsp == k.enadsp && k3.ipmAll == k.ipmAll && k3.inint == k.inint
    ensures EndedTask(k, r, t) && Bequeathed(k, r, t)
    ensures r.cfg == k.cfg && r.enadsp == k.enadsp && r.ipmAll == k.ipmAll && r.inint == k.inint
  {
    hide Stands, Joins, Quits, Heir;
    if k.task[t].actque {
      var k4 := SetTask(k3, t, k3.task[t].(actque := false));
      assert Joins(r.pri, Q(k4, Ready), Q(r, Ready), t, ByPriority(k4.cfg, Ready));
      JoinsStands(r.pri, Q(k4, Ready), Q(r, Ready), t);
      forall u: nat | u < |k.task| && u != t ensures Bystander(k, r, k.task[t].held, u) {
        assert Bystander(k, k3, k.task[t].held, u);
      }
    }
  }

  lemma OwnChain(k: K, t: nat)
    requires Core(k, {}) && t < |k.task|
    ensures |k.task| == |k.pri| == |k.cfg.ipri| && Distinct(k.task[t].held)
    ensures forall m: nat :: m in k.task[t].held <==> m < |k.owner| && k.owner[m] == Some(t)
    ensures forall m: nat :: m in k.task[t].held ==> PlaceOf(k.task[t].stat) != Some(Lock(m))
  {
    assert TaskOk(k, t);
    forall m: nat | m in k.task[t].held ensures PlaceOf(k.task[t].stat) != Some(Lock(m)) {
      assert !WaitsForMutex(k.task[t].stat, m);
    }
  }
}
