module Options {
  datatype Option<+T> = None | Some(value: T)
}

/** The kernel as one state machine: tasks, the queues they are linked into, mutexes and
    dispatching.  This is the plain form of the state: one precedence order of runnable
    tasks instead of sixteen ready queues, no bitmap, no cached task to run, and priorities
    recomputed in full.  Kernel.dfy refines it with the structures the kernel really keeps. */
module KernelState {
  import opened Options
  import opened PriorityLists

  datatype Er = E_OK | E_CTX | E_ID | E_PAR | E_OBJ | E_ILUSE | E_QOVR | E_RASTER | E_TMOUT | E_RLWAI | E_DLT

  // What a service call does to its caller.
  datatype Outcome = Returns(er: Er) | Blocks | NoReturn

  datatype Cause = Sleep | Delay | OnObject(o: nat) | OnMutex(m: nat)

  datatype Stat = Dormant | Runnable | Suspended | Waiting(cause: Cause, susp: bool)

  // The union a waiting task's p_winfo points at: the timeout block while it waits,
  // the error code once it does not.
  datatype Winfo = Tmevtb(registered: bool) | Wercd(er: Er)

  // held is the chain p_lastmtx, p_prevmtx, ... : the most recently locked mutex first.
  datatype Task = Task(stat: Stat, bpri: nat, held: seq<nat>, winfo: Winfo,
                       actque: bool, wupque: bool, raster: bool, enater: bool)

  // The ring a task's single link can be in.
  datatype Place = Ready | Object(o: nat) | Lock(m: nat)

  // Constants of the system: initial priorities, TA_NOACTQUE, ceilings (None for a mutex
  // without the ceiling protocol) and the TA_TPRI bit of mutexes and other objects.
  datatype Config = Config(ipri: seq<nat>, noactque: seq<bool>, ceil: seq<Option<nat>>, mtpri: seq<bool>, otpri: seq<bool>)

  datatype K = K(cfg: Config, task: seq<Task>, pri: seq<nat>, queue: map<Place, seq<nat>>, owner: seq<Option<nat>>,
                 tmev: set<nat>, run: Option<nat>, enadsp: bool, ipmAll: bool, inint: bool)

  datatype Res = Res(out: Outcome, k: K)

  function PlaceOf(s: Stat): Option<Place> {
    match s
    case Runnable => Some(Ready)
    case Waiting(OnObject(o), _) => Some(Object(o))
    case Waiting(OnMutex(m), _) => Some(Lock(m))
    case _ => None
  }

  function Q(k: K, pl: Place): seq<nat> {
    if pl in k.queue then k.queue[pl] else []
  }

  function CeilOf(cfg: Config, m: nat): Option<nat> {
    if m < |cfg.ceil| then cfg.ceil[m] else None
  }

  // TA_CEILING (3) contains the TA_TPRI bit (1).
  predicate ByPriority(cfg: Config, pl: Place) {
    match pl
    case Ready => true
    case Object(o) => o < |cfg.otpri| && cfg.otpri[o]
    case Lock(m) => (m < |cfg.mtpri| && cfg.mtpri[m]) || CeilOf(cfg, m).Some?
  }

  // Base priority raised to the highest ceiling among the mutexes held.
  function CalcPriority(cfg: Config, bpri: nat, held: seq<nat>): nat {
    if held == [] then bpri
    else
      var rest := CalcPriority(cfg, bpri, held[1..]);
      match CeilOf(cfg, held[0])
      case Some(c) => if c < rest then c else rest
      case None => rest
  }

  function FullPri(k: K, t: nat): nat
    requires t < |k.task|
  {
    CalcPriority(k.cfg, k.task[t].bpri, k.task[t].held)
  }

  predicate HoldsCeiling(cfg: Config, held: seq<nat>) {
    exists i :: 0 <= i < |held| && CeilOf(cfg, held[i]).Some?
  }

  predicate CeilingsAllow(cfg: Config, bpri: nat, held: seq<nat>) {
    forall i :: 0 <= i < |held| && CeilOf(cfg, held[i]).Some? ==> CeilOf(cfg, held[i]).value <= bpri
  }

  predicate CauseAllows(cfg: Config, bpri: nat, s: Stat) {
    s.Waiting? && s.cause.OnMutex? && CeilOf(cfg, s.cause.m).Some? ==> CeilOf(cfg, s.cause.m).value <= bpri
  }

  // ---- building blocks ----

  function SetTask(k: K, t: nat, x: Task): K
    requires t < |k.task|
  {
    k.(task := k.task[t := x])
  }

  function Enqueue(cfg: Config, pri: seq<nat>, q: seq<nat>, pl: Place, t: nat, front: bool): seq<nat> {
    if front then InsertFirst(pri, q, t)
    else if ByPriority(cfg, pl) then InsertLast(pri, q, t)
    else q + [t]
  }

  // The queues after task t has left the ring its state put it in.
  function Leave(k: K, t: nat): map<Place, seq<nat>>
    requires t < |k.task|
  {
    match PlaceOf(k.task[t].stat)
    case None => k.queue
    case Some(pl) => k.queue[pl := Without(Q(k, pl), t)]
  }

  ghost predicate SameTables(k: K, r: K) {
    r.cfg == k.cfg && |r.task| == |k.task| && |r.pri| == |k.pri| && |r.owner| == |k.owner|
  }

  // Every change of task state or priority: out of the old ring, into the new one.
  function Move(k: K, t: nat, s: Stat, p: nat, front: bool): K
    requires t < |k.task| == |k.pri|
  {
    var k1 := k.(queue := Leave(k, t), pri := k.pri[t := p], task := k.task[t := k.task[t].(stat := s)]);
    match PlaceOf(s)
    case None => k1
    case Some(pl) => k1.(queue := k1.queue[pl := Enqueue(k.cfg, k1.pri, Q(k1, pl), pl, t, front)])
  }

  // A new current priority.  In a ring kept in priority order, and in the precedence order,
  // the task takes its new place; in a first-in first-out ring it stays where it is.
  function Reprioritize(k: K, t: nat, p: nat, front: bool): (r: K)
    requires t < |k.task| == |k.pri|
    ensures SameTables(k, r)
  {
    match PlaceOf(k.task[t].stat)
    case Some(pl) =>
      if ByPriority(k.cfg, pl) then Move(k, t, k.task[t].stat, p, front && pl == Ready)
      else k.(pri := k.pri[t := p])
    case None => k.(pri := k.pri[t := p])
  }

  function AfterWait(s: Stat): Stat
    requires s.Waiting?
  {
    if s.susp then Suspended else Runnable
  }

  // Release from waiting: out of the wait queue, timeout cancelled, then the error code.
  function Awake(k: K, t: nat, er: Er): K
    requires t < |k.task| == |k.pri|
    requires k.task[t].stat.Waiting?
  {
    var k1 := SetTask(k, t, k.task[t].(winfo := Wercd(er))).(tmev := k.tmev - {t});
    Move(k1, t, AfterWait(k.task[t].stat), k.pri[t], false)
  }

  function AwakeAll(k: K, ts: seq<nat>, er: Er): (r: K)
    requires |k.task| == |k.pri|
    ensures SameTables(k, r)
    decreases |ts|
  {
    if ts == [] then k
    else if ts[0] < |k.task| && k.task[ts[0]].stat.Waiting? then AwakeAll(Awake(k, ts[0], er), ts[1..], er)
    else AwakeAll(k, ts[1..], er)
  }

  function BeginWait(k: K, t: nat, c: Cause, timed: bool): K
    requires t < |k.task| == |k.pri|
  {
    var k1 := SetTask(k, t, k.task[t].(winfo := Tmevtb(timed)));
    Move(k1.(tmev := if timed then k.tmev + {t} else k.tmev), t, Waiting(c, false), k.pri[t], false)
  }

  // ---- mutexes ----

  function Take(k: K, t: nat, m: nat): K
    requires t < |k.task| && m < |k.owner|
  {
    SetTask(k, t, k.task[t].(held := [m] + k.task[t].held)).(owner := k.owner[m := Some(t)])
  }

  function Untake(k: K, t: nat, m: nat): K
    requires t < |k.task|
  {
    SetTask(k, t, k.task[t].(held := Without(k.task[t].held, m)))
  }

  // Full recomputation of the current priority; a changed one puts the task ahead of its equals.
  function Settle(k: K, t: nat): (r: K)
    requires t < |k.task| == |k.pri|
    ensures SameTables(k, r)
  {
    if FullPri(k, t) == k.pri[t] then k else Reprioritize(k, t, FullPri(k, t), true)
  }

  // An unlinked mutex goes to the first waiter, or becomes free.
  function HandOver(k: K, m: nat): (r: K)
    requires |k.task| == |k.pri| && m < |k.owner|
    ensures SameTables(k, r)
  {
    var q := Q(k, Lock(m));
    if q == [] || !(q[0] < |k.task| && k.task[q[0]].stat.Waiting?) then k.(owner := k.owner[m := None])
    else
      var t := q[0];
      var k1 := Take(SetTask(k, t, k.task[t].(winfo := Wercd(E_OK))).(tmev := k.tmev - {t}), t, m);
      Move(k1, t, AfterWait(k.task[t].stat), FullPri(k1, t), false)
  }

  function Release(k: K, t: nat, m: nat): (r: K)
    requires t < |k.task| == |k.pri| && m < |k.owner|
    ensures SameTables(k, r)
  {
    HandOver(Settle(Untake(k, t, m), t), m)
  }

  // ms is the chain of t; every mutex on it is passed on, the most recent first.
  function ReleaseAll(k: K, t: nat, ms: seq<nat>): (r: K)
    requires t < |k.task| == |k.pri|
    ensures SameTables(k, r)
    decreases |ms|
  {
    if ms == [] then k
    else
      var k1 := SetTask(k, t, k.task[t].(held := ms[1..]));
      if ms[0] < |k.owner| then ReleaseAll(HandOver(k1, ms[0]), t, ms[1..]) else ReleaseAll(k1, t, ms[1..])
  }

  // ---- termination and activation ----

  function InitialTask(k: K, t: nat): Task
    requires t < |k.task| && t < |k.cfg.ipri|
  {
    Task(Dormant, k.cfg.ipri[t], [], k.task[t].winfo, k.task[t].actque, false, false, true)
  }

  function Quiesce(k: K, t: nat): K
    requires t < |k.task| == |k.pri|
  {
    Move(k.(tmev := k.tmev - {t}), t, Dormant, k.pri[t], false)
  }

  function MakeDormant(k: K, t: nat): K
    requires t < |k.task| == |k.pri| == |k.cfg.ipri|
  {
    SetTask(k, t, InitialTask(k, t)).(pri := k.pri[t := k.cfg.ipri[t]])
  }

  function MakeActive(k: K, t: nat): K
    requires t < |k.task| == |k.pri|
  {
    Move(k, t, Runnable, k.pri[t], false)
  }

  function Terminate(k: K, t: nat): K
    requires t < |k.task| == |k.pri| == |k.cfg.ipri|
  {
    var k1 := Quiesce(k, t);
    var k2 := MakeDormant(ReleaseAll(k1, t, k1.task[t].held), t);
    if k2.task[t].actque then MakeActive(SetTask(k2, t, k2.task[t].(actque := false)), t) else k2
  }

  // ---- dispatching ----

  predicate Dspflg(k: K) { k.enadsp && k.ipmAll }

  function Head(q: seq<nat>): Option<nat> {
    if q == [] then None else Some(q[0])
  }

  // The task that should run: the head of the precedence order, frozen while dispatching is off.
  function Sched(k: K): Option<nat> {
    if Dspflg(k) then Head(Q(k, Ready)) else k.run
  }

  // In an interrupt handler the switch is only requested; it happens on return.
  function Dispatch(k: K): K {
    if k.inint then k else k.(run := Sched(k))
  }
}
