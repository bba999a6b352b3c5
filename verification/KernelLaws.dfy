/** Where tasks enter and leave queues, said by positions alone. */
module QueueLaws {
  import opened Options
  import opened PriorityLists
  import opened KernelState
  import opened KernelInvariant

  // r is q with t put at place n.
  ghost predicate PutAt(q: seq<nat>, r: seq<nat>, t: nat, n: nat) {
    n <= |q| && r == q[..n] + [t] + q[n..]
  }

  // Everybody ahead of place n has the priority of t or a higher one, everybody behind a lower one.
  ghost predicate BehindEquals(pri: seq<nat>, q: seq<nat>, t: nat, n: nat) {
    n <= |q| && (forall i :: 0 <= i < n ==> At(pri, q[i]) <= At(pri, t)) && (forall i :: n <= i < |q| ==> At(pri, t) < At(pri, q[i]))
  }

  ghost predicate AheadOfEquals(pri: seq<nat>, q: seq<nat>, t: nat, n: nat) {
    n <= |q| && (forall i :: 0 <= i < n ==> At(pri, q[i]) < At(pri, t)) && (forall i :: n <= i < |q| ==> At(pri, t) <= At(pri, q[i]))
  }

  // t enters q: behind its equals if the queue is in priority order, else at the end.
  ghost predicate Joins(pri: seq<nat>, q: seq<nat>, r: seq<nat>, t: nat, ordered: bool) {
    exists n: nat :: PutAt(q, r, t, n) && if ordered then BehindEquals(pri, q, t, n) else n == |q|
  }

  ghost predicate JoinsAhead(pri: seq<nat>, q: seq<nat>, r: seq<nat>, t: nat) {
    exists n: nat :: PutAt(q, r, t, n) && AheadOfEquals(pri, q, t, n)
  }

  // t stands behind everybody of its priority or a higher one and ahead of everybody of a lower one.
  ghost predicate Stands(pri: seq<nat>, q: seq<nat>, t: nat) {
    exists n: nat :: n < |q| && q[n] == t
      && (forall i :: 0 <= i < n ==> At(pri, q[i]) <= At(pri, t)) && (forall i :: n < i < |q| ==> At(pri, t) < At(pri, q[i]))
  }

  lemma JoinsStands(pri: seq<nat>, q: seq<nat>, r: seq<nat>, t: nat)
    requires Joins(pri, q, r, t, true)
    ensures Stands(pri, r, t)
  {
    var n: nat :| PutAt(q, r, t, n) && BehindEquals(pri, q, t, n);
    assert r[n] == t;
    forall i | n < i < |r| ensures At(pri, t) < At(pri, r[i]) { assert r[i] == q[i - 1]; }
  }

  // t leaves q and nobody else moves.
  ghost predicate Quits(q: seq<nat>, r: seq<nat>, t: nat) {
    exists n: nat :: PutAt(r, q, t, n)
  }

  // t leaves q and enters it again.
  ghost predicate Requeues(pri: seq<nat>, q: seq<nat>, r: seq<nat>, t: nat, front: bool) {
    exists mid: seq<nat> :: Quits(q, mid, t) && if front then JoinsAhead(pri, mid, r, t) else Joins(pri, mid, r, t, true)
  }

  lemma PutBehind(x: nat, q: seq<nat>, r: seq<nat>, t: nat, n: nat)
    requires PutAt(q, r, t, n)
    ensures PutAt([x] + q, [x] + r, t, n + 1)
  {
    assert ([x] + q)[..n + 1] == [x] + q[..n] && ([x] + q)[n + 1..] == q[n..];
  }

  lemma {:induction false} WithoutQuits(q: seq<nat>, t: nat)
    requires t in q
    ensures Quits(q, Without(q, t), t)
  {
    hide PutAt;
    if q[0] == t {
      HeadQuits(q);
    } else {
      WithoutQuits(q[1..], t);
      var r := Without(q[1..], t);
      var n: nat :| PutAt(r, q[1..], t, n);
      PutBehind(q[0], r, q[1..], t, n);
      assert [q[0]] + q[1..] == q;
    }
  }

  lemma HeadQuits(q: seq<nat>)
    requires q != []
    ensures PutAt(q[1..], q, q[0], 0)
  {
    assert q[1..][..0] + [q[0]] + q[1..][0..] == q;
  }

  lemma LastJoins(pri: seq<nat>, q: seq<nat>, t: nat)
    requires Sorted(pri, q)
    ensures Joins(pri, q, InsertLast(pri, q, t), t, true)
  {
    var n := Slot(pri, q, At(pri, t));
    assert PutAt(q, InsertLast(pri, q, t), t, n);
    assert BehindEquals(pri, q, t, n);
  }

  lemma FirstJoins(pri: seq<nat>, q: seq<nat>, t: nat)
    requires Sorted(pri, q)
    ensures JoinsAhead(pri, q, InsertFirst(pri, q, t), t)
  {
    var n := Slot(pri, q, At(pri, t) - 1);
    assert PutAt(q, InsertFirst(pri, q, t), t, n);
    assert AheadOfEquals(pri, q, t, n);
  }

  lemma EndJoins(pri: seq<nat>, q: seq<nat>, t: nat)
    ensures Joins(pri, q, q + [t], t, false)
  {
    assert PutAt(q, q + [t], t, |q|);
  }

  // The place t has in q does not depend on the priority t had before.
  lemma EnqueueJoins(cfg: Config, pri: seq<nat>, q: seq<nat>, pl: Place, t: nat, front: bool)
    requires ByPriority(cfg, pl) ==> Sorted(pri, q)
    ensures !front ==> Joins(pri, q, Enqueue(cfg, pri, q, pl, t, front), t, ByPriority(cfg, pl))
    ensures front && ByPriority(cfg, pl) ==> JoinsAhead(pri, q, Enqueue(cfg, pri, q, pl, t, front), t)
  {
    if ByPriority(cfg, pl) {
      if front { FirstJoins(pri, q, t); } else { LastJoins(pri, q, t); }
    } else {
      EndJoins(pri, q, t);
    }
  }

  // ---- what a move does to the queue at pl ----

  lemma LeaveQueue(k: K, t: nat, pl: Place)
    requires t < |k.task|
    ensures Q(k.(queue := Leave(k, t)), pl) == if PlaceOf(k.task[t].stat) == Some(pl) then Without(Q(k, pl), t) else Q(k, pl)
  {
  }

  lemma MoveElsewhere(k: K, t: nat, s: Stat, p: nat, front: bool, pl: Place)
    requires t < |k.task| == |k.pri| && PlaceOf(k.task[t].stat) != Some(pl) && PlaceOf(s) != Some(pl)
    ensures Q(Move(k, t, s, p, front), pl) == Q(k, pl)
  {
    MoveQueue(k, t, s, p, front, pl);
    LeaveQueue(k, t, pl);
  }

  lemma MoveQuits(k: K, t: nat, s: Stat, p: nat, front: bool, pl: Place)
    requires t < |k.task| == |k.pri| && Linked(k, pl) && PlaceOf(k.task[t].stat) == Some(pl) && PlaceOf(s) != Some(pl)
    ensures Quits(Q(k, pl), Q(Move(k, t, s, p, front), pl), t)
  {
    MoveQueue(k, t, s, p, front, pl);
    LeaveQueue(k, t, pl);
    WithoutQuits(Q(k, pl), t);
  }

  lemma MoveJoins(k: K, t: nat, s: Stat, p: nat, pl: Place)
    requires t < |k.task| == |k.pri| && Linked(k, pl) && PlaceOf(k.task[t].stat) != Some(pl) && PlaceOf(s) == Some(pl)
    ensures Joins(k.pri[t := p], Q(k, pl), Q(Move(k, t, s, p, false), pl), t, ByPriority(k.cfg, pl))
  {
    MoveQueue(k, t, s, p, false, pl);
    LeaveQueue(k, t, pl);
    LeaveLinked(k, t, k.pri[t := p], pl);
    EnqueueJoins(k.cfg, k.pri[t := p], Q(k, pl), pl, t, false);
  }

  lemma MoveRequeues(k: K, t: nat, s: Stat, p: nat, front: bool, pl: Place)
    requires t < |k.task| == |k.pri| && Linked(k, pl) && ByPriority(k.cfg, pl)
    requires PlaceOf(k.task[t].stat) == Some(pl) && PlaceOf(s) == Some(pl)
    ensures Requeues(k.pri[t := p], Q(k, pl), Q(Move(k, t, s, p, front), pl), t, front)
  {
    MoveQueue(k, t, s, p, front, pl);
    LeaveQueue(k, t, pl);
    LeaveLinked(k, t, k.pri[t := p], pl);
    var mid := Without(Q(k, pl), t);
    WithoutQuits(Q(k, pl), t);
    EnqueueJoins(k.cfg, k.pri[t := p], mid, pl, t, front);
  }

  // ---- the queues as a whole ----

  // t goes from one place to another; either may be no queue at all.
  ghost predicate Relinked(k: K, r: K, t: nat, from: Option<Place>, to: Option<Place>) {
    forall pl ::
      if from == Some(pl) then Quits(Q(k, pl), Q(r, pl), t)
      else if to == Some(pl) then Joins(r.pri, Q(k, pl), Q(r, pl), t, ByPriority(k.cfg, pl))
      else Q(r, pl) == Q(k, pl)
  }

  // t has a new place in the queue it is in.
  ghost predicate Replaced(k: K, r: K, t: nat, at: Place, front: bool) {
    Requeues(r.pri, Q(k, at), Q(r, at), t, front) && forall pl :: pl != at ==> Q(r, pl) == Q(k, pl)
  }

  ghost predicate SameQueuesAs(k: K, r: K) {
    forall pl :: Q(r, pl) == Q(k, pl)
  }

  lemma MoveRelinks(k: K, t: nat, s: Stat, p: nat)
    requires t < |k.task| == |k.pri| && QueuesOk(k) && (PlaceOf(k.task[t].stat) == PlaceOf(s) ==> PlaceOf(s).None?)
    ensures Relinked(k, Move(k, t, s, p, false), t, PlaceOf(k.task[t].stat), PlaceOf(s))
  {
    hide Move, Quits, Joins, Linked;
    MoveFields(k, t, s, p, false);
    var r, from, to := Move(k, t, s, p, false), PlaceOf(k.task[t].stat), PlaceOf(s);
    forall pl ensures if from == Some(pl) then Quits(Q(k, pl), Q(r, pl), t)
        else if to == Some(pl) then Joins(r.pri, Q(k, pl), Q(r, pl), t, ByPriority(k.cfg, pl))
        else Q(r, pl) == Q(k, pl)
    {
      assert Linked(k, pl);
      if from == Some(pl) { MoveQuits(k, t, s, p, false, pl); }
      else if to == Some(pl) { MoveJoins(k, t, s, p, pl); }
      else { MoveElsewhere(k, t, s, p, false, pl); }
    }
  }

  lemma MoveReplaces(k: K, t: nat, s: Stat, p: nat, front: bool, at: Place)
    requires t < |k.task| == |k.pri| && QueuesOk(k) && PlaceOf(k.task[t].stat) == PlaceOf(s) == Some(at) && ByPriority(k.cfg, at)
    ensures Replaced(k, Move(k, t, s, p, front), t, at, front)
  {
    hide Move, Requeues, Linked;
    MoveFields(k, t, s, p, front);
    assert Linked(k, at);
    MoveRequeues(k, t, s, p, front, at);
    forall pl | pl != at ensures Q(Move(k, t, s, p, front), pl) == Q(k, pl) { MoveElsewhere(k, t, s, p, front, pl); }
  }
}
