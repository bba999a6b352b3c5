/** Sequences of task numbers ordered by priority.  A smaller number is a higher priority.
    Every queue of the kernel is such a sequence: the head is what p_next of the ring's
    header points at. */
module PriorityLists {

  ghost predicate Distinct(s: seq<nat>) {
    forall i, j :: 0 <= i < j < |s| ==> s[i] != s[j]
  }

  // Table lookup made total, so that list functions need no side conditions.
  function At(pri: seq<nat>, t: nat): nat {
    if t < |pri| then pri[t] else 0
  }

  ghost predicate Sorted(pri: seq<nat>, s: seq<nat>) {
    forall i, j :: 0 <= i < j < |s| ==> At(pri, s[i]) <= At(pri, s[j])
  }

  function Insert(s: seq<nat>, n: nat, t: nat): seq<nat>
    requires n <= |s|
  {
    s[..n] + [t] + s[n..]
  }

  // The place the insertion loop of a priority-ordered queue stops at:
  // behind the leading entries whose priority is p or higher.
  function Slot(pri: seq<nat>, s: seq<nat>, p: int): (n: nat)
    ensures n <= |s|
    ensures forall i :: 0 <= i < n ==> At(pri, s[i]) <= p
    ensures n < |s| ==> p < At(pri, s[n])
  {
    if s == [] || p < At(pri, s[0]) then 0 else 1 + Slot(pri, s[1..], p)
  }

  // Entry behind all entries of the same priority.
  function InsertLast(pri: seq<nat>, s: seq<nat>, t: nat): seq<nat> {
    Insert(s, Slot(pri, s, At(pri, t)), t)
  }

  // Entry ahead of all entries of the same priority.
  function InsertFirst(pri: seq<nat>, s: seq<nat>, t: nat): seq<nat> {
    Insert(s, Slot(pri, s, At(pri, t) - 1), t)
  }

  // Unlinking.
  function Without(s: seq<nat>, t: nat): seq<nat> {
    if s == [] then [] else if s[0] == t then s[1..] else [s[0]] + Without(s[1..], t)
  }

  lemma InsertMembers(s: seq<nat>, n: nat, t: nat)
    requires n <= |s|
    ensures forall x :: x in Insert(s, n, t) <==> x == t || x in s
    ensures Distinct(s) && t !in s ==> Distinct(Insert(s, n, t))
  {
    var r := Insert(s, n, t);
    assert s == s[..n] + s[n..];
    if Distinct(s) && t !in s {
      forall i, j | 0 <= i < j < |r| ensures r[i] != r[j] {
        assert r[i] == (if i < n then s[i] else if i == n then t else s[i - 1]);
        assert r[j] == (if j < n then s[j] else if j == n then t else s[j - 1]);
      }
    }
  }

  lemma {:induction false} WithoutMembers(s: seq<nat>, t: nat)
    requires Distinct(s)
    ensures forall x :: x in Without(s, t) <==> x != t && x in s
    ensures Distinct(Without(s, t))
    ensures |Without(s, t)| == if t in s then |s| - 1 else |s|
  {
    if s != [] {
      assert s == [s[0]] + s[1..];
      WithoutMembers(s[1..], t);
      assert s[0] !in s[1..];
      assert s[0] != t ==> s[0] !in Without(s[1..], t);
    }
  }

  lemma SortedInsertLast(pri: seq<nat>, s: seq<nat>, t: nat)
    requires Sorted(pri, s)
    ensures Sorted(pri, InsertLast(pri, s, t))
  {
    var n := Slot(pri, s, At(pri, t));
    var r := InsertLast(pri, s, t);
    forall i, j | 0 <= i < j < |r| ensures At(pri, r[i]) <= At(pri, r[j]) {
      assert r[i] == (if i < n then s[i] else if i == n then t else s[i - 1]);
      assert r[j] == (if j < n then s[j] else if j == n then t else s[j - 1]);
      if n < |s| { assert forall k :: n <= k < |s| ==> At(pri, s[n]) <= At(pri, s[k]); }
    }
  }

  lemma SortedInsertFirst(pri: seq<nat>, s: seq<nat>, t: nat)
    requires Sorted(pri, s)
    ensures Sorted(pri, InsertFirst(pri, s, t))
  {
    var n := Slot(pri, s, At(pri, t) - 1);
    var r := InsertFirst(pri, s, t);
    forall i, j | 0 <= i < j < |r| ensures At(pri, r[i]) <= At(pri, r[j]) {
      assert r[i] == (if i < n then s[i] else if i == n then t else s[i - 1]);
      assert r[j] == (if j < n then s[j] else if j == n then t else s[j - 1]);
      if n < |s| { assert forall k :: n <= k < |s| ==> At(pri, s[n]) <= At(pri, s[k]); }
    }
  }

  lemma {:induction false} WithoutSubset(s: seq<nat>, t: nat)
    ensures forall x :: x in Without(s, t) ==> x in s
  {
    if s != [] {
      assert s == [s[0]] + s[1..];
      WithoutSubset(s[1..], t);
    }
  }

  lemma {:induction false} SortedWithout(pri: seq<nat>, s: seq<nat>, t: nat)
    requires Sorted(pri, s)
    ensures Sorted(pri, Without(s, t))
  {
    if s != [] && s[0] != t {
      SortedWithout(pri, s[1..], t);
      WithoutSubset(s[1..], t);
      assert forall x :: x in s[1..] ==> At(pri, s[0]) <= At(pri, x);
    }
  }

  // Changing the priority of a task that is not listed leaves the list sorted.
  lemma SortedOther(pri: seq<nat>, pri': seq<nat>, s: seq<nat>)
    requires Sorted(pri, s)
    requires forall x :: x in s ==> At(pri', x) == At(pri, x)
    ensures Sorted(pri', s)
  {
  }

  // Slot is the only place with its property in a sorted list.
  lemma SlotUnique(pri: seq<nat>, s: seq<nat>, p: int, n: nat)
    requires n <= |s|
    requires forall i :: 0 <= i < n ==> At(pri, s[i]) <= p
    requires forall i :: n <= i < |s| ==> p < At(pri, s[i])
    ensures Slot(pri, s, p) == n
  {
    var m := Slot(pri, s, p);
    assert m < |s| ==> p < At(pri, s[m]);
    assert n < |s| ==> p < At(pri, s[n]);
  }

  lemma InsertBetween(pri: seq<nat>, a: seq<nat>, b: seq<nat>, p: int, t: nat)
    requires forall x :: x in a ==> At(pri, x) <= p
    requires forall x :: x in b ==> p < At(pri, x)
    ensures Slot(pri, a + b, p) == |a| && Insert(a + b, |a|, t) == a + [t] + b
  {
    var s := a + b;
    assert forall i :: 0 <= i < |a| ==> s[i] in a;
    assert forall i :: |a| <= i < |s| ==> s[i] in b;
    SlotUnique(pri, s, p, |a|);
  }

  lemma InsertLastBetween(pri: seq<nat>, a: seq<nat>, q: seq<nat>, b: seq<nat>, t: nat)
    requires forall x :: x in a || x in q ==> At(pri, x) <= At(pri, t)
    requires forall x :: x in b ==> At(pri, t) < At(pri, x)
    ensures InsertLast(pri, a + q + b, t) == a + (q + [t]) + b
  {
    InsertBetween(pri, a + q, b, At(pri, t), t);
    assert a + (q + [t]) == a + q + [t];
  }

  lemma Assoc(a: seq<nat>, b: seq<nat>, c: seq<nat>)
    ensures a + b + c == a + (b + c)
  {
  }

  lemma InsertFirstBetween(pri: seq<nat>, a: seq<nat>, q: seq<nat>, b: seq<nat>, t: nat)
    requires forall x :: x in a ==> At(pri, x) < At(pri, t)
    requires forall x :: x in q ==> At(pri, t) <= At(pri, x)
    requires forall x :: x in b ==> At(pri, t) <= At(pri, x)
    ensures InsertFirst(pri, a + q + b, t) == a + ([t] + q) + b
  {
    var p: int, c := At(pri, t), q + b;
    InsertBetween(pri, a, c, p - 1, t);
    Assoc(a, q, b);
    Assoc(a, [t], q);
    Assoc(a + [t], q, b);
  }

  lemma {:induction false} WithoutSkips(a: seq<nat>, c: seq<nat>, t: nat)
    requires t !in a
    ensures Without(a + c, t) == a + Without(c, t)
  {
    if a == [] {
      assert a + c == c;
    } else {
      WithoutSkips(a[1..], c, t);
      assert (a + c)[1..] == a[1..] + c;
    }
  }

  lemma {:induction false} WithoutStops(q: seq<nat>, b: seq<nat>, t: nat)
    requires t in q
    ensures Without(q + b, t) == Without(q, t) + b
  {
    assert (q + b)[1..] == q[1..] + b;
    if q[0] != t { WithoutStops(q[1..], b, t); }
  }

  lemma RemoveBetween(a: seq<nat>, q: seq<nat>, b: seq<nat>, t: nat)
    requires t !in a && t in q
    ensures Without(a + q + b, t) == a + Without(q, t) + b
  {
    assert a + q + b == a + (q + b);
    WithoutSkips(a, q + b, t);
    WithoutStops(q, b, t);
    assert a + (Without(q, t) + b) == a + Without(q, t) + b;
  }
}

/** Lists threaded through a table of next links, as the pools of the kernel keep them. */
module LinkedChains {
  import opened PriorityLists

  function Succ(ns: seq<nat>, i: int, nil: nat): nat {
    if 0 <= i && i + 1 < |ns| then ns[i + 1] else nil
  }

  // ns are the nodes of a list linked by next from head on.
  ghost predicate Chain(next: seq<nat>, head: nat, ns: seq<nat>, nil: nat) {
    && head == (if ns == [] then nil else ns[0])
    && forall i :: 0 <= i < |ns| ==> ns[i] < |next| && next[ns[i]] == Succ(ns, i, nil)
  }

  lemma ChainOther(next: seq<nat>, head: nat, ns: seq<nat>, nil: nat, x: nat, v: nat)
    requires Chain(next, head, ns, nil) && x !in ns && x < |next|
    ensures Chain(next[x := v], head, ns, nil)
  {
  }

  lemma ChainTail(next: seq<nat>, head: nat, ns: seq<nat>, nil: nat)
    requires Chain(next, head, ns, nil) && ns != []
    ensures head == ns[0] < |next| && Chain(next, next[head], ns[1..], nil)
  {
    var rest := ns[1..];
    assert next[ns[0]] == Succ(ns, 0, nil);
    forall i | 0 <= i < |rest| ensures rest[i] < |next| && next[rest[i]] == Succ(rest, i, nil) {
      assert rest[i] == ns[i + 1];
    }
  }

  lemma ChainPush(next: seq<nat>, head: nat, ns: seq<nat>, nil: nat, x: nat)
    requires Chain(next, head, ns, nil) && x !in ns && x < |next|
    ensures Chain(next[x := head], x, [x] + ns, nil)
  {
    var next', all := next[x := head], [x] + ns;
    forall i | 0 <= i < |all| ensures all[i] < |next'| && next'[all[i]] == Succ(all, i, nil) {
      if i > 0 {
        assert all[i] == ns[i - 1] && ns[i - 1] in ns;
        assert Succ(all, i, nil) == Succ(ns, i - 1, nil);
      }
    }
  }

  // A node linked in at place i.
  lemma ChainInsert(next: seq<nat>, head: nat, ns: seq<nat>, nil: nat, i: nat, x: nat)
    requires Chain(next, head, ns, nil) && i <= |ns| && x !in ns && x < |next| && Distinct(ns)
    ensures i > 0 ==> ns[i - 1] < |next|
    ensures var next1 := next[x := if i < |ns| then ns[i] else nil];
            if i == 0 then Chain(next1, x, Insert(ns, i, x), nil)
            else Chain(next1[ns[i - 1] := x], head, Insert(ns, i, x), nil)
  {
    var next1 := next[x := if i < |ns| then ns[i] else nil];
    var next2 := if i == 0 then next1 else next1[ns[i - 1] := x];
    var all := Insert(ns, i, x);
    hide Insert, Chain, Distinct, Succ;
    InsertedAt(ns, i, x, 0);
    forall j | 0 <= j < |all| ensures all[j] < |next2| && next2[all[j]] == Succ(all, j, nil) {
      InsertedLink(next, head, ns, nil, i, x, j);
    }
    IsChain(next2, if i == 0 then x else head, all, nil);
  }

  lemma IsChain(next: seq<nat>, head: nat, all: seq<nat>, nil: nat)
    requires all != [] && head == all[0] && forall j :: 0 <= j < |all| ==> all[j] < |next| && next[all[j]] == Succ(all, j, nil)
    ensures Chain(next, head, all, nil)
  {
  }

  // The link of the j-th node after x has been linked in at place i.
  lemma InsertedLink(next: seq<nat>, head: nat, ns: seq<nat>, nil: nat, i: nat, x: nat, j: nat)
    requires Chain(next, head, ns, nil) && i <= |ns| && x !in ns && x < |next| && Distinct(ns) && j <= |ns|
    ensures i > 0 ==> ns[i - 1] < |next|
    ensures var all, next1 := Insert(ns, i, x), next[x := if i < |ns| then ns[i] else nil];
            var next2 := if i == 0 then next1 else next1[ns[i - 1] := x];
            all[j] < |next2| && next2[all[j]] == Succ(all, j, nil)
  {
    hide Insert, Chain, Distinct;
    InsertedAt(ns, i, x, j);
    if j < |ns| { InsertedAt(ns, i, x, j + 1); }
    if i > 0 { Linked(next, head, ns, nil, x, i - 1, i - 1); }
    if j < i {
      Linked(next, head, ns, nil, x, j, i - 1);
    } else if j > i {
      Linked(next, head, ns, nil, x, j - 1, if i > 0 then i - 1 else 0);
    }
  }

  lemma Linked(next: seq<nat>, head: nat, ns: seq<nat>, nil: nat, x: nat, j: nat, other: nat)
    requires Chain(next, head, ns, nil) && Distinct(ns) && x !in ns && j < |ns| && other < |ns|
    ensures ns[j] < |next| && next[ns[j]] == Succ(ns, j, nil) && ns[j] != x && (j != other ==> ns[j] != ns[other])
  {
    assert ns[j] in ns;
  }

  lemma InsertedAt(ns: seq<nat>, i: nat, x: nat, j: nat)
    requires i <= |ns| && j <= |ns|
    ensures |Insert(ns, i, x)| == |ns| + 1 && Insert(ns, i, x)[j] == if j < i then ns[j] else if j == i then x else ns[j - 1]
  {
  }
}
