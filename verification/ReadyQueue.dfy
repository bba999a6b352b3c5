/** The 16-bit map of non-empty ready queues.  Bit p, counted from the right, is priority p. */
module PriorityMap {

  const TNUM_TPRI: nat := 16

  function Shift(pri: nat): (n: bv5)
    requires pri < TNUM_TPRI
    ensures n < 16 && n as nat == pri
  {
    pri as bv5
  }

  predicate Bit(bitmap: bv16, n: bv5)
    requires n < 16
  {
    (bitmap >> n) & 1 == 1
  }

  predicate HasBit(bitmap: bv16, pri: nat)
    requires pri < TNUM_TPRI
  {
    Bit(bitmap, Shift(pri))
  }

  function Raise(bitmap: bv16, n: bv5): bv16
    requires n < 16
  {
    bitmap | ((1 as bv16) << n)
  }

  function Lower(bitmap: bv16, n: bv5): bv16
    requires n < 16
  {
    bitmap & !((1 as bv16) << n)
  }

  lemma RaiseBit(bitmap: bv16, n: bv5, q: bv5)
    requires n < 16 && q < 16
    ensures Bit(Raise(bitmap, n), q) <==> q == n || Bit(bitmap, q)
  {
  }

  lemma LowerBit(bitmap: bv16, n: bv5, q: bv5)
    requires n < 16 && q < 16
    ensures Bit(Lower(bitmap, n), q) <==> q != n && Bit(bitmap, q)
  {
  }

  function PrimapSet(bitmap: bv16, pri: nat): (b: bv16)
    requires pri < TNUM_TPRI
    ensures forall q: nat :: q < TNUM_TPRI ==> (HasBit(b, q) <==> q == pri || HasBit(bitmap, q))
  {
    var b := Raise(bitmap, Shift(pri));
    assert forall q: nat :: q < TNUM_TPRI ==> (HasBit(b, q) <==> q == pri || HasBit(bitmap, q)) by {
      forall q: nat | q < TNUM_TPRI ensures HasBit(b, q) <==> q == pri || HasBit(bitmap, q) {
        RaiseBit(bitmap, Shift(pri), Shift(q));
      }
    }
    b
  }

  function PrimapClear(bitmap: bv16, pri: nat): (b: bv16)
    requires pri < TNUM_TPRI
    ensures forall q: nat :: q < TNUM_TPRI ==> (HasBit(b, q) <==> q != pri && HasBit(bitmap, q))
  {
    var b := Lower(bitmap, Shift(pri));
    assert forall q: nat :: q < TNUM_TPRI ==> (HasBit(b, q) <==> q != pri && HasBit(bitmap, q)) by {
      forall q: nat | q < TNUM_TPRI ensures HasBit(b, q) <==> q != pri && HasBit(bitmap, q) {
        LowerBit(bitmap, Shift(pri), Shift(q));
      }
    }
    b
  }

  const BITMAP_SEARCH_TABLE: seq<nat> := [0, 1, 0, 2, 0, 1, 0, 3, 0, 1, 0, 2, 0, 1, 0]

  // Number of the lowest set bit, found by halving twice and a table look-up.
  function BitmapSearch(bitmap: bv16): (n: nat)
    requires bitmap != 0
    ensures n < TNUM_TPRI && HasBit(bitmap, n)
    ensures forall q: nat :: q < n ==> !HasBit(bitmap, q)
  {
    var b0, n0 := if bitmap & 0x00FF == 0 then bitmap >> 8 else bitmap,
                  if bitmap & 0x00FF == 0 then 8 else 0;
    var b1, n1 := if b0 & 0x000F == 0 then b0 >> 4 else b0,
                  if b0 & 0x000F == 0 then n0 + 4 else n0;
    n1 + BITMAP_SEARCH_TABLE[(b1 & 0x000F) as nat - 1]
  }

  lemma NoBits(q: nat)
    requires q < TNUM_TPRI
    ensures !HasBit(0, q)
  {
  }
}

/** The ready queue: one first-in first-out queue per priority, and a 16-bit map of the
    non-empty ones.  Laid end to end, the sixteen queues are one precedence order. */
module ReadyQueues {
  import opened PriorityLists
  import opened PriorityMap

  // ---- the precedence order the queues stand for ----

  function Flat(r: seq<seq<nat>>): seq<nat> {
    if r == [] then [] else r[0] + Flat(r[1..])
  }

  // Every queued task sits in the queue of its own current priority.
  ghost predicate Bucketed(pri: seq<nat>, r: seq<seq<nat>>) {
    forall p, i {:trigger r[p][i]} :: 0 <= p < |r| && 0 <= i < |r[p]| ==> At(pri, r[p][i]) == p
  }

  lemma {:induction false} FlatSplit(r: seq<seq<nat>>, p: nat)
    requires p < |r|
    ensures Flat(r) == Flat(r[..p]) + r[p] + Flat(r[p + 1..])
  {
    if p == 0 {
      assert r[..0] == [];
    } else {
      FlatSplit(r[1..], p - 1);
      assert r[1..][..p - 1] == r[..p][1..];
      assert r[1..][p..] == r[p + 1..];
    }
  }

  lemma {:induction false} FlatMember(r: seq<seq<nat>>, x: nat)
    requires x in Flat(r)
    ensures exists p :: 0 <= p < |r| && x in r[p]
  {
    if x in r[0] {
    } else {
      FlatMember(r[1..], x);
      var p :| 0 <= p < |r[1..]| && x in r[1..][p];
      assert r[p + 1] == r[1..][p];
    }
  }

  lemma FlatHas(r: seq<seq<nat>>, p: nat, x: nat)
    requires p < |r| && x in r[p]
    ensures x in Flat(r)
  {
    FlatSplit(r, p);
  }

  // The pieces on either side of queue p hold only higher, respectively lower, priorities.
  lemma FlatBounds(pri: seq<nat>, r: seq<seq<nat>>, p: nat)
    requires p < |r| && Bucketed(pri, r)
    ensures forall x :: x in Flat(r[..p]) ==> At(pri, x) < p
    ensures forall x :: x in r[p] ==> At(pri, x) == p
    ensures forall x :: x in Flat(r[p + 1..]) ==> p < At(pri, x)
  {
    forall x | x in Flat(r[..p]) ensures At(pri, x) < p {
      FlatMember(r[..p], x);
      var q :| 0 <= q < p && x in r[..p][q];
      assert r[q] == r[..p][q];
    }
    forall x | x in Flat(r[p + 1..]) ensures p < At(pri, x) {
      FlatMember(r[p + 1..], x);
      var q :| 0 <= q < |r| - p - 1 && x in r[p + 1..][q];
      assert r[p + 1 + q] == r[p + 1..][q];
    }
  }

  lemma FlatMemberAt(pri: seq<nat>, r: seq<seq<nat>>, x: nat)
    requires Bucketed(pri, r) && x in Flat(r)
    ensures At(pri, x) < |r| && x in r[At(pri, x)]
  {
    FlatMember(r, x);
  }

  lemma FlatSorted(pri: seq<nat>, r: seq<seq<nat>>)
    requires Bucketed(pri, r)
    ensures Sorted(pri, Flat(r))
  {
    var s := Flat(r);
    forall i, j | 0 <= i < j < |s| ensures At(pri, s[i]) <= At(pri, s[j]) {
      FlatMemberAt(pri, r, s[i]);
      var p := At(pri, s[i]);
      FlatSplit(r, p);
      FlatBounds(pri, r, p);
      var a := Flat(r[..p]);
      assert forall k :: 0 <= k < |a| ==> s[k] in a;
      if |a| + |r[p]| <= j { assert s[j] == Flat(r[p + 1..])[j - |a| - |r[p]|]; }
      else if |a| <= j { assert s[j] == r[p][j - |a|]; }
    }
  }

  // Replacing queue p by a queue of tasks of the same priority.
  lemma FlatReplace(pri: seq<nat>, r: seq<seq<nat>>, p: nat, q: seq<nat>)
    requires Bucketed(pri, r) && p < |r|
    requires forall x :: x in q ==> At(pri, x) == p
    ensures Flat(r[p := q]) == Flat(r[..p]) + q + Flat(r[p + 1..])
    ensures Bucketed(pri, r[p := q])
  {
    var r' := r[p := q];
    FlatSplit(r', p);
    assert r'[..p] == r[..p] && r'[p + 1..] == r[p + 1..];
  }

  // Appending to queue p is an entry behind equals in the precedence order,
  lemma FlatAppend(pri: seq<nat>, r: seq<seq<nat>>, t: nat)
    requires Bucketed(pri, r) && At(pri, t) < |r|
    ensures var p := At(pri, t);
            Flat(r[p := r[p] + [t]]) == InsertLast(pri, Flat(r), t)
            && Bucketed(pri, r[p := r[p] + [t]])
  {
    var p := At(pri, t);
    FlatBounds(pri, r, p);
    FlatSplit(r, p);
    FlatReplace(pri, r, p, r[p] + [t]);
    InsertLastBetween(pri, Flat(r[..p]), r[p], Flat(r[p + 1..]), t);
  }

  // and putting at the front of queue p an entry ahead of equals.
  lemma FlatPrepend(pri: seq<nat>, r: seq<seq<nat>>, t: nat)
    requires Bucketed(pri, r) && At(pri, t) < |r|
    ensures var p := At(pri, t);
            Flat(r[p := [t] + r[p]]) == InsertFirst(pri, Flat(r), t)
            && Bucketed(pri, r[p := [t] + r[p]])
  {
    var p := At(pri, t);
    FlatBounds(pri, r, p);
    FlatSplit(r, p);
    FlatReplace(pri, r, p, [t] + r[p]);
    InsertFirstBetween(pri, Flat(r[..p]), r[p], Flat(r[p + 1..]), t);
  }

  // Unlinking a task from queue p removes it from the precedence order.
  lemma FlatRemove(pri: seq<nat>, r: seq<seq<nat>>, t: nat)
    requires Bucketed(pri, r) && At(pri, t) < |r| && t in r[At(pri, t)]
    ensures var p := At(pri, t);
            Flat(r[p := Without(r[p], t)]) == Without(Flat(r), t)
            && Bucketed(pri, r[p := Without(r[p], t)])
  {
    var p := At(pri, t);
    FlatBounds(pri, r, p);
    FlatSplit(r, p);
    WithoutSubset(r[p], t);
    FlatReplace(pri, r, p, Without(r[p], t));
    RemoveBetween(Flat(r[..p]), r[p], Flat(r[p + 1..]), t);
  }

  // Bit p is set exactly when queue p is not empty.
  ghost predicate PrimapMatches(bitmap: bv16, r: seq<seq<nat>>) {
    |r| == TNUM_TPRI && forall p :: 0 <= p < TNUM_TPRI ==> (HasBit(bitmap, p) <==> r[p] != [])
  }

  lemma {:induction false} FlatEmpty(r: seq<seq<nat>>)
    requires forall p :: 0 <= p < |r| ==> r[p] == []
    ensures Flat(r) == []
  {
    if r != [] { FlatEmpty(r[1..]); }
  }

  // The full search of the ready queue finds the head of the precedence order.
  lemma SearchFindsHead(bitmap: bv16, r: seq<seq<nat>>)
    requires PrimapMatches(bitmap, r)
    ensures bitmap == 0 <==> Flat(r) == []
    ensures bitmap != 0 ==> r[BitmapSearch(bitmap)] != [] && Flat(r)[0] == r[BitmapSearch(bitmap)][0]
  {
    if bitmap == 0 {
      forall p: nat | p < TNUM_TPRI ensures r[p] == [] { NoBits(p); }
      FlatEmpty(r);
    } else {
      var p := BitmapSearch(bitmap);
      assert HasBit(bitmap, p);
      FlatSplit(r, p);
      FlatEmpty(r[..p]);
    }
  }

  // ---- the head of the precedence order after a change ----

  lemma HeadInsertLast(pri: seq<nat>, q: seq<nat>, t: nat)
    ensures var r := InsertLast(pri, q, t);
            r != [] && r[0] == if q == [] || At(pri, t) < At(pri, q[0]) then t else q[0]
  {
  }

  lemma HeadInsertFirst(pri: seq<nat>, q: seq<nat>, t: nat)
    ensures var r := InsertFirst(pri, q, t);
            r != [] && r[0] == if q == [] || At(pri, t) <= At(pri, q[0]) then t else q[0]
  {
  }

  // The head sits in the first non-empty queue; the next of that queue, if any, succeeds it.
  lemma HeadSuccessor(pri: seq<nat>, r: seq<seq<nat>>, t: nat)
    requires Bucketed(pri, r) && At(pri, t) < |r| && t in r[At(pri, t)]
    requires Flat(r) != [] && Flat(r)[0] == t
    ensures var p := At(pri, t); var r' := r[p := Without(r[p], t)];
            r'[p] != [] ==> Flat(r') != [] && Flat(r')[0] == r'[p][0]
  {
    var p := At(pri, t);
    var r' := r[p := Without(r[p], t)];
    FlatSplit(r, p);
    FlatBounds(pri, r, p);
    var a := Flat(r[..p]);
    assert forall x :: x in a ==> x != t;
    assert Flat(r)[0] in a + r[p];
    FlatSplit(r', p);
    assert r'[..p] == r[..p];
  }

  // The priority of a task that is not queued may change.
  lemma BucketedOther(pri: seq<nat>, pri': seq<nat>, r: seq<seq<nat>>)
    requires Bucketed(pri, r) && forall x :: x in Flat(r) ==> At(pri', x) == At(pri, x)
    ensures Bucketed(pri', r)
  {
    forall p, i | 0 <= p < |r| && 0 <= i < |r[p]| ensures At(pri', r[p][i]) == p {
      FlatHas(r, p, r[p][i]);
    }
  }

  // Bitmap and queues fit together, and every task is in the queue of its priority.
  ghost predicate Fit(pri: seq<nat>, r: seq<seq<nat>>, bitmap: bv16) {
    Bucketed(pri, r) && PrimapMatches(bitmap, r)
  }

  lemma ReplaceMatches(bitmap: bv16, r: seq<seq<nat>>, p: nat, q: seq<nat>)
    requires PrimapMatches(bitmap, r) && p < TNUM_TPRI
    ensures PrimapMatches(if q == [] then PrimapClear(bitmap, p) else PrimapSet(bitmap, p), r[p := q])
    ensures q != [] && r[p] != [] ==> PrimapMatches(bitmap, r[p := q])
  {
    hide HasBit, PrimapSet, PrimapClear;
    var bits, r' := if q == [] then PrimapClear(bitmap, p) else PrimapSet(bitmap, p), r[p := q];
    forall x: nat | x < TNUM_TPRI ensures HasBit(bits, x) <==> r'[x] != [] {
      assert HasBit(bitmap, x) <==> r[x] != [];
    }
    if q != [] && r[p] != [] {
      forall x: nat | x < TNUM_TPRI ensures HasBit(bitmap, x) <==> r'[x] != [] {
        assert HasBit(bitmap, x) <==> r[x] != [];
      }
    }
  }

  // A task appended to its queue.
  lemma AppendFits(pri: seq<nat>, r: seq<seq<nat>>, bitmap: bv16, t: nat)
    requires Fit(pri, r, bitmap) && At(pri, t) < TNUM_TPRI
    ensures var p := At(pri, t); var r' := r[p := r[p] + [t]]; var q := Flat(r);
            && Fit(pri, r', PrimapSet(bitmap, p)) && Flat(r') == InsertLast(pri, q, t)
            && Flat(r') != [] && Flat(r')[0] == if q == [] || At(pri, t) < At(pri, q[0]) then t else q[0]
  {
    var p := At(pri, t);
    FlatAppend(pri, r, t);
    HeadInsertLast(pri, Flat(r), t);
    ReplaceMatches(bitmap, r, p, r[p] + [t]);
    hide PrimapMatches, PrimapSet, Bucketed, Flat, InsertLast;
  }

  lemma PrependFits(pri: seq<nat>, r: seq<seq<nat>>, bitmap: bv16, t: nat)
    requires Fit(pri, r, bitmap) && At(pri, t) < TNUM_TPRI
    ensures var p := At(pri, t); var r' := r[p := [t] + r[p]]; var q := Flat(r);
            && Fit(pri, r', PrimapSet(bitmap, p)) && Flat(r') == InsertFirst(pri, q, t)
            && Flat(r') != [] && Flat(r')[0] == if q == [] || At(pri, t) <= At(pri, q[0]) then t else q[0]
  {
    var p := At(pri, t);
    FlatPrepend(pri, r, t);
    HeadInsertFirst(pri, Flat(r), t);
    ReplaceMatches(bitmap, r, p, [t] + r[p]);
    hide PrimapMatches, PrimapSet, Bucketed, Flat, InsertFirst;
  }

  // A task unlinked from its queue.
  lemma RemoveFits(pri: seq<nat>, r: seq<seq<nat>>, bitmap: bv16, t: nat)
    requires Fit(pri, r, bitmap) && t in Flat(r)
    ensures At(pri, t) < TNUM_TPRI
    ensures var p := At(pri, t); var r' := r[p := Without(r[p], t)]; var q := Flat(r);
            && Fit(pri, r', if r'[p] == [] then PrimapClear(bitmap, p) else bitmap)
            && Flat(r') == Without(q, t)
            && (q[0] != t ==> Flat(r') != [] && Flat(r')[0] == q[0])
            && (q[0] == t && r'[p] != [] ==> Flat(r') != [] && Flat(r')[0] == r'[p][0])
  {
    FlatMemberAt(pri, r, t);
    FlatRemove(pri, r, t);
    if Flat(r)[0] == t { HeadSuccessor(pri, r, t); }
    ReplaceMatches(bitmap, r, At(pri, t), Without(r[At(pri, t)], t));
  }

  // The head h of the new order when t goes from priority o to p and s was the head before,
  // in the cases the kernel tells apart.
  ghost predicate HeadAfter(pri: seq<nat>, h: nat, s: nat, t: nat, o: nat, p: nat, front: bool) {
    if s == t then p < o ==> h == t
    else h == if (if front then p <= At(pri, s) else p < At(pri, s)) then t else s
  }

  lemma RequeuedHead(pri: seq<nat>, r: seq<seq<nat>>, bitmap: bv16, t: nat, p: nat, front: bool)
    requires Fit(pri, r, bitmap) && t in Flat(r) && Distinct(Flat(r)) && t < |pri|
    ensures var pri', rest := pri[t := p], Without(Flat(r), t);
            var now := if front then InsertFirst(pri', rest, t) else InsertLast(pri', rest, t);
            now != [] && HeadAfter(pri', now[0], Flat(r)[0], t, pri[t], p, front)
  {
    var pri', q := pri[t := p], Flat(r);
    var rest := Without(q, t);
    FlatSorted(pri, r);
    HeadInsertFirst(pri', rest, t);
    HeadInsertLast(pri', rest, t);
    if q[0] == t {
      assert |q| > 1 ==> At(pri, q[0]) <= At(pri, q[1]) && q[1] != t;
    }
  }

  // Out of the queue of its old priority, into that of the new one.
  lemma RequeueFits(pri: seq<nat>, r: seq<seq<nat>>, bitmap: bv16, t: nat, p: nat, front: bool)
    requires Fit(pri, r, bitmap) && t in Flat(r) && Distinct(Flat(r)) && t < |pri| && p < TNUM_TPRI
    ensures pri[t] < |r|
    ensures var r1 := r[pri[t] := Without(r[pri[t]], t)];
            var b1 := if r1[pri[t]] == [] then PrimapClear(bitmap, pri[t]) else bitmap;
            var r2 := r1[p := if front then [t] + r1[p] else r1[p] + [t]];
            var pri', rest := pri[t := p], Without(Flat(r), t);
            && Fit(pri', r2, PrimapSet(b1, p))
            && Flat(r2) == if front then InsertFirst(pri', rest, t) else InsertLast(pri', rest, t)
  {
    RemoveFits(pri, r, bitmap, t);
    WithoutMembers(Flat(r), t);
    var r1 := r[pri[t] := Without(r[pri[t]], t)];
    var b1 := if r1[pri[t]] == [] then PrimapClear(bitmap, pri[t]) else bitmap;
    BucketedOther(pri, pri[t := p], r1);
    hide Bucketed, PrimapMatches, PrimapSet, PrimapClear, Flat, InsertFirst, InsertLast, Without;
    if front { PrependFits(pri[t := p], r1, b1, t); } else { AppendFits(pri[t := p], r1, b1, t); }
  }

  // The priority of a task outside the ready queues changes.
  lemma UnqueuedFits(pri: seq<nat>, r: seq<seq<nat>>, bitmap: bv16, t: nat, p: nat)
    requires Fit(pri, r, bitmap) && t !in Flat(r) && t < |pri|
    ensures Fit(pri[t := p], r, bitmap)
  {
    BucketedOther(pri, pri[t := p], r);
  }

  // Rotating queue p: its head goes behind its equals; with one task nothing moves.
  lemma RotateFits(pri: seq<nat>, r: seq<seq<nat>>, bitmap: bv16, p: nat)
    requires Fit(pri, r, bitmap) && p < TNUM_TPRI && r[p] != [] && Distinct(Flat(r))
    ensures var t, r' := r[p][0], r[p := r[p][1..] + [r[p][0]]];
            && Fit(pri, r', bitmap) && Flat(r') == InsertLast(pri, Without(Flat(r), t), t)
            && (|r[p]| == 1 ==> r' == r) && Flat(r) != [] && Flat(r') != []
            && (Flat(r)[0] != t ==> Flat(r')[0] == Flat(r)[0])
            && (Flat(r)[0] == t ==> Flat(r')[0] == r'[p][0])
  {
    var t, r' := r[p][0], r[p := r[p][1..] + [r[p][0]]];
    FlatHas(r, p, t);
    assert At(pri, t) == p;
    assert |r[p]| == 1 ==> r[p][1..] == [] && r'[p] == r[p];
    FlatRemove(pri, r, t);
    FlatAppend(pri, r[p := Without(r[p], t)], t);
    assert r[p := Without(r[p], t)][p := Without(r[p], t) + [t]] == r';
    ReplaceMatches(bitmap, r, p, r'[p]);
    RotateHead(pri, r, p);
  }

  lemma RotateHead(pri: seq<nat>, r: seq<seq<nat>>, p: nat)
    requires Bucketed(pri, r) && p < |r| && r[p] != []
    ensures var t, r' := r[p][0], r[p := r[p][1..] + [r[p][0]]];
            && Flat(r) != [] && Flat(r') != []
            && (Flat(r)[0] != t ==> Flat(r')[0] == Flat(r)[0])
            && (Flat(r)[0] == t ==> Flat(r')[0] == r'[p][0])
  {
    var t, r' := r[p][0], r[p := r[p][1..] + [r[p][0]]];
    FlatSplit(r, p);
    FlatSplit(r', p);
    assert r'[..p] == r[..p];
    FlatBounds(pri, r, p);
    var a := Flat(r[..p]);
    assert forall x :: x in a ==> x != t;
    assert a != [] ==> Flat(r)[0] == a[0] && Flat(r')[0] == a[0];
    assert a == [] ==> Flat(r)[0] == t;
  }

  lemma FitSearch(pri: seq<nat>, r: seq<seq<nat>>, bitmap: bv16)
    requires Fit(pri, r, bitmap)
    ensures |r| == TNUM_TPRI && (bitmap == 0 <==> Flat(r) == [])
    ensures bitmap != 0 ==> r[BitmapSearch(bitmap)] != [] && Flat(r)[0] == r[BitmapSearch(bitmap)][0]
  {
    SearchFindsHead(bitmap, r);
  }
}
