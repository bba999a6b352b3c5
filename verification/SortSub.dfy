/** Enumerable#sort of mruby: a quicksort that divides the elements from one of two arrays into the
    other, changing their roles at every level. */
module SortSub {

  // What <=> or the block has to be.
  ghost predicate TotalPreorder<T(!new)>(cmp: (T, T) -> int) {
    && (forall x, y :: cmp(x, y) <= 0 || cmp(y, x) <= 0)
    && (forall x, y, z :: cmp(x, y) <= 0 && cmp(y, z) <= 0 ==> cmp(x, z) <= 0)
  }

  ghost predicate SortedBy<T>(s: seq<T>, cmp: (T, T) -> int) {
    forall i, j :: 0 <= i < j < |s| ==> cmp(s[i], s[j]) <= 0
  }

  // r has the elements of s, each as often, in order.
  ghost predicate SortedForm<T>(r: seq<T>, s: seq<T>, cmp: (T, T) -> int) {
    |r| == |s| && multiset(r) == multiset(s) && SortedBy(r, cmp)
  }

  ghost predicate NotAbove<T>(s: seq<T>, key: T, cmp: (T, T) -> int) {
    forall x :: x in s ==> cmp(x, key) <= 0
  }

  ghost predicate Above<T>(s: seq<T>, key: T, cmp: (T, T) -> int) {
    forall x :: x in s ==> cmp(x, key) > 0
  }

  lemma SameMembers<T>(r: seq<T>, s: seq<T>, x: T)
    requires multiset(r) == multiset(s) && x in r
    ensures x in s
  {
    assert x in multiset(r);
  }

  lemma JoinSorted<T(!new)>(lo: seq<T>, key: T, hi: seq<T>, cmp: (T, T) -> int)
    requires TotalPreorder(cmp) && SortedBy(lo, cmp) && SortedBy(hi, cmp)
    requires (forall i :: 0 <= i < |lo| ==> cmp(lo[i], key) <= 0) && (forall i :: 0 <= i < |hi| ==> cmp(key, hi[i]) <= 0)
    ensures SortedBy(lo + [key] + hi, cmp)
  {
    var r, n := lo + [key] + hi, |lo|;
    forall i, j | 0 <= i < j < |r| ensures cmp(r[i], r[j]) <= 0 {
      if i < n < j { Through(lo[i], key, hi[j - n - 1], cmp); }
    }
  }

  lemma Through<T(!new)>(x: T, y: T, z: T, cmp: (T, T) -> int)
    requires TotalPreorder(cmp) && cmp(x, y) <= 0 && cmp(y, z) <= 0
    ensures cmp(x, z) <= 0
  {
  }

  lemma Other<T(!new)>(x: T, y: T, cmp: (T, T) -> int)
    requires TotalPreorder(cmp) && cmp(x, y) > 0
    ensures cmp(y, x) <= 0
  {
  }

  // The two parts sorted, with the dividing element between them.
  lemma Join<T(!new)>(lo': seq<T>, lo: seq<T>, key: T, hi': seq<T>, hi: seq<T>, s: seq<T>, cmp: (T, T) -> int)
    requires TotalPreorder(cmp) && SortedForm(lo', lo, cmp) && SortedForm(hi', hi, cmp)
    requires Divided(s, lo, key, hi, cmp)
    ensures SortedForm(lo' + [key] + hi', s, cmp)
  {
    hide TotalPreorder, SortedBy;
    forall i | 0 <= i < |lo'| ensures cmp(lo'[i], key) <= 0 { SameMembers(lo', lo, lo'[i]); }
    forall i | 0 <= i < |hi'| ensures cmp(key, hi'[i]) <= 0 { SameMembers(hi', hi, hi'[i]); Other(hi'[i], key, cmp); }
    JoinSorted(lo', key, hi', cmp);
    assert multiset(lo' + [key] + hi') == multiset(lo') + multiset{key} + multiset(hi');
  }

  // The elements seen so far: lo, the dividing element and hi.
  ghost predicate Divided<T>(seen: seq<T>, lo: seq<T>, key: T, hi: seq<T>, cmp: (T, T) -> int) {
    && |seen| == |lo| + 1 + |hi| && multiset(seen) == multiset(lo) + multiset{key} + multiset(hi)
    && NotAbove(lo, key, cmp) && Above(hi, key, cmp)
  }

  lemma MoreAbove<T>(seen: seq<T>, lo: seq<T>, key: T, hi: seq<T>, x: T, cmp: (T, T) -> int)
    requires Divided(seen, lo, key, hi, cmp) && cmp(x, key) > 0
    ensures Divided(seen + [x], lo, key, [x] + hi, cmp)
  {
  }

  lemma MoreBelow<T>(seen: seq<T>, lo: seq<T>, key: T, hi: seq<T>, x: T, cmp: (T, T) -> int)
    requires Divided(seen, lo, key, hi, cmp) && cmp(x, key) <= 0
    ensures Divided(seen + [x], lo + [x], key, hi, cmp)
  {
  }

  lemma DividedFirst<T>(s: seq<T>, key: T, cmp: (T, T) -> int)
    requires s == [key]
    ensures Divided(s, [], key, [], cmp)
  {
  }

  // The array has lo from head to i and hi behind j up to end, and is d0 outside of head to end.
  ghost predicate Laid<T>(d: seq<T>, d0: seq<T>, head: nat, i: nat, j: int, end: nat, lo: seq<T>, hi: seq<T>) {
    && |d| == |d0| && head <= i <= j + 1 <= end <= |d| && d[head..i] == lo && d[j + 1..end] == hi
    && forall k :: 0 <= k < |d| && !(head <= k < end) ==> d[k] == d0[k]
  }

  method StoreLow<T>(dst: array<T>, ghost d0: seq<T>, head: nat, i: nat, ghost j: int, ghost end: nat, ghost lo: seq<T>, ghost hi: seq<T>, x: T)
    requires Laid(dst[..], d0, head, i, j, end, lo, hi) && i <= j
    modifies dst
    ensures Laid(dst[..], d0, head, i + 1, j, end, lo + [x], hi)
  {
    ghost var d := dst[..];
    dst[i] := x;
    assert dst[..][head..i + 1] == d[head..i] + [x];
    assert dst[..][j + 1..end] == d[j + 1..end];
  }

  method StoreHigh<T>(dst: array<T>, ghost d0: seq<T>, ghost head: nat, ghost i: nat, j: int, ghost end: nat, ghost lo: seq<T>, ghost hi: seq<T>, x: T)
    requires Laid(dst[..], d0, head, i, j, end, lo, hi) && i <= j
    modifies dst
    ensures Laid(dst[..], d0, head, i, j - 1, end, lo, [x] + hi)
  {
    ghost var d := dst[..];
    dst[j] := x;
    assert dst[..][head..i] == d[head..i];
    assert dst[..][j..end] == [x] + d[j + 1..end];
  }

  // the loop of __sort_sub__: elements not above the first fill dst from head up, the others from tail down
  method Divide<T>(src: array<T>, dst: array<T>, head: nat, tail: nat, cmp: (T, T) -> int) returns (i: nat, ghost lo: seq<T>, ghost hi: seq<T>)
    requires src != dst && head < tail < src.Length && tail < dst.Length
    modifies dst
    ensures head <= i <= tail && Laid(dst[..], old(dst[..]), head, i, i, tail + 1, lo, hi)
    ensures Divided(old(src[..])[head..tail + 1], lo, old(src[head]), hi, cmp)
  {
    hide Divided, Laid;
    var key := src[head];
    var j := tail;
    var idx := head + 1;
    i := head;
    lo, hi := [], [];
    ghost var s, d0, seen := src[..], dst[..], [key];
    DividedFirst(seen, key, cmp);
    LaidFirst(d0, head, tail + 1);
    while idx <= tail
      invariant head < idx <= tail + 1 && head <= i <= j <= tail && j - i == tail + 1 - idx && src[..] == s && seen == s[head..idx]
      invariant Laid(dst[..], d0, head, i, j, tail + 1, lo, hi) && Divided(seen, lo, key, hi, cmp)
    {
      var x := src[idx];
      assert s[head..idx + 1] == s[head..idx] + [x] by { NextSlice(s, head, idx); }
      if cmp(x, key) > 0 {
        assert Divided(seen + [x], lo, key, [x] + hi, cmp) by { MoreAbove(seen, lo, key, hi, x, cmp); }
        StoreHigh(dst, d0, head, i, j, tail + 1, lo, hi, x);
        hi := [x] + hi;
        j := j - 1;
      } else {
        assert Divided(seen + [x], lo + [x], key, hi, cmp) by { MoreBelow(seen, lo, key, hi, x, cmp); }
        StoreLow(dst, d0, head, i, j, tail + 1, lo, hi, x);
        lo := lo + [x];
        i := i + 1;
      }
      seen := seen + [x];
      idx := idx + 1;
    }
  }

  lemma NextSlice<T>(s: seq<T>, head: nat, idx: nat)
    requires head <= idx < |s|
    ensures s[head..idx + 1] == s[head..idx] + [s[idx]]
  {
  }

  lemma LaidFirst<T>(d: seq<T>, head: nat, end: nat)
    requires head < end <= |d|
    ensures Laid(d, d, head, head, end - 1, end, [], [])
  {
  }

  // the recursive calls of __sort_sub__, which are made only for a part that is not empty
  method SortPart<T(!new)>(sorted: array<T>, work: array<T>, srcAry: nat, first: nat, end: nat, cmp: (T, T) -> int)
    requires sorted != work && first <= end <= sorted.Length && end <= work.Length && srcAry < 2 && TotalPreorder(cmp)
    modifies sorted, work
    ensures SortedForm(sorted[first..end], old(if srcAry == 0 then sorted[first..end] else work[first..end]), cmp)
    ensures forall k :: 0 <= k < sorted.Length && !(first <= k < end) ==> sorted[k] == old(sorted[k])
    ensures forall k :: 0 <= k < work.Length && !(first <= k < end) ==> work[k] == old(work[k])
    decreases end - first, 1, 0
  {
    if first < end {
      SortSub(sorted, work, srcAry, first, end - 1, cmp);
    }
  }

  // both recursive calls; the parts lo and hi are in the array that is the source now
  method SortBoth<T(!new)>(sorted: array<T>, work: array<T>, srcAry: nat, head: nat, i: nat, tail: nat, cmp: (T, T) -> int, ghost lo: seq<T>, ghost hi: seq<T>)
    requires sorted != work && head <= i <= tail < sorted.Length && tail < work.Length && srcAry < 2 && TotalPreorder(cmp)
    requires (if srcAry == 0 then sorted[head..i] else work[head..i]) == lo
    requires (if srcAry == 0 then sorted[i + 1..tail + 1] else work[i + 1..tail + 1]) == hi
    modifies sorted, work
    ensures SortedForm(sorted[head..i], lo, cmp) && sorted[i] == old(sorted[i]) && SortedForm(sorted[i + 1..tail + 1], hi, cmp)
    ensures forall k :: 0 <= k < sorted.Length && !(head <= k <= tail) ==> sorted[k] == old(sorted[k])
    ensures forall k :: 0 <= k < work.Length && !(head <= k <= tail) ==> work[k] == old(work[k])
    decreases tail + 1 - head, 0, 0
  {
    hide SortedForm, TotalPreorder;
    SortPart(sorted, work, srcAry, head, i, cmp);
    ghost var left := sorted[head..i];
    assert (if srcAry == 0 then sorted[i + 1..tail + 1] else work[i + 1..tail + 1]) == hi;
    SortPart(sorted, work, srcAry, i + 1, tail + 1, cmp);
    assert sorted[head..i] == left;
  }

  // __sort_sub__: sorted[head..tail] becomes the sorted form of the same stretch of the source
  // array, which is sorted itself if srcAry is 0 and work if it is 1; nothing else is written.
  method SortSub<T(!new)>(sorted: array<T>, work: array<T>, srcAry: nat, head: nat, tail: nat, cmp: (T, T) -> int)
    requires sorted != work && head <= tail < sorted.Length && tail < work.Length && srcAry < 2 && TotalPreorder(cmp)
    modifies sorted, work
    ensures SortedForm(sorted[head..tail + 1], old(if srcAry == 0 then sorted[head..tail + 1] else work[head..tail + 1]), cmp)
    ensures forall k :: 0 <= k < sorted.Length && !(head <= k <= tail) ==> sorted[k] == old(sorted[k])
    ensures forall k :: 0 <= k < work.Length && !(head <= k <= tail) ==> work[k] == old(work[k])
    decreases tail + 1 - head, 0, 1
  {
    hide SortedForm, Divided, TotalPreorder;
    if head == tail {
      Single(sorted[head..tail + 1], cmp);
      Single(work[head..tail + 1], cmp);
      if srcAry == 1 {
        sorted[head] := work[head];
        assert sorted[head..tail + 1] == work[head..tail + 1];
      }
      return;
    }
    var src, dst := sorted, work;
    if srcAry != 0 {
      src, dst := work, sorted;
    }
    ghost var s := src[..][head..tail + 1];
    var key := src[head];
    var i, lo, hi := Divide(src, dst, head, tail, cmp);
    sorted[i] := key;
    var next := (srcAry + 1) % 2;
    SortBoth(sorted, work, next, head, i, tail, cmp, lo, hi);
    ghost var left, right := sorted[head..i], sorted[i + 1..tail + 1];
    Join(left, lo, key, right, hi, s, cmp);
    assert sorted[head..tail + 1] == left + [key] + right;
  }

  lemma Single<T>(s: seq<T>, cmp: (T, T) -> int)
    requires |s| <= 1
    ensures SortedForm(s, s, cmp)
  {
  }

  // sort
  method Sort<T(0, !new)>(elements: seq<T>, cmp: (T, T) -> int) returns (ary: array<T>)
    requires TotalPreorder(cmp)
    ensures fresh(ary) && SortedForm(ary[..], elements, cmp)
  {
    ary := new T[|elements|];
    var n := 0;
    while n < |elements|
      invariant n <= |elements| && ary[..n] == elements[..n]
    {
      ary[n] := elements[n];
      n := n + 1;
    }
    assert ary[..] == elements;
    if ary.Length > 1 {
      var work := new T[ary.Length];
      assert ary[0..ary.Length - 1 + 1] == elements;
      SortSub(ary, work, 0, 0, ary.Length - 1, cmp);
      assert ary[0..ary.Length - 1 + 1] == ary[..];
    } else {
      Single(elements, cmp);
    }
  }
}
