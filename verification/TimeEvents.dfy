/** The time-event manager: event time and system time rebuilt from a wrapping hardware counter,
    events by relative time, cyclic notifications, and the timer interrupt.  Every 32-bit or
    64-bit value stands beside the unbounded quantity it represents. */
module TimeEvents {
  import opened EventTimes
  import opened HeapOrder
  import opened TimeEventHeap

  const WRAP64: int := 0x1_0000_0000_0000_0000
  const TMAX_ADJTIM: int := 1_000_000
  const TMIN_ADJTIM: int := -1_000_000
  const TSTEP_MAX: int := 4_000
  const HRTCNT_MAX: int := 4_294_000_000

  datatype Er = E_OK | E_PAR | E_OBJ

  // What a handler may do to a notification: sta_alm or sta_cyc, stp_alm or stp_cyc.
  datatype Act = Start(e: nat, time: nat) | Stop(e: nat)

  // A callback: the event and the time it was due.
  datatype Firing = Firing(e: nat, at: int)

  // Which events are pending, and the time of each event.
  datatype Agenda = Agenda(pending: set<nat>, tt: seq<int>)

  // The notification of e is called back at its time: a cyclic one is due again a period later.
  function CalledBack(g: Agenda, e: nat, period: nat): Agenda {
    if e < |g.tt| then Agenda(if period > 0 then g.pending else g.pending - {e}, g.tt[e := g.tt[e] + period]) else g
  }

  // Requests of a handler, in order; times count from start.
  function Requested(g: Agenda, a: Act, start: int): Agenda {
    match a
    case Start(e, time) => if e < |g.tt| then Agenda(g.pending + {e}, g.tt[e := start + time]) else g
    case Stop(e) => Agenda(g.pending - {e}, g.tt)
  }

  function AllRequested(g: Agenda, acts: seq<Act>, start: int): Agenda {
    if acts == [] then g else Requested(AllRequested(g, acts[..|acts| - 1], start), acts[|acts| - 1], start)
  }

  lemma OneMoreRequested(g: Agenda, acts: seq<Act>, i: nat, start: int)
    requires i < |acts|
    ensures AllRequested(g, acts[..i + 1], start) == Requested(AllRequested(g, acts[..i], start), acts[i], start)
  {
    assert acts[..i + 1][..i] == acts[..i];
  }

  // The times at which event e was called back.
  ghost function TimesOf(log: seq<Firing>, e: nat): seq<int> {
    if log == [] then []
    else
      var rest, f := TimesOf(log[..|log| - 1], e), log[|log| - 1];
      if f.e == e then rest + [f.at] else rest
  }

  lemma TimesOfAppend(log: seq<Firing>, f: Firing, e: nat)
    ensures TimesOf(log + [f], e) == if f.e == e then TimesOf(log, e) + [f.at] else TimesOf(log, e)
  {
    assert (log + [f])[..|log|] == log;
  }

  ghost predicate Ascending(log: seq<Firing>) {
    forall i, j :: 0 <= i < j < |log| ==> log[i].at <= log[j].at
  }

  // first, first + period, first + 2 * period, ...
  ghost predicate Regular(times: seq<int>, first: int, period: int) {
    forall k :: 0 <= k < |times| ==> times[k] == first + k * period
  }

  function Later(a: int, b: int): int { if b > a then b else a }

  function Mod64(t: int): (r: nat)
    ensures r < WRAP64
  {
    t % WRAP64
  }

  // Where event e stands: called back at times so far, from its time first; period 0 is an alarm.
  ghost predicate ServedOne(times: seq<int>, first: int, period: nat, known: bool, live: bool, t: int) {
    && Regular(times, first, period)
    && (if !known then times == [] && !live
        else if period > 0 then live && t == first + |times| * period
        else t == first && |times| <= 1 && (live <==> times == []))
  }

  lemma ServeAgain(times: seq<int>, first: int, period: nat, t: int)
    requires ServedOne(times, first, period, true, true, t)
    ensures ServedOne(times + [t], first, period, true, period > 0, t + period)
  {
    var n := |times|;
    assert (n + 1) * period == n * period + period;
    assert n * 0 == 0;
  }

  // A cyclic notification is called at first, first + period, ... as long as these are not
  // after the present, and an alarm once if it is due: every call that is due and none before.
  lemma DueCalls(times: seq<int>, first: int, period: nat, live: bool, t: int, now: int)
    requires ServedOne(times, first, period, true, live, t)
    requires (forall k :: 0 <= k < |times| ==> times[k] <= now) && (live ==> t > now)
    ensures Regular(times, first, period)
    ensures if period > 0 then first + |times| * period > now && forall k :: 0 <= k < |times| ==> first + k * period <= now
            else |times| == if first <= now then 1 else 0
  {
    if period > 0 {
      forall k | 0 <= k < |times| ensures first + k * period <= now { assert times[k] <= now; }
    } else if times != [] {
      assert times[0] == first + 0 * period;
    }
  }

  lemma Mod64Unique(a: int, r: int, q: int)
    requires 0 <= r < WRAP64 && a == r + WRAP64 * q
    ensures Mod64(a) == r
  {
  }

  lemma Mod64Add(a: int, b: int)
    ensures Mod64(Mod64(a) + b) == Mod64(a + b)
  {
    assert a == WRAP64 * (a / WRAP64) + Mod64(a);
    var x := Mod64(a) + b;
    assert x == WRAP64 * (x / WRAP64) + x % WRAP64;
    Mod64Unique(a + b, x % WRAP64, a / WRAP64 + x / WRAP64);
  }

  // The most advanced event time moves on by less than a turn: the lower half has wrapped around
  // exactly if it has become smaller.
  lemma WrapCounted(peak: int, peak': int)
    requires peak <= peak' < peak + WRAP
    ensures Mod32(peak') - Mod32(peak) + (if Mod32(peak') < Mod32(peak) then WRAP else 0) == peak' - peak
  {
    var q := peak' / WRAP - peak / WRAP;
    assert peak' - peak == Mod32(peak') - Mod32(peak) + WRAP * q;
  }

  // The hardware counter runs from 0 to tcyc - 1.
  lemma CounterAdvance(count: int, elapsed: int, tcyc: int)
    requires 0 <= elapsed < tcyc <= WRAP
    ensures var o, n := count % tcyc, (count + elapsed) % tcyc;
            elapsed == if n < o then n - o + tcyc else n - o
  {
    CounterSplit(count, tcyc);
    CounterSplit(count + elapsed, tcyc);
    Turns(tcyc, count / tcyc, (count + elapsed) / tcyc, count % tcyc, (count + elapsed) % tcyc, elapsed);
  }

  lemma Turns(b: int, p: int, q: int, o: int, n: int, e: int)
    requires 0 <= o < b && 0 <= n < b && 0 <= e < b && b * p + o + e == b * q + n
    ensures e == if n < o then n - o + b else n - o
  {
    Distribute(b, p, q);
    OneTurn(b, q - p, o + e - n);
  }

  lemma OneTurn(b: int, k: int, d: int)
    requires b > 0 && d == b * k && -b < d < 2 * b
    ensures d == 0 || d == b
  {
    if k >= 2 { Scale(b, 2, k); }
    if k <= -1 { Scale(b, k, -1); }
  }

  lemma Distribute(b: int, p: int, q: int)
    ensures b * q - b * p == b * (q - p)
  {
  }

  lemma Scale(b: int, x: int, y: int)
    requires b > 0 && x <= y
    ensures b * x <= b * y
  {
  }

  lemma CounterSplit(a: int, b: int)
    requires b > 0
    ensures a == b * (a / b) + a % b && 0 <= a % b < b
  {
  }

  lemma SmallCount(a: int, b: int)
    requires 0 <= a < b
    ensures a % b == a
  {
  }

  class TimeManager {
    const h: EventHeap
    const tstep: nat            // TSTEP_HRTCNT
    const tcyc: nat             // TCYC_HRTCNT, 2^32 where it is not defined
    const bound: nat            // HRTCNT_BOUND
    var current: nat            // current_evttim
    var hrtcnt: nat             // current_hrtcnt
    var monotonic: nat          // monotonic_evttim
    var offset: nat             // systim_offset
    var inSignal: bool          // in_signal_time
    const cyctim: seq<nat>      // the period of a cyclic notification, 0 for an alarm
    const cycphs: seq<nat>      // the time to the first call of a cyclic notification
    var started: seq<bool>      // cycsta, almsta
    ghost var now: int          // event time
    ghost var peak: int         // the most advanced event time so far
    ghost var count: int        // all counts of the hardware counter at the last update
    ghost var base: int         // system time set last, and peak at that moment
    ghost var baseAt: int
    var timer: nat              // the counts the timer was last set to, 0 if the interrupt was raised
    ghost var setAt: int        // the count at that moment

    ghost predicate Parameters() {
      tstep <= TSTEP_MAX && 0 < tcyc <= WRAP && bound < tcyc && bound < HRTCNT_MAX
    }

    ghost predicate ClockOk()
      reads this`current, this`now, this`monotonic, this`peak, this`hrtcnt, this`count, this`offset, this`base, this`baseAt
    {
      && current == Mod32(now) && monotonic == Mod32(peak) && tcyc > 0 && hrtcnt == count % tcyc
      && 0 <= peak - now < 2 * TMAX_ADJTIM
      && offset < WRAP64 && Mod64(offset + monotonic) == Mod64(base + (peak - baseAt))
    }

    // No event is further ahead than the longest relative time from the most advanced event time p.
    ghost predicate Near(p: int)
      reads h`pending, h`tt
    {
      forall e :: e in h.pending && e < |h.tt| ==> h.tt[e] <= p + TSTEP_MAX + TMAX_RELTIM
    }

    ghost predicate Sound()
      reads this`current, this`now, this`monotonic, this`peak, this`hrtcnt, this`count, this`offset, this`base, this`baseAt, h, h.heap, h.evttim, h.pos
    {
      Parameters() && ClockOk() && h.Valid() && h.edge == now - BOUNDARY_MARGIN && Near(peak)
    }

    // The count at which the timer interrupt comes.
    ghost function Alarm(): int
      reads this`timer, this`setAt
    {
      setAt + timer
    }

    // The timer interrupt comes no later than the first of the events s is due, or is already
    // raised; and it comes before the counter has gone round unnoticed.
    ghost predicate ArmedFor(s: set<nat>)
      reads this`timer, this`setAt, this`count, this`now, h`tt
    {
      && Alarm() <= count + bound
      && forall e :: e in s && e < |h.tt| ==> Alarm() <= count || Alarm() - count <= h.tt[e] - now
    }

    ghost predicate Armed()
      reads this`timer, this`setAt, this`count, this`now, h`pending, h`tt
    {
      ArmedFor(h.pending)
    }

    ghost predicate Valid()
      reads this`current, this`now, this`monotonic, this`peak, this`hrtcnt, this`count, this`offset, this`base, this`baseAt
      reads this`inSignal, this`timer, this`setAt, h, h.heap, h.evttim, h.pos
    {
      Sound() && (!inSignal ==> Armed())
    }

    // A notification is started exactly while its event is pending.
    ghost predicate StartsOk()
      reads this`started, h`pending, h`tt
    {
      && |started| == |cyctim| == |cycphs| == |h.tt|
      && (forall e :: 0 <= e < |cyctim| ==> cyctim[e] <= TMAX_RELTIM && cycphs[e] <= TMAX_RELTIM)
      && (forall e: nat :: e < |started| ==> (started[e] <==> e in h.pending))
    }

    // By the next time the counter is read no event lags by more than the margin.
    ghost predicate NoLag(s: set<nat>, elapsed: int)
      reads this`now, h`tt
    {
      forall e :: e in s && e < |h.tt| ==> now + elapsed - h.tt[e] <= BOUNDARY_MARGIN
    }

    // initialize_tmevt
    constructor (cyctim: seq<nat>, cycphs: seq<nat>, tstep: nat, tcyc: nat, bound: nat, hrt: nat)
      requires |cyctim| == |cycphs| && forall e :: 0 <= e < |cyctim| ==> cyctim[e] <= TMAX_RELTIM && cycphs[e] <= TMAX_RELTIM
      requires tstep <= TSTEP_MAX && 0 < tcyc <= WRAP && bound < tcyc && bound < HRTCNT_MAX && hrt < tcyc
      ensures Valid() && StartsOk() && h.pending == {} && now == peak == base == baseAt == 0 && fresh(h)
    {
      hide EventHeap.Valid;
      SmallCount(hrt, tcyc);
      h := new EventHeap(|cyctim|);
      this.cyctim, this.cycphs := cyctim, cycphs;
      started := seq(|cyctim|, _ => false);
      this.tstep, this.tcyc, this.bound := tstep, tcyc, bound;
      current, monotonic, offset, hrtcnt := 0, 0, 0, hrt;
      inSignal := false;
      now, peak, count, base, baseAt := 0, 0, hrt, 0, 0;
      timer, setAt := 0, hrt;
      new;
    }

    // the end of update_current_evttim and of adj_tim: monotonic_evttim and the carry into systim_offset
    method RaiseMonotonic(previous: nat, advance: nat, ghost before: int)
      requires 0 <= peak - before < WRAP && previous == Mod32(before) && monotonic == Mod32(peak)
      requires current == Mod32(now) && now == before + advance && advance < WRAP && offset < WRAP64
      requires Mod64(offset + monotonic) == Mod64(base + (peak - baseAt))
      modifies this`offset, this`monotonic, this`peak
      ensures peak == Later(old(peak), now) && monotonic == Mod32(peak) && offset < WRAP64
      ensures Mod64(offset + monotonic) == Mod64(base + (peak - baseAt))
    {
      AdvanceIsTrue(peak, before);
      if Sub32(monotonic, previous) < advance {
        WrapCounted(peak, now);
        Mod64Add(offset + monotonic, now - peak);
        Mod64Add(base + (peak - baseAt), now - peak);
        if current < monotonic {
          Mod64Add(offset + WRAP, current);
          offset := Mod64(offset + WRAP);
        }
        monotonic := current;
        peak := now;
      }
    }

    // the elapsed counts, from two readings of the counter
    method CountsSince(newhrt: nat, ghost elapsed: nat) returns (advance: nat)
      requires Parameters() && hrtcnt == count % tcyc && elapsed < tcyc && newhrt == (count + elapsed) % tcyc
      ensures advance == elapsed
    {
      CounterAdvance(count, elapsed, tcyc);
      advance := Sub32(newhrt, hrtcnt);
      if newhrt < hrtcnt {
        ModUnique(newhrt - hrtcnt, newhrt - hrtcnt + WRAP, -1);
        advance := Mod32(advance + tcyc);
        ModUnique(newhrt - hrtcnt + WRAP + tcyc, elapsed, 1);
      }
    }

    // Every pending event stays within reach of the boundary.
    lemma Reach(advance: int)
      requires Sound() && NoLag(h.pending, advance) && peak - 2 * TMAX_ADJTIM < now + advance
      ensures var edge := now + advance - BOUNDARY_MARGIN;
              forall e :: e in h.pending ==> e < |h.tt| && edge <= h.tt[e] < edge + WRAP
    {
    }

    lemma NearLater(p: int)
      requires Near(peak) && peak <= p
      ensures Near(p)
    {
    }

    // The counter has moved on by d and event time with it.
    twostate lemma StillArmed(d: nat)
      requires now == old(now) + d && count == old(count) + d && timer == old(timer) && setAt == old(setAt)
      requires h.pending == old(h.pending) && h.tt == old(h.tt)
      ensures old(Armed()) ==> Armed()
    {
    }

    // update_current_evttim
    method UpdateCurrent(newhrt: nat, ghost elapsed: nat)
      requires Sound() && elapsed < tcyc && newhrt == (count + elapsed) % tcyc && NoLag(h.pending, elapsed)
      modifies this`current, this`hrtcnt, this`monotonic, this`offset, this`now, this`peak, this`count, h`boundary, h`edge
      ensures Sound() && now == old(now) + elapsed && count == old(count) + elapsed
      ensures peak == Later(old(peak), now)
      ensures old(Armed()) ==> Armed()
    {
      hide EventHeap.Valid, Mod32, Mod64, Sub32, NoLag, Near, ArmedFor;
      Reach(elapsed);
      NearLater(Later(peak, now + elapsed));
      var advance := CountsSince(newhrt, elapsed);
      var previous := current;
      ghost var before := now;
      ModAdd(now, advance);
      current := Mod32(current + advance);
      now := now + advance;
      hrtcnt := newhrt;
      count := count + elapsed;
      ModSub(now, BOUNDARY_MARGIN);
      h.MoveBoundary(Sub32(current, BOUNDARY_MARGIN), now - BOUNDARY_MARGIN);
      RaiseMonotonic(previous, advance, before);
      StillArmed(elapsed);
    }

    // top_evttim compared with current_evttim
    lemma TopAgainstNow()
      requires Sound() && h.pending != {}
      ensures 1 <= h.last < h.heap.Length && h.heap[1] < h.evttim.Length == |h.tt| && h.heap[1] in h.pending
      ensures forall x :: x in h.pending ==> x < |h.tt| && h.tt[h.heap[1]] <= h.tt[x]
      ensures h.Advance(current) == BOUNDARY_MARGIN
      ensures var t := h.tt[h.heap[1]];
              && h.Advance(h.evttim[h.heap[1]]) == t - h.edge
              && (t > now ==> Sub32(h.evttim[h.heap[1]], current) == t - now)
    {
      h.Earliest();
      var t := h.tt[h.heap[1]];
      AdvanceIsTrue(t, h.edge);
      AdvanceIsTrue(now, h.edge);
      if t > now { AdvanceIsTrue(t, now); }
    }

    // target_hrt_set_event, and target_hrt_raise_event with 0
    method SetEvent(hrtcnt: nat)
      modifies this`timer, this`setAt
      ensures timer == hrtcnt && setAt == count
    {
      timer := hrtcnt;
      setAt := count;
    }

    // set_hrt_event: the timer is set to the first event, at most bound counts ahead
    method SetHrtEvent()
      requires Sound()
      modifies this`timer, this`setAt
      ensures Armed() && Sound() && setAt == count
      ensures timer < bound ==> exists e :: e in h.pending && e < |h.tt| && timer == if h.tt[e] <= now then 0 else h.tt[e] - now
    {
      hide ClockOk, Near;
      if h.pending != {} { TopAgainstNow(); }
      if h.last < 1 {
        SetEvent(bound);
      } else if h.Advance(h.evttim[h.heap[1]]) <= h.Advance(current) {
        SetEvent(0);
      } else {
        var hrtcnt := Sub32(h.evttim[h.heap[1]], current);
        if hrtcnt > bound {
          SetEvent(bound);
        } else {
          SetEvent(hrtcnt);
        }
      }
    }

    // The timer is set again if e has come to the top.
    method SetIfTop(e: nat)
      requires Sound() && e in h.pending && e < h.pos.Length && (!inSignal ==> ArmedFor(h.pending - {e}))
      modifies this`timer, this`setAt
      ensures Valid()
    {
      hide ClockOk, Near;
      TopAgainstNow();
      OfEvent(h.heap[..], h.pos[..], h.last, h.pending, e);
      if !inSignal && h.pos[e] == 1 {
        SetHrtEvent();
      }
    }

    // The time of an idle event block is set.
    method SetEvttim(e: nat, t: nat, ghost truth: int)
      requires Sound() && e < |h.tt| && e !in h.pending && t == Mod32(truth) && now - BOUNDARY_MARGIN <= truth <= peak + TSTEP_MAX + TMAX_RELTIM
      modifies h`tt, h.evttim
      ensures Sound() && h.tt == old(h.tt)[e := truth] && h.Timed({e})
      ensures forall s :: e !in s && old(ArmedFor(s)) ==> ArmedFor(s)
    {
      hide EventHeap.Timed, Mod32;
      h.SetTime(e, t, truth);
    }

    // tmevtb_register
    method Register(e: nat)
      requires Sound() && e < |h.tt| && e !in h.pending && h.Timed({e}) && h.tt[e] <= peak + TSTEP_MAX + TMAX_RELTIM
      modifies h`last, h`pending, h.heap, h.pos
      ensures Sound() && h.pending == old(h.pending) + {e} && h.pending - {e} == old(h.pending)
    {
      hide ClockOk, EventHeap.Timed, EventHeap.Valid;
      assert e < h.evttim.Length by { h.Parts(); }
      h.Insert(e);
    }

    // tmevtb_enqueue
    method Enqueue(e: nat, time: nat, newhrt: nat, ghost elapsed: nat)
      requires Valid() && e < |h.tt| && e !in h.pending && time <= TMAX_RELTIM
      requires elapsed < tcyc && newhrt == (count + elapsed) % tcyc && NoLag(h.pending, elapsed)
      modifies this, h, h.heap, h.evttim, h.pos
      ensures Valid() && inSignal == old(inSignal) && started == old(started) && base == old(base) && baseAt == old(baseAt)
      ensures now == old(now) + elapsed && count == old(count) + elapsed && peak == Later(old(peak), now)
      ensures h.pending == old(h.pending) + {e} && h.tt == old(h.tt)[e := now + tstep + time]
    {
      hide Sound, NoLag, ArmedFor, EventHeap.Timed, EventHeap.Valid, Mod32;
      UpdateCurrent(newhrt, elapsed);
      ClockFacts();
      ModAdd(now, tstep + time);
      SetEvttim(e, Mod32(current + tstep + time), now + tstep + time);
      Register(e);
      SetIfTop(e);
    }

    lemma ClockFacts()
      requires Sound()
      ensures tstep <= TSTEP_MAX && current == Mod32(now) && now <= peak && h.pos.Length == h.evttim.Length == |h.tt|
    {
    }

    method Unregister(e: nat)
      requires Sound() && e in h.pending
      modifies h`last, h`pending, h.heap, h.pos
      ensures Sound() && h.pending == old(h.pending) - {e} && (old(Armed()) ==> Armed())
    {
      hide ClockOk, EventHeap.Valid;
      h.Delete(e);
    }

    // tmevtb_dequeue; only if e was at the top is the counter read
    method Dequeue(e: nat, newhrt: nat, ghost elapsed: nat)
      requires Valid() && e in h.pending && e < |h.tt|
      requires elapsed < tcyc && newhrt == (count + elapsed) % tcyc && NoLag(h.pending - {e}, elapsed)
      modifies this, h, h.heap, h.evttim, h.pos
      ensures Valid() && inSignal == old(inSignal) && started == old(started) && base == old(base) && baseAt == old(baseAt)
      ensures now - old(now) == count - old(count) && (count == old(count) || count == old(count) + elapsed)
      ensures peak == Later(old(peak), now)
      ensures h.pending == old(h.pending) - {e} && h.tt == old(h.tt) && (old(inSignal) ==> now == old(now))
    {
      hide Sound, NoLag, ArmedFor, EventHeap.Valid;
      ClockFacts();
      var place := h.pos[e];
      Unregister(e);
      if !inSignal && place == 1 {
        UpdateCurrent(newhrt, elapsed);
        SetHrtEvent();
      }
      ClockFacts();
    }

    // ---- time_manage.c ----

    // At event time t, and p when most advanced, an event or the clock itself is a second behind.
    ghost predicate Refused(adjtim: int, t: int, p: int)
      reads h`pending, h`tt
    {
      || (adjtim > 0 && exists e :: e in h.pending && e < |h.tt| && h.tt[e] <= t - TMAX_ADJTIM)
      || (adjtim < 0 && p - t >= -TMIN_ADJTIM)
    }

    // check_adjtim
    method CheckAdjtim(adjtim: int) returns (refused: bool)
      requires Sound()
      ensures refused <==> Refused(adjtim, now, peak)
    {
      if h.pending != {} { TopAgainstNow(); }
      AdvanceIsTrue(now - TMAX_ADJTIM, h.edge);
      ModSub(now, TMAX_ADJTIM);
      AdvanceIsTrue(peak, now);
      if adjtim > 0 {
        refused := h.last >= 1 && h.Advance(h.evttim[h.heap[1]]) <= h.Advance(Sub32(current, TMAX_ADJTIM));
      } else if adjtim < 0 {
        refused := Sub32(monotonic, current) >= -TMIN_ADJTIM;
      } else {
        refused := false;
      }
    }

    // set_tim
    method SetTim(systim: nat, newhrt: nat, ghost elapsed: nat)
      requires Valid() && systim < WRAP64
      requires elapsed < tcyc && newhrt == (count + elapsed) % tcyc && NoLag(h.pending, elapsed)
      modifies this, h`boundary, h`edge
      ensures Valid() && inSignal == old(inSignal) && started == old(started) && base == systim && baseAt == peak
      ensures now == old(now) + elapsed && count == old(count) + elapsed && peak == Later(old(peak), now)
    {
      hide Sound, ArmedFor, NoLag;
      UpdateCurrent(newhrt, elapsed);
      SetOffset(systim);
    }

    method SetOffset(systim: nat)
      requires Sound() && systim < WRAP64
      modifies this`offset, this`base, this`baseAt
      ensures Sound() && base == systim && baseAt == peak
    {
      hide EventHeap.Valid, Near, Mod64;
      Mod64Add(systim - monotonic, monotonic);
      offset := Mod64(systim - monotonic);
      base := systim;
      baseAt := peak;
    }

    // get_tim: the time set last plus the growth of the most advanced event time since
    method GetTim(newhrt: nat, ghost elapsed: nat) returns (systim: nat)
      requires Valid()
      requires elapsed < tcyc && newhrt == (count + elapsed) % tcyc && NoLag(h.pending, elapsed)
      modifies this, h`boundary, h`edge
      ensures Valid() && inSignal == old(inSignal) && started == old(started) && base == old(base) && baseAt == old(baseAt)
      ensures now == old(now) + elapsed && count == old(count) + elapsed && peak == Later(old(peak), now)
      ensures systim == Mod64(base + (peak - baseAt))
    {
      hide EventHeap.Valid, ArmedFor, NoLag;
      UpdateCurrent(newhrt, elapsed);
      systim := Mod64(offset + monotonic);
    }

    // the middle of adj_tim
    method MoveNow(adjtim: int)
      requires Sound() && TMIN_ADJTIM <= adjtim <= TMAX_ADJTIM
      requires adjtim > 0 ==> forall e :: e in h.pending && e < |h.tt| ==> h.tt[e] > now - TMAX_ADJTIM
      requires adjtim < 0 ==> peak - now < TMAX_ADJTIM
      modifies this`current, this`monotonic, this`offset, this`now, this`peak, h`boundary, h`edge
      ensures Sound() && now == old(now) + adjtim && peak == Later(old(peak), now)
    {
      hide Mod32, Mod64, Sub32, EventHeap.Valid;
      var previous := current;
      ghost var before := now;
      AdjustReach(adjtim);
      NearLater(Later(peak, now + adjtim));
      ModAdd(now, adjtim);
      ModSub(now + adjtim, BOUNDARY_MARGIN);
      current := Mod32(current + adjtim);
      now := now + adjtim;
      h.MoveBoundary(Sub32(current, BOUNDARY_MARGIN), now - BOUNDARY_MARGIN);
      if adjtim > 0 {
        RaiseMonotonic(previous, adjtim, before);
      }
    }

    lemma AdjustReach(adjtim: int)
      requires Sound() && TMIN_ADJTIM <= adjtim <= TMAX_ADJTIM
      requires adjtim > 0 ==> forall e :: e in h.pending && e < |h.tt| ==> h.tt[e] > now - TMAX_ADJTIM
      requires adjtim < 0 ==> peak - now < TMAX_ADJTIM
      ensures var edge := now + adjtim - BOUNDARY_MARGIN;
              forall e :: e in h.pending ==> e < |h.tt| && edge <= h.tt[e] < edge + WRAP
    {
    }

    // adj_tim
    method AdjTim(adjtim: int, newhrt: nat, ghost elapsed: nat) returns (er: Er)
      requires Valid()
      requires elapsed < tcyc && newhrt == (count + elapsed) % tcyc && NoLag(h.pending, elapsed)
      modifies this, h`boundary, h`edge
      ensures Valid() && inSignal == old(inSignal) && started == old(started) && base == old(base) && baseAt == old(baseAt) && peak >= old(peak)
      ensures er == E_PAR <==> !(TMIN_ADJTIM <= adjtim <= TMAX_ADJTIM)
      ensures er == E_OBJ <==> TMIN_ADJTIM <= adjtim <= TMAX_ADJTIM && Refused(adjtim, old(now) + elapsed, Later(old(peak), old(now) + elapsed))
      ensures er == E_PAR ==> now == old(now) && count == old(count)
      ensures er == E_OBJ ==> now == old(now) + elapsed && count == old(count) + elapsed
      ensures er == E_OK ==> now == old(now) + elapsed + adjtim && count == old(count) + elapsed
    {
      hide Sound, NoLag, ArmedFor, EventHeap.Valid;
      if !(TMIN_ADJTIM <= adjtim <= TMAX_ADJTIM) {
        return E_PAR;
      }
      UpdateCurrent(newhrt, elapsed);
      var refused := CheckAdjtim(adjtim);
      if refused {
        return E_OBJ;
      }
      MoveNow(adjtim);
      SetHrtEvent();
      return E_OK;
    }

    // ---- cyclic.c and the same in alarm.c ----

    // sta_cyc with time cycphs, sta_alm; the counter stands still during the call
    method StartAt(e: nat, time: nat, newhrt: nat, ghost elapsed: nat)
      requires Valid() && StartsOk() && e < |started| && time <= TMAX_RELTIM
      requires elapsed < tcyc && newhrt == (count + elapsed) % tcyc && NoLag(h.pending - {e}, elapsed)
      modifies this, h, h.heap, h.evttim, h.pos
      ensures Valid() && StartsOk() && inSignal == old(inSignal) && base == old(base) && baseAt == old(baseAt)
      ensures now == old(now) + elapsed && count == old(count) + elapsed && peak == Later(old(peak), now)
      ensures h.pending == old(h.pending) + {e} && h.tt == old(h.tt)[e := now + tstep + time]
    {
      hide Valid;
      ghost var target := count + elapsed;
      if started[e] {
        Dequeue(e, newhrt, elapsed);
      } else {
        started := started[e := true];
        assert h.pending - {e} == h.pending;
      }
      Enqueue(e, time, newhrt, target - count);
    }

    // stp_cyc, stp_alm
    method StopAt(e: nat, newhrt: nat, ghost elapsed: nat)
      requires Valid() && StartsOk() && e < |started|
      requires elapsed < tcyc && newhrt == (count + elapsed) % tcyc && NoLag(h.pending - {e}, elapsed)
      modifies this, h, h.heap, h.evttim, h.pos
      ensures Valid() && StartsOk() && inSignal == old(inSignal) && base == old(base) && baseAt == old(baseAt)
      ensures now - old(now) == count - old(count) && (count == old(count) || count == old(count) + elapsed)
      ensures peak == Later(old(peak), now)
      ensures h.pending == old(h.pending) - {e} && h.tt == old(h.tt) && (old(inSignal) ==> now == old(now))
    {
      if started[e] {
        started := started[e := false];
        Dequeue(e, newhrt, elapsed);
      } else {
        ClockFacts();
      }
    }

    // call_cyclic up to the handler: the next call is due one period after the time of this one
    method CallCyclic(e: nat)
      requires Sound() && Cyclic(e) && e < |h.tt| && e !in h.pending && h.Timed({e}) && h.tt[e] <= now
      modifies h`last, h`pending, h`tt, h.heap, h.evttim, h.pos
      ensures Sound() && h.pending == old(h.pending) + {e} && h.tt == old(h.tt)[e := old(h.tt[e]) + cyctim[e]]
    {
      hide EventHeap.Valid, Mod32, ClockOk, Near;
      ClockFacts();
      TimedFacts(e);
      ModAdd(h.tt[e], cyctim[e]);
      SetEvttim(e, Mod32(h.evttim[e] + cyctim[e]), h.tt[e] + cyctim[e]);
      Register(e);
    }

    ghost predicate Cyclic(e: nat) {
      e < |cyctim| && 0 < cyctim[e] <= TMAX_RELTIM
    }

    lemma TimedFacts(e: nat)
      requires Sound() && h.Timed({e})
      ensures e < h.evttim.Length && e < |h.tt| && now - BOUNDARY_MARGIN <= h.tt[e] && h.evttim[e] == Mod32(h.tt[e])
    {
    }

    method RemoveTop() returns (e: nat)
      requires Sound() && h.pending != {}
      modifies h`last, h`pending, h.heap, h.pos
      ensures Sound() && h.heap.Length > 1 && e == old(h.heap[1]) && e in old(h.pending) && h.pending == old(h.pending) - {e}
      ensures e < |h.tt| && h.Timed({e}) && forall x :: x in old(h.pending) ==> x < |h.tt| && h.tt[e] <= h.tt[x]
    {
      hide EventHeap.Valid, ClockOk, EventHeap.Timed;
      TopAgainstNow();
      TopTimed();
      h.Parts();
      e := h.DeleteTop();
    }

    // One turn of signal_time's inner loop up to the handler: the first event leaves the heap and
    // its callback registers it again if it is cyclic.
    method FireTop() returns (e: nat)
      requires Sound() && StartsOk() && h.pending != {} && h.heap.Length > 1 && h.heap[1] < |h.tt| && h.tt[h.heap[1]] <= now
      modifies this`started, h`last, h`pending, h`tt, h.heap, h.evttim, h.pos
      ensures Sound() && StartsOk() && e == old(h.heap[1]) && e in old(h.pending) && e < |h.tt| == |cyctim|
      ensures forall x :: x in old(h.pending) ==> x < |h.tt| && old(h.tt)[e] <= old(h.tt)[x]
      ensures h.pending == if cyctim[e] > 0 then old(h.pending) else old(h.pending) - {e}
      ensures h.tt == old(h.tt)[e := old(h.tt)[e] + cyctim[e]]
    {
      hide Sound, EventHeap.Timed;
      e := RemoveTop();
      if cyctim[e] > 0 {
        CallCyclic(e);
      } else {
        started := started[e := false];
        assert h.tt[e := h.tt[e] + cyctim[e]] == h.tt;
      }
    }

    lemma TopTimed()
      requires Sound() && h.pending != {} && h.heap.Length > 1 && h.heap[1] in h.pending
      ensures h.Timed({h.heap[1]})
    {
    }

    // A handler leaves the events of own alone and asks for times it may ask for.
    ghost predicate Allowed(acts: seq<Act>, own: set<nat>) {
      forall a :: a in acts ==> a.e !in own && a.e < |cyctim| && (a.Start? ==> a.time <= TMAX_RELTIM)
    }

    // What a handler changes: events of own not at all, others are idle, untouched, or due later than now.
    twostate predicate OnlyLater(own: set<nat>)
      reads this`now, h`pending, h`tt
    {
      && |h.tt| == old(|h.tt|)
      && (forall x: nat :: x in own && x < |h.tt| ==> h.tt[x] == old(h.tt)[x] && (x in h.pending <==> x in old(h.pending)))
      && (forall x: nat :: x in h.pending && x < |h.tt| ==> (x in old(h.pending) && h.tt[x] == old(h.tt)[x]) || h.tt[x] > now)
    }

    // Nothing lags just because the counter stands still.
    lemma StillNoLag(s: set<nat>)
      requires Sound()
      ensures NoLag(h.pending - s, 0) && hrtcnt == (count + 0) % tcyc && 0 < tcyc
    {
    }

    ghost function Now(): Agenda
      reads h`pending, h`tt
    {
      Agenda(h.pending, h.tt)
    }

    // What the handler asks for takes effect, request by request.
    method RunHandler(acts: seq<Act>, newhrt: nat, ghost own: set<nat>)
      requires Sound() && StartsOk() && inSignal && tstep > 0 && newhrt == hrtcnt && Allowed(acts, own)
      modifies this, h, h.heap, h.evttim, h.pos
      ensures Sound() && StartsOk() && inSignal && newhrt == hrtcnt && OnlyLater(own)
      ensures Now() == AllRequested(old(Now()), acts, now + tstep)
      ensures now == old(now) && count == old(count) && peak == old(peak) && base == old(base) && baseAt == old(baseAt)
    {
      hide Sound, StartsOk;
      var i := 0;
      while i < |acts|
        invariant i <= |acts| && Sound() && StartsOk() && inSignal && newhrt == hrtcnt && OnlyLater(own)
        invariant Now() == AllRequested(old(Now()), acts[..i], now + tstep)
        invariant now == old(now) && count == old(count) && peak == old(peak) && base == old(base) && baseAt == old(baseAt)
      {
        assert acts[i] in acts;
        OneMoreRequested(old(Now()), acts, i, now + tstep);
        RunAct(acts[i], newhrt);
        i := i + 1;
      }
      assert acts[..i] == acts;
    }

    method RunAct(a: Act, newhrt: nat)
      requires Sound() && StartsOk() && inSignal && tstep > 0 && newhrt == hrtcnt && a.e < |cyctim| && (a.Start? ==> a.time <= TMAX_RELTIM)
      modifies this, h, h.heap, h.evttim, h.pos
      ensures Sound() && StartsOk() && inSignal && newhrt == hrtcnt && |h.tt| == old(|h.tt|)
      ensures now == old(now) && count == old(count) && peak == old(peak) && base == old(base) && baseAt == old(baseAt)
      ensures Now() == Requested(old(Now()), a, now + tstep)
    {
      hide Sound, NoLag;
      ClockFacts();
      StillNoLag({a.e});
      if a.Start? {
        StartAt(a.e, a.time, newhrt, 0);
      } else {
        StopAt(a.e, newhrt, 0);
      }
      StillNoLag({});
    }

    // Where the events of own stand after the callbacks in log.
    ghost predicate Served(log: seq<Firing>, own: set<nat>, tt0: seq<int>, p0: set<nat>, tt: seq<int>, p: set<nat>) {
      && |tt0| == |tt| == |cyctim|
      && forall e: nat :: e in own && e < |tt| ==> ServedOne(TimesOf(log, e), tt0[e], cyctim[e], e in p0, e in p, tt[e])
    }

    lemma ServedStep(log: seq<Firing>, f: Firing, own: set<nat>, tt0: seq<int>, p0: set<nat>, tt: seq<int>, p: set<nat>, tt': seq<int>, p': set<nat>)
      requires Served(log, own, tt0, p0, tt, p) && |tt'| == |tt| && f.e in p && f.e < |tt| && f.at == tt[f.e]
      requires forall x: nat :: x in own && x < |tt| && x != f.e ==> tt'[x] == tt[x] && (x in p' <==> x in p)
      requires f.e in own ==> tt'[f.e] == tt[f.e] + cyctim[f.e] && (f.e in p' <==> cyctim[f.e] > 0)
      ensures Served(log + [f], own, tt0, p0, tt', p')
    {
      hide ServedOne, TimesOf;
      forall e: nat | e in own && e < |tt'| ensures ServedOne(TimesOf(log + [f], e), tt0[e], cyctim[e], e in p0, e in p', tt'[e]) {
        TimesOfAppend(log, f, e);
        if e == f.e { Known(TimesOf(log, e), tt0[e], cyctim[e], e in p0, tt[e]); ServeAgain(TimesOf(log, e), tt0[e], cyctim[e], tt[e]); }
      }
    }

    lemma Known(times: seq<int>, first: int, period: nat, known: bool, t: int)
      requires ServedOne(times, first, period, known, true, t)
      ensures known
    {
    }

    // At time t the first event of g is due: it is called back, and its handler asks for acts.
    ghost predicate Turn(g: Agenda, f: Firing, acts: seq<Act>, g': Agenda, t: int) {
      && f.e in g.pending && f.e < |g.tt| && f.e < |cyctim| && f.at == g.tt[f.e] <= t
      && (forall x :: x in g.pending && x < |g.tt| ==> f.at <= g.tt[x])
      && g' == AllRequested(CalledBack(g, f.e, cyctim[f.e]), acts, t + tstep)
    }

    // Callback by callback, with the i-th running handlers(i).
    ghost predicate Traced(handlers: nat -> seq<Act>, log: seq<Firing>, trail: seq<Agenda>, t: int) {
      |trail| == |log| + 1 && forall i: nat :: i < |log| ==> Turn(trail[i], log[i], handlers(i), trail[i + 1], t)
    }

    lemma TracedStep(handlers: nat -> seq<Act>, log: seq<Firing>, trail: seq<Agenda>, f: Firing, g: Agenda, t: int)
      requires Traced(handlers, log, trail, t) && Turn(trail[|log|], f, handlers(|log|), g, t)
      ensures Traced(handlers, log + [f], trail + [g], t)
    {
      hide Turn;
      var log', trail' := log + [f], trail + [g];
      forall i: nat | i < |log'| ensures Turn(trail'[i], log'[i], handlers(i), trail'[i + 1], t) {
        if i < |log| { assert Turn(trail[i], log[i], handlers(i), trail[i + 1], t); }
      }
    }

    // One whole turn of signal_time's inner loop.
    method FireOne(handler: seq<Act>, newhrt: nat, ghost own: set<nat>, ghost log: seq<Firing>, ghost tt0: seq<int>, ghost p0: set<nat>)
      returns (ghost f: Firing)
      requires Sound() && StartsOk() && inSignal && tstep > 0 && newhrt == hrtcnt && Allowed(handler, own)
      requires h.pending != {} && h.heap.Length > 1 && h.heap[1] < |h.tt| && h.tt[h.heap[1]] <= now
      requires Served(log, own, tt0, p0, h.tt, h.pending)
      modifies this, h, h.heap, h.evttim, h.pos
      ensures Sound() && StartsOk() && inSignal && newhrt == hrtcnt && Served(log + [f], own, tt0, p0, h.tt, h.pending)
      ensures now == old(now) && count == old(count) && peak == old(peak) && base == old(base) && baseAt == old(baseAt)
      ensures f.e == old(h.heap[1]) && f.e in old(h.pending) && f.e < |h.tt| == old(|h.tt|) && f.at == old(h.tt)[f.e] <= now
      ensures forall x :: x in old(h.pending) && x < |h.tt| ==> f.at <= old(h.tt)[x]
      ensures forall x :: x in h.pending && x < |h.tt| ==> f.at <= h.tt[x]
      ensures forall x :: x in h.pending && x < |h.tt| && h.tt[x] == f.at ==> x in old(h.pending) && x != f.e && old(h.tt)[x] == f.at
      ensures Turn(old(Now()), f, handler, Now(), now)
    {
      hide Sound, StartsOk, Served, Allowed;
      ghost var tt1, p1 := h.tt, h.pending;
      var e := FireTop();
      f := Firing(e, tt1[e]);
      RunHandler(handler, newhrt, own);
      ServedStep(log, f, own, tt0, p0, tt1, p1, h.tt, h.pending);
    }

    // The events due at time t.
    ghost function DueAt(t: int): set<nat>
      reads h`pending, h`tt
    {
      set x | x in h.pending && x < |h.tt| && h.tt[x] == t
    }

    ghost function TopTime(): int
      reads this`now, h`pending, h`tt, h.heap
    {
      if h.pending != {} && h.heap.Length > 1 && h.heap[1] < |h.tt| then h.tt[h.heap[1]] else now + 1
    }

    ghost predicate Punctual(log: seq<Firing>, t: int) {
      Ascending(log) && forall i :: 0 <= i < |log| ==> log[i].at <= t
    }

    ghost predicate After(log: seq<Firing>, tt: seq<int>, p: set<nat>) {
      log != [] ==> forall x :: x in p && x < |tt| ==> log[|log| - 1].at <= tt[x]
    }

    lemma PunctualStep(log: seq<Firing>, f: Firing, t: int, tt: seq<int>, p: set<nat>)
      requires Punctual(log, t) && After(log, tt, p) && f.e in p && f.e < |tt| && f.at == tt[f.e] <= t
      ensures Punctual(log + [f], t)
    {
    }

    // A turn serves the first event, and what is due at its time gets less.
    lemma LessDue(before: set<nat>, after: set<nat>, e: nat)
      requires after <= before - {e} && e in before
      ensures |after| < |before|
    {
      Fewer(after, before - {e});
    }

    lemma {:induction false} Fewer(a: set<nat>, b: set<nat>)
      requires a <= b
      ensures |a| <= |b|
      decreases |a|
    {
      if a != {} {
        var x :| x in a;
        Fewer(a - {x}, b - {x});
      }
    }

    // the inner loop of signal_time; the i-th callback of the interrupt runs handlers(i)
    method FireDue(handlers: nat -> seq<Act>, newhrt: nat, already: nat, ghost own: set<nat>, ghost log0: seq<Firing>, ghost trail0: seq<Agenda>, ghost tt0: seq<int>, ghost p0: set<nat>)
      returns (callflag: bool, called: nat, ghost log: seq<Firing>, ghost trail: seq<Agenda>)
      requires Sound() && StartsOk() && inSignal && tstep > 0 && newhrt == hrtcnt && forall i :: Allowed(handlers(i), own)
      requires Served(log0, own, tt0, p0, h.tt, h.pending) && Punctual(log0, now) && After(log0, h.tt, h.pending)
      requires already == |log0| && Traced(handlers, log0, trail0, now) && trail0[|log0|] == Now()
      modifies this, h, h.heap, h.evttim, h.pos
      ensures Sound() && StartsOk() && inSignal && newhrt == hrtcnt
      ensures now == old(now) && count == old(count) && peak == old(peak) && base == old(base) && baseAt == old(baseAt)
      ensures Served(log, own, tt0, p0, h.tt, h.pending) && Punctual(log, now) && After(log, h.tt, h.pending)
      ensures forall x :: x in h.pending && x < |h.tt| ==> h.tt[x] > now
      ensures callflag <==> exists x :: x in old(h.pending) && x < |h.tt| && old(h.tt)[x] <= now
      ensures called == |log| && |trail| == |log| + 1 && Traced(handlers, log, trail, now) && trail[0] == trail0[0] && trail[|log|] == Now()
    {
      hide Sound, StartsOk, Served, Allowed, Traced, Turn;
      callflag, called, log, trail := false, already, log0, trail0;
      TracedLength(handlers, log, trail, now);
      TopReached();
      while h.last >= 1 && h.Advance(h.evttim[h.heap[1]]) <= h.Advance(current)
        invariant Sound() && StartsOk() && inSignal && newhrt == hrtcnt && |h.tt| == old(|h.tt|)
        invariant now == old(now) && count == old(count) && peak == old(peak) && base == old(base) && baseAt == old(baseAt)
        invariant Served(log, own, tt0, p0, h.tt, h.pending) && Punctual(log, now) && After(log, h.tt, h.pending)
        invariant called == |log| && |trail| == |log| + 1 && Traced(handlers, log, trail, now) && trail[0] == trail0[0] && trail[|log|] == Now()
        invariant h.last >= 1 ==> 1 < h.heap.Length && h.heap[1] < h.evttim.Length
        invariant if callflag then exists x :: x in old(h.pending) && x < |h.tt| && old(h.tt)[x] <= now
                  else h.pending == old(h.pending) && h.tt == old(h.tt)
        decreases now + 1 - TopTime(), |DueAt(TopTime())|
      {
        TopReached();
        ghost var before, t := DueAt(TopTime()), TopTime();
        ghost var tt1, p1 := h.tt, h.pending;
        ghost var f := FireOne(handlers(called), newhrt, own, log, tt0, p0);
        PunctualStep(log, f, now, tt1, p1);
        TracedStep(handlers, log, trail, f, Now(), now);
        log, trail := log + [f], trail + [Now()];
        callflag, called := true, called + 1;
        TopReached();
        if TopTime() == t { LessDue(before, DueAt(t), f.e); }
      }
      TopReached();
    }

    lemma TracedLength(handlers: nat -> seq<Act>, log: seq<Firing>, trail: seq<Agenda>, t: int)
      requires Traced(handlers, log, trail, t)
      ensures |trail| == |log| + 1
    {
    }

    lemma TracedStart(handlers: nat -> seq<Act>, g: Agenda, t: int)
      ensures Traced(handlers, [], [g], t)
    {
    }

    // The loop's test is whether the first event is due.
    lemma TopReached()
      requires Sound()
      ensures h.last >= 1 <==> h.pending != {}
      ensures h.last >= 1 ==> 1 < h.heap.Length && h.heap[1] < h.evttim.Length == |h.tt| && h.heap[1] in h.pending
      ensures h.last >= 1 ==> forall x :: x in h.pending ==> x < |h.tt| && h.tt[h.heap[1]] <= h.tt[x]
      ensures h.last >= 1 ==> (h.Advance(h.evttim[h.heap[1]]) <= h.Advance(current) <==> h.tt[h.heap[1]] <= now)
    {
      h.Parts();
      if h.pending != {} { TopAgainstNow(); }
    }

    lemma ServedStart(own: set<nat>, tt: seq<int>, p: set<nat>)
      requires |tt| == |cyctim|
      ensures Served([], own, tt, p, tt, p)
    {
      forall e: nat | e in own && e < |tt| ensures ServedOne([], tt[e], cyctim[e], e in p, e in p, tt[e]) {
        assert 0 * cyctim[e] == 0;
      }
    }

    // one turn of signal_time's outer loop
    method ServeDue(handlers: nat -> seq<Act>, newhrt: nat, ghost elapsed: nat, already: nat, ghost own: set<nat>, ghost log0: seq<Firing>, ghost trail0: seq<Agenda>, ghost tt0: seq<int>, ghost p0: set<nat>)
      returns (callflag: bool, called: nat, ghost log: seq<Firing>, ghost trail: seq<Agenda>)
      requires Sound() && StartsOk() && inSignal && tstep > 0 && forall i :: Allowed(handlers(i), own)
      requires elapsed < tcyc && newhrt == (count + elapsed) % tcyc && NoLag(h.pending, elapsed)
      requires Served(log0, own, tt0, p0, h.tt, h.pending) && Punctual(log0, now + elapsed) && After(log0, h.tt, h.pending)
      requires already == |log0| && |trail0| == |log0| + 1 && Traced(handlers, log0, trail0, now + elapsed) && trail0[|log0|] == Now()
      modifies this, h, h.heap, h.evttim, h.pos
      ensures Sound() && StartsOk() && inSignal && base == old(base) && baseAt == old(baseAt)
      ensures now == old(now) + elapsed && count == old(count) + elapsed && peak == Later(old(peak), now)
      ensures Served(log, own, tt0, p0, h.tt, h.pending) && Punctual(log, now) && After(log, h.tt, h.pending)
      ensures forall x :: x in h.pending && x < |h.tt| ==> h.tt[x] > now
      ensures callflag <==> exists x :: x in old(h.pending) && x < |h.tt| && old(h.tt)[x] <= now
      ensures called == |log| && |trail| == |log| + 1 && Traced(handlers, log, trail, now) && trail[0] == trail0[0] && trail[|log|] == Now()
    {
      hide Sound, Served, Allowed, ArmedFor, Traced, NoLag;
      UpdateCurrent(newhrt, elapsed);
      StillNoLag({});
      callflag, called, log, trail := FireDue(handlers, newhrt, already, own, log0, trail0, tt0, p0);
    }

    // signal_time, with the counter standing still while it runs.  It ends, leaves no due event
    // behind, makes no call early, calls in the order of the times, and each notification that
    // handlers leave alone at exactly its own times, however late the interrupt is.  What handlers ask
    // for takes effect: trail shows the pending events and their times before and after each callback.
    method SignalTime(handlers: nat -> seq<Act>, newhrt: nat, ghost elapsed: nat, ghost own: set<nat>) returns (ghost log: seq<Firing>, ghost trail: seq<Agenda>)
      requires Valid() && StartsOk() && !inSignal && tstep > 0 && forall i :: Allowed(handlers(i), own)
      requires elapsed < tcyc && newhrt == (count + elapsed) % tcyc && NoLag(h.pending, elapsed)
      modifies this, h, h.heap, h.evttim, h.pos
      ensures Valid() && StartsOk() && !inSignal && base == old(base) && baseAt == old(baseAt)
      ensures now == old(now) + elapsed && count == old(count) + elapsed && peak == Later(old(peak), now)
      ensures forall x :: x in h.pending && x < |h.tt| ==> h.tt[x] > now
      ensures Punctual(log, now) && Served(log, own, old(h.tt), old(h.pending), h.tt, h.pending)
      ensures |trail| == |log| + 1 && Traced(handlers, log, trail, now) && trail[0] == old(Now()) && trail[|log|] == Now()
    {
      hide Sound, Served, Allowed, ArmedFor, Traced;
      inSignal := true;
      var callflag, called := true, 0;
      ghost var rounds := 0;
      ghost var target := count + elapsed;
      log, trail := [], [Now()];
      ServedStart(own, h.tt, h.pending);
      TracedStart(handlers, Now(), now + elapsed);
      while callflag
        invariant Sound() && StartsOk() && inSignal && base == old(base) && baseAt == old(baseAt)
        invariant Served(log, own, old(h.tt), old(h.pending), h.tt, h.pending) && Punctual(log, now) && After(log, h.tt, h.pending)
        invariant called == |log| && |trail| == |log| + 1 && Traced(handlers, log, trail, old(now) + elapsed) && trail[0] == old(Now()) && trail[|log|] == Now()
        invariant count - old(count) == now - old(now) && rounds <= 2
        invariant if rounds == 0 then now == old(now) && callflag && log == [] && h.tt == old(h.tt) && h.pending == old(h.pending) && peak == old(peak)
                  else now == old(now) + elapsed && peak == Later(old(peak), now) && (forall x :: x in h.pending && x < |h.tt| ==> h.tt[x] > now)
        invariant rounds == 2 ==> !callflag
        decreases 2 - rounds
      {
        StillNoLag({});
        callflag, called, log, trail := ServeDue(handlers, newhrt, target - count, called, own, log, trail, old(h.tt), old(h.pending));
        rounds := rounds + 1;
      }
      SetHrtEvent();
      inSignal := false;
    }
  }
}
