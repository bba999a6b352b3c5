/** Data queues: a ring buffer coupled to the tasks waiting to send and to receive. */
module DataQueues {
  import opened Options

  datatype Er = E_OK | E_ILUSE | E_NOEXS | E_TMOUT

  // A task waiting to send: its p_winfo holds the data word.
  datatype Sender = Sender(task: nat, data: int)

  // A task woken from waiting to receive, and the data word it gets.
  datatype Receipt = Receipt(task: nat, data: int)

  // The caller goes on with an error code, or it waits.
  datatype Outcome = Returns(er: Er) | Blocks

  // Data words in the order they leave: count of them from head on, wrapping around.
  function Stored(b: seq<int>, head: nat, count: nat): (r: seq<int>)
    requires count <= |b| && (head < |b| || head == 0)
    ensures |r| == count
  {
    if head + count <= |b| then b[head..head + count] else b[head..] + b[..head + count - |b|]
  }

  // The index n places after head.
  function Place(size: nat, head: nat, n: nat): (r: nat)
    requires n <= size && (head < size || head == 0)
    ensures r < size || size == 0
  {
    if head + n >= size then head + n - size else head + n
  }

  function Words(ws: seq<Sender>): (r: seq<int>)
    ensures |r| == |ws|
  {
    seq(|ws|, i requires 0 <= i < |ws| => ws[i].data)
  }

  function Tasks(ws: seq<Sender>): (r: seq<nat>)
    ensures |r| == |ws|
  {
    seq(|ws|, i requires 0 <= i < |ws| => ws[i].task)
  }

  lemma StoredAppend(b: seq<int>, head: nat, count: nat, x: int)
    requires count < |b| && head < |b|
    ensures Stored(b[Place(|b|, head, count) := x], head, count + 1) == Stored(b, head, count) + [x]
  {
  }

  lemma StoredDrop(b: seq<int>, head: nat, count: nat)
    requires 0 < count <= |b| && head < |b|
    ensures b[head] == Stored(b, head, count)[0]
    ensures Stored(b, Place(|b|, head, 1), count - 1) == Stored(b, head, count)[1..]
  {
    var next := Place(|b|, head, 1);
    if head + count <= |b| {
      assert Stored(b, head, count)[1..] == b[head + 1..head + count];
    } else {
      assert (b[head..] + b[..head + count - |b|])[1..] == b[head + 1..] + b[..head + count - |b|];
    }
  }

  lemma WordsSplit(ws: seq<Sender>)
    requires ws != []
    ensures Words(ws) == [ws[0].data] + Words(ws[1..])
  {
  }

  lemma WordsAppend(ws: seq<Sender>, w: Sender)
    ensures Words(ws + [w]) == Words(ws) + [w.data] && ws[..|ws|] + [w] + ws[|ws|..] == ws + [w]
  {
  }

  // One word leaves the buffer, the next in line moves up into it.
  lemma Shift(d: int, rest: seq<int>, buffer: seq<int>, w: int, line: seq<int>)
    requires [d] + rest == buffer
    ensures [d] + (rest + [w] + line) == buffer + ([w] + line)
    ensures [d] + (rest + line) == buffer + line
  {
  }

  class DataQueue {
    const mb: array<int>            // p_dtqmb
    const tpri: bool                // TA_TPRI: senders wait in priority order
    var noexs: bool                 // dtqatr == TA_NOEXS
    var count: nat
    var head: nat
    var tail: nat
    var swait: seq<Sender>          // swait_queue
    var rwait: seq<nat>             // rwait_queue
    ghost var sent: seq<int>        // every data word handed over by a sender, in calling order
    ghost var received: seq<int>    // every data word a receiver got
    ghost var plain: bool           // no word was dropped, withdrawn or sent out of turn so far

    ghost predicate RingOk()
      reads this`count, this`head, this`tail
    {
      && count <= mb.Length && (head < mb.Length || head == 0) && tail == Place(mb.Length, head, count)
    }

    // The words in the buffer.
    ghost function Contents(): seq<int>
      requires RingOk()
      reads this`count, this`head, this`tail, mb
    {
      Stored(mb[..], head, count)
    }

    // The words on their way: in the buffer, then with the waiting senders.
    ghost function Pending(): seq<int>
      requires RingOk()
      reads this`count, this`head, this`tail, this`swait, mb
    {
      Contents() + Words(swait)
    }

    ghost predicate Valid()
      reads this, mb
    {
      && RingOk()
      && (swait != [] ==> count == mb.Length && rwait == [])
      && (rwait != [] ==> count == 0)
      && (plain ==> sent == received + Pending())
    }

    constructor (dtqcnt: nat, tpri: bool)
      ensures Valid() && Pending() == [] && rwait == [] && !noexs && plain && mb.Length == dtqcnt && this.tpri == tpri && fresh(mb)
    {
      mb := new int[dtqcnt];
      this.tpri := tpri;
      noexs, count, head, tail, swait, rwait := false, 0, 0, 0, [], [];
      sent, received, plain := [], [], true;
    }

    // enqueue_data
    method EnqueueData(data: int)
      requires RingOk() && count < mb.Length
      modifies mb, this`count, this`tail
      ensures RingOk() && count == old(count) + 1 && Contents() == old(Contents()) + [data]
    {
      StoredAppend(mb[..], head, count, data);
      mb[tail] := data;
      count := count + 1;
      tail := tail + 1;
      if tail >= mb.Length {
        tail := 0;
      }
    }

    // force_enqueue_data: a full buffer loses its oldest word
    method ForceEnqueueData(data: int)
      requires RingOk() && 0 < mb.Length
      modifies mb, this`count, this`head, this`tail
      ensures RingOk() && count == (if old(count) < mb.Length then old(count) + 1 else old(count))
      ensures Contents() == (if old(count) < mb.Length then old(Contents()) else old(Contents())[1..]) + [data]
    {
      ghost var b := mb[..];
      if count < mb.Length {
        StoredAppend(b, head, count, data);
      } else {
        StoredDrop(b, head, count);
        StoredAppend(b, Place(mb.Length, head, 1), count - 1, data);
      }
      mb[tail] := data;
      tail := tail + 1;
      if tail >= mb.Length {
        tail := 0;
      }
      if count < mb.Length {
        count := count + 1;
      } else {
        head := tail;
      }
    }

    // dequeue_data
    method DequeueData() returns (data: int)
      requires RingOk() && count > 0
      modifies this`count, this`head
      ensures RingOk() && count == old(count) - 1 && [data] + Contents() == old(Contents())
    {
      StoredDrop(mb[..], head, count);
      data := mb[head];
      count := count - 1;
      head := head + 1;
      if head >= mb.Length {
        head := 0;
      }
    }

    // send_data; a waiting receiver gets the word at once and is woken
    method SendData(data: int) returns (ok: bool, woken: Option<Receipt>)
      requires Valid()
      modifies mb, this`count, this`tail, this`rwait, this`sent, this`received
      ensures RingOk() && (ok ==> Valid()) && (!ok ==> unchanged(this) && unchanged(mb))
      ensures !ok <==> old(rwait) == [] && old(count) == mb.Length
      ensures woken == (if old(rwait) == [] then None else Some(Receipt(old(rwait)[0], data)))
      ensures ok ==> rwait == (if old(rwait) == [] then [] else old(rwait)[1..]) && sent == old(sent) + [data]
      ensures ok && old(rwait) == [] ==> Contents() == old(Contents()) + [data] && received == old(received)
      ensures old(rwait) != [] ==> Pending() == old(Pending()) == [] && received == old(received) + [data]
    {
      if rwait != [] {
        woken := Some(Receipt(rwait[0], data));
        rwait := rwait[1..];
        sent, received := sent + [data], received + [data];
        return true, woken;
      } else if count < mb.Length {
        EnqueueData(data);
        sent := sent + [data];
        return true, None;
      } else {
        return false, None;
      }
    }

    // snd_dtq, psnd_dtq (poll), tsnd_dtq.  place: where the wait queue takes the caller in.
    method SndDtq(self: nat, data: int, place: nat, poll: bool) returns (out: Outcome, woken: Option<Receipt>)
      requires Valid() && place <= |swait| && (!tpri ==> place == |swait|)
      modifies this, mb
      ensures Valid() && noexs == old(noexs)
      ensures out == Returns(E_NOEXS) <==> noexs
      ensures out == Returns(E_OK) <==> !noexs && (old(rwait) != [] || old(count) < mb.Length)
      ensures out == Returns(E_TMOUT) <==> !noexs && old(rwait) == [] && old(count) == mb.Length && poll
      ensures out == Blocks <==> !noexs && old(rwait) == [] && old(count) == mb.Length && !poll
      ensures out != Returns(E_OK) && out != Blocks ==> woken == None && unchanged(this) && unchanged(mb)
      ensures out == Returns(E_OK) || out == Blocks ==> sent == old(sent) + [data]
      ensures out == Returns(E_OK) ==> woken == (if old(rwait) == [] then None else Some(Receipt(old(rwait)[0], data)))
      ensures out == Returns(E_OK) && old(rwait) == [] ==> swait == old(swait) == [] && rwait == [] && Contents() == old(Contents()) + [data] && received == old(received)
      ensures out == Returns(E_OK) && old(rwait) != [] ==> rwait == old(rwait)[1..] && received == old(received) + [data] && Pending() == []
      ensures out == Blocks ==> swait == old(swait)[..place] + [Sender(self, data)] + old(swait)[place..] && rwait == [] && woken == None
      ensures out == Blocks ==> Contents() == old(Contents()) && received == old(received)
      ensures !tpri && old(rwait) == [] && (out == Blocks || out == Returns(E_OK)) ==> Pending() == old(Pending()) + [data] && plain == old(plain)
    {
      hide Stored, Place, Words;
      WordsAppend(swait, Sender(self, data));
      woken := None;
      if noexs {
        return Returns(E_NOEXS), None;
      }
      var ok;
      ok, woken := SendData(data);
      if ok {
        return Returns(E_OK), woken;
      }
      if poll {
        return Returns(E_TMOUT), None;
      }
      swait := swait[..place] + [Sender(self, data)] + swait[place..];
      sent := sent + [data];
      plain := plain && !tpri;
      return Blocks, None;
    }

    // force_send_data
    method ForceSendData(data: int) returns (woken: Option<Receipt>)
      requires Valid() && 0 < mb.Length
      modifies mb, this`count, this`head, this`tail, this`rwait, this`sent, this`received, this`plain
      ensures Valid() && sent == old(sent) + [data]
      ensures old(rwait) != [] ==> woken == Some(Receipt(old(rwait)[0], data)) && rwait == old(rwait)[1..] && received == old(received) + [data] && Contents() == old(Contents())
      ensures old(rwait) == [] ==> woken == None && rwait == [] && received == old(received)
      ensures old(rwait) == [] ==> Contents() == (if old(count) < mb.Length then old(Contents()) else old(Contents())[1..]) + [data]
      ensures plain == (old(plain) && (old(rwait) != [] || old(count) < mb.Length))
    {
      sent := sent + [data];
      if rwait != [] {
        woken := Some(Receipt(rwait[0], data));
        rwait := rwait[1..];
        received := received + [data];
        return woken;
      }
      plain := plain && count < mb.Length;
      ForceEnqueueData(data);
      return None;
    }

    // fsnd_dtq; E_OK is stored over E_NOEXS before it returns
    method FsndDtq(data: int) returns (er: Er, woken: Option<Receipt>)
      requires Valid()
      modifies this, mb
      ensures Valid() && noexs == old(noexs) && swait == old(swait)
      ensures er == if mb.Length == 0 then E_ILUSE else E_OK
      ensures noexs || mb.Length == 0 ==> woken == None && unchanged(this) && unchanged(mb)
      ensures !noexs && mb.Length > 0 ==> sent == old(sent) + [data] && plain == (old(plain) && (old(rwait) != [] || old(count) < mb.Length))
      ensures !noexs && mb.Length > 0 && old(rwait) == [] ==> woken == None && rwait == [] && received == old(received)
      ensures !noexs && mb.Length > 0 && old(rwait) == [] ==>
                Contents() == (if old(count) < mb.Length then old(Contents()) else old(Contents())[1..]) + [data]
      ensures !noexs && mb.Length > 0 && old(rwait) != [] ==>
                woken == Some(Receipt(old(rwait)[0], data)) && rwait == old(rwait)[1..] && received == old(received) + [data] && Pending() == []
    {
      woken := None;
      if mb.Length == 0 {
        return E_ILUSE, None;
      }
      if noexs {
        er := E_NOEXS;
      } else {
        woken := ForceSendData(data);
      }
      er := E_OK;
    }

    // receive_data; the room made in the buffer goes to the first waiting sender, which is woken
    method ReceiveData() returns (ok: bool, data: int, woken: Option<nat>)
      requires Valid()
      modifies mb, this`count, this`head, this`tail, this`swait, this`received
      ensures Valid() && (ok <==> old(Pending()) != [])
      ensures ok ==> [data] + Pending() == old(Pending()) && received == old(received) + [data]
      ensures ok ==> woken == (if old(swait) == [] then None else Some(old(swait)[0].task)) && swait == (if old(swait) == [] then [] else old(swait)[1..])
      ensures !ok ==> woken == None && unchanged(this) && unchanged(mb)
    {
      hide Stored, Words;
      data, woken := 0, None;
      ghost var buffer, line := Contents(), swait;
      if swait != [] { WordsSplit(swait); }
      if count > 0 {
        data := DequeueData();
        ghost var rest := Contents();
        received := received + [data];
        if swait != [] {
          var w := swait[0];
          swait := swait[1..];
          Shift(data, rest, buffer, w.data, Words(swait));
          EnqueueData(w.data);
          woken := Some(w.task);
        } else {
          Shift(data, rest, buffer, 0, Words(swait));
        }
        return true, data, woken;
      } else if swait != [] {
        var w := swait[0];
        swait := swait[1..];
        received := received + [w.data];
        return true, w.data, Some(w.task);
      } else {
        return false, 0, None;
      }
    }

    // rcv_dtq, prcv_dtq (poll), trcv_dtq; receivers always wait first come, first served
    method RcvDtq(self: nat, poll: bool) returns (out: Outcome, data: int, woken: Option<nat>)
      requires Valid()
      modifies this, mb
      ensures Valid() && noexs == old(noexs) && plain == old(plain) && sent == old(sent)
      ensures out == Returns(E_NOEXS) <==> noexs
      ensures out == Returns(E_OK) <==> !noexs && old(Pending()) != []
      ensures out == Returns(E_TMOUT) <==> !noexs && old(Pending()) == [] && poll
      ensures out == Blocks <==> !noexs && old(Pending()) == [] && !poll
      ensures out != Returns(E_OK) && out != Blocks ==> woken == None && unchanged(this) && unchanged(mb)
      ensures out == Returns(E_OK) ==> [data] + Pending() == old(Pending()) && received == old(received) + [data] && rwait == old(rwait)
      ensures out == Returns(E_OK) ==> woken == (if old(swait) == [] then None else Some(old(swait)[0].task))
      ensures out == Returns(E_OK) ==> swait == if old(swait) == [] then [] else old(swait)[1..]
      ensures out == Blocks ==> rwait == old(rwait) + [self] && Pending() == [] && received == old(received) && woken == None
    {
      data, woken := 0, None;
      if noexs {
        return Returns(E_NOEXS), 0, None;
      }
      var ok;
      ok, data, woken := ReceiveData();
      if ok {
        return Returns(E_OK), data, woken;
      }
      if poll {
        return Returns(E_TMOUT), 0, None;
      }
      rwait := rwait + [self];
      return Blocks, 0, None;
    }

    // A sender stops waiting without having sent: timeout, rel_wai, termination.
    method AbandonSender(i: nat)
      requires Valid() && i < |swait|
      modifies this`swait, this`plain
      ensures Valid() && swait == old(swait)[..i] + old(swait)[i + 1..] && Contents() == old(Contents())
    {
      swait := swait[..i] + swait[i + 1..];
      plain := false;
    }

    method AbandonReceiver(i: nat)
      requires Valid() && i < |rwait|
      modifies this`rwait
      ensures Valid() && rwait == old(rwait)[..i] + old(rwait)[i + 1..] && Pending() == old(Pending())
    {
      rwait := rwait[..i] + rwait[i + 1..];
    }

    // ini_dtq: everybody who waits is released with E_DLT, the buffer is emptied
    method IniDtq() returns (er: Er, released: seq<nat>)
      requires Valid()
      modifies this
      ensures Valid() && er == (if noexs then E_NOEXS else E_OK) && noexs == old(noexs)
      ensures er == E_OK ==> Pending() == [] && rwait == [] && released == Tasks(old(swait)) + old(rwait)
      ensures er != E_OK ==> released == [] && unchanged(this)
    {
      if noexs {
        return E_NOEXS, [];
      }
      released := Tasks(swait) + rwait;
      swait, rwait := [], [];
      count, head, tail := 0, 0, 0;
      sent, received, plain := [], [], true;
      er := E_OK;
    }
  }
}
