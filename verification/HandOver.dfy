/** The hand-over of packets from the timer task to the service task, over whole runs. */
module HandOver {
  import opened TxQueue
  import opened Pcbs
  import opened Responder
  import opened Sending
  import opened Runs

  lemma {:induction false} GoodPairs(q: seq<Packet>, now: nat, i: nat, j: nat)
    requires Good(q, now) && i < j < |q|
    ensures q[i].sendAt <= q[j].sendAt && q[i].id != q[j].id && (q[j].queued ==> q[i].queued)
  {
    assert q[j] == q[1..][j - 1];
    if i == 0 {
    } else {
      assert q[i] == q[1..][i - 1];
      GoodPairs(q[1..], now, i - 1, j - 1);
    }
  }

  lemma {:induction false} GoodDue(q: seq<Packet>, now: nat, i: nat)
    requires Good(q, now) && i < |q| && q[i].queued
    ensures q[i].sendAt < now && q[i].id in QueuedIds(q)
  {
    if i == 0 {
    } else {
      assert q[i] == q[1..][i - 1];
      GoodDue(q[1..], now, i - 1);
    }
  }

  lemma {:induction false} SubIn<T>(a: seq<T>, b: seq<T>, x: T)
    requires Sub(a, b) && x in a
    ensures x in b
  {
    if a[0] == b[0] {
      if x != a[0] {
        SubIn(a[1..], b[1..], x);
      }
    } else {
      SubIn(a, b[1..], x);
    }
  }

  /**
   * In every state of every run: the queue is in the order of the send times, the packets marked as queued are in
   * front and due, and their actions are pending in the same order.
   */
  lemma QueuedInFront(t: State, steps: seq<Step>)
    requires Reachable(t, steps)
    ensures forall i, j :: 0 <= i < j < |t.queue| ==>
      t.queue[i].sendAt <= t.queue[j].sendAt && (t.queue[j].queued ==> t.queue[i].queued)
    ensures forall i :: 0 <= i < |t.queue| && t.queue[i].queued ==>
      t.queue[i].sendAt < t.now && t.queue[i].id in t.actions
    ensures Sub(QueuedIds(t.queue), t.actions)
  {
    ReachableInv(t, steps);
    forall i, j | 0 <= i < j < |t.queue|
      ensures t.queue[i].sendAt <= t.queue[j].sendAt && (t.queue[j].queued ==> t.queue[i].queued)
    {
      GoodPairs(t.queue, t.now, i, j);
    }
    forall i | 0 <= i < |t.queue| && t.queue[i].queued
      ensures t.queue[i].sendAt < t.now && t.queue[i].id in t.actions
    {
      GoodDue(t.queue, t.now, i);
      SubIn(QueuedIds(t.queue), t.actions, t.queue[i].id);
    }
  }

  // ---------------------------------------------------------------------------------------------------------
  // Nothing is lost between the tasks

  function SentIds(log: seq<Event>): seq<nat> {
    if log == [] then []
    else
      var e := log[|log| - 1];
      SentIds(log[..|log| - 1]) + (if e.Sent? then [e.packet.id] else [])
  }

  lemma SentIdsSnoc(log: seq<Event>, e: Event)
    ensures SentIds(log + [e]) == SentIds(log) + (if e.Sent? then [e.packet.id] else [])
  {
    assert (log + [e])[..|log|] == log;
  }

  /** The service task takes `n` actions, with nothing happening in between. */
  function Drain(s: State, n: nat, hint: nat, memory: bool): (t: State)
    requires |s.pcbs| == 6
    ensures |t.pcbs| == 6
    decreases n
  {
    if n == 0 then s else Drain(Tx(s, hint, memory), n - 1, hint, memory)
  }

  lemma SendHeadSends(s: State, hint: nat, memory: bool)
    requires Inv(s) && Meets(s)
    ensures var t := SendHead(s, hint, memory);
      && SentIds(t.log) == SentIds(s.log) + [s.queue[0].id]
      && [s.queue[0].id] + QueuedIds(t.queue) == QueuedIds(s.queue)
  {
    var p := s.queue[0];
    var c := p.pcb;
    var state := s.pcbs[c].state;
    assert SlotOk(s, c);
    assert Mine(s.queue, c) != [] && s.pcbs[c].sock && state != OFF;
    var h := HandlePacket(s.pcbs[c], p, s.now, Unused(hint, s.queue), memory);
    HandledAgain(s.pcbs[c], p, s.now, Unused(hint, s.queue), memory);
    GoodHead(s.queue, s.now);
    TailIds(s.queue);
    if h.again != [] {
      InsertGood(s.queue[1..], h.again[0], s.now);
    }
    SentEventIds(s.log, c, state, p, s.now, memory);
  }

  lemma SentEventIds(log: seq<Event>, c: Slot, state: PcbState, p: Packet, at: nat, memory: bool)
    requires state != OFF
    ensures SentIds(log + SentEvents(c, state, p, at, memory)) == SentIds(log) + [p.id]
  {
    var mid := log + [Sent(c, state, p, at)];
    SentIdsSnoc(log, Sent(c, state, p, at));
    if state == PROBE_3 && memory {
      SentIdsSnoc(mid, Announcing(c));
      assert log + SentEvents(c, state, p, at, memory) == mid + [Announcing(c)];
    } else {
      assert log + SentEvents(c, state, p, at, memory) == mid;
    }
  }

  /** What has been sent and what is still to be sent is the same list before and after one action. */
  lemma TxConserves(s: State, hint: nat, memory: bool)
    requires Inv(s) && s.actions != []
    ensures var t := Tx(s, hint, memory);
      && |t.actions| == |s.actions| - 1
      && SentIds(t.log) + QueuedIds(t.queue) == SentIds(s.log) + QueuedIds(s.queue)
  {
    if Meets(s) {
      SendHeadSends(s, hint, memory);
      var t := SendHead(s, hint, memory);
      assert SentIds(s.log) + [s.queue[0].id] + QueuedIds(t.queue)
          == SentIds(s.log) + ([s.queue[0].id] + QueuedIds(t.queue));
    }
  }

  /**
   * Taking all pending actions sends exactly the packets that were marked as queued, each once, in the order of
   * the queue: no packet is passed over and none is sent twice, whatever stale actions are among the pending ones.
   */
  lemma {:induction false} DrainSendsQueued(s: State, hint: nat, memory: bool)
    requires Inv(s)
    ensures var t := Drain(s, |s.actions|, hint, memory);
      SentIds(t.log) == SentIds(s.log) + QueuedIds(s.queue) && QueuedIds(t.queue) == []
    decreases |s.actions|
  {
    if s.actions == [] {
    } else {
      TxOk(s, hint, memory);
      TxConserves(s, hint, memory);
      DrainSendsQueued(Tx(s, hint, memory), hint, memory);
    }
  }
}
