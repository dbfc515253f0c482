/** The steps of the two tasks: the clock, the timer task that posts packets, the service task that sends them. */
module Sending {
  import opened TxQueue
  import opened Pcbs
  import opened Responder
  import opened Steps

  function Tick(s: State, ms: nat): State {
    s.(now := s.now + ms)
  }

  lemma TickOk(s: State, ms: nat)
    requires Inv(s)
    ensures Inv(Tick(s, ms))
  {
    var t := Tick(s, ms);
    GoodLater(s.queue, s.now, t.now);
    forall c: Slot
      ensures SlotOk(t, c)
    {
      assert SlotOk(s, c);
    }
    LifeKept(s, t);
  }

  /** The timer task looks at the first packet that is not queued; posting it may fail. */
  function Timer(s: State, posted: bool): State {
    var k := Unqueued(s.queue);
    if k == |s.queue| || s.queue[k].sendAt >= s.now || !posted then s
    else s.(queue := Marked(s.queue, k), actions := s.actions + [s.queue[k].id])
  }

  /** Queueing does not change what a packet is. */
  lemma MarkSlice(pcb: Pcb, mine: seq<Packet>, j: nat, services: seq<nat>, episode: seq<nat>)
    requires SliceOk(pcb, mine, services, episode) && j < |mine|
    ensures SliceIn(services)(pcb, Marked(mine, j), episode)
  {
    var p, r := mine[j].(queued := true), Marked(mine, j);
    assert mine[j] in mine;
    if Probing(pcb.state) {
      assert r == [p];
      ProbeOfSame(mine[0], p, pcb);
    } else {
      assert forall x :: x in r ==> x == p || x in mine;
      if IsAnnouncing(pcb.state) {
        var a :| a in mine && Anchor(a);
        var k :| 0 <= k < |mine| && mine[k] == a;
        assert Anchor(r[k]) && r[k] in r;
      }
    }
  }

  lemma ProbeOfSame(p: Packet, q: Packet, pcb: Pcb)
    requires IsProbeOf(p, pcb) && q == p.(queued := true)
    ensures IsProbeOf(q, pcb)
  {
  }

  lemma TimerOk(s: State, posted: bool)
    requires Inv(s)
    ensures Inv(Timer(s, posted))
  {
    var t := Timer(s, posted);
    var k := Unqueued(s.queue);
    if t != s {
      MarkGood(s.queue, s.now);
      SubSnoc(QueuedIds(s.queue), s.actions, s.queue[k].id);
      forall c: Slot
        ensures SlotOk(t, c)
      {
        assert SlotOk(s, c);
        var j := MineUpdate(s.queue, k, s.queue[k].(queued := true), c);
        if s.queue[k].pcb == c {
          MarkSlice(s.pcbs[c], Mine(s.queue, c), j, s.services, Episode(s.log, c));
        }
      }
      LifeKept(s, t);
    }
  }

  // ---------------------------------------------------------------------------------------------------------
  // The service task

  /** The action meets the packet that it was posted for, or one that has taken its place. */
  predicate Meets(s: State) {
    s.actions != [] && s.queue != [] && s.queue[0].id == s.actions[0] && s.queue[0].queued
  }

  function SentEvents(c: Slot, state: PcbState, p: Packet, at: nat, memory: bool): seq<Event> {
    if state == OFF then []
    else [Sent(c, state, p, at)] + (if state == PROBE_3 && memory then [Announcing(c)] else [])
  }

  /** The head of the queue is sent and handled. */
  function SendHead(s: State, hint: nat, memory: bool): State
    requires |s.pcbs| == 6 && Meets(s)
  {
    var p := s.queue[0];
    var h := HandlePacket(s.pcbs[p.pcb], p, s.now, Unused(hint, s.queue), memory);
    s.(pcbs := s.pcbs[p.pcb := h.pcb], queue := Reinsert(s.queue[1..], h.again), actions := s.actions[1..],
       log := s.log + SentEvents(p.pcb, s.pcbs[p.pcb].state, p, s.now, memory))
  }

  /** The service task takes one action; if it does not meet the head of the queue, nothing is sent. */
  function Tx(s: State, hint: nat, memory: bool): State
    requires |s.pcbs| == 6
  {
    if s.actions == [] then s
    else if Meets(s) then SendHead(s, hint, memory)
    else s.(actions := s.actions[1..])
  }

  /** The packet that follows a sent one goes back into the queue. */
  lemma Requeue(s: State, again: seq<Packet>, rest: seq<nat>)
    requires Good(s.queue, s.now) && s.queue != [] && s.queue[0].queued
    requires Sub(QueuedIds(s.queue), [s.queue[0].id] + rest) && |again| <= 1
    requires again != [] ==> !again[0].queued && again[0].sendAt >= s.now && again[0].id !in Ids(s.queue[1..])
    requires again != [] ==> again[0].pcb == s.queue[0].pcb
    ensures var q := Reinsert(s.queue[1..], again);
      Good(q, s.now) && Sub(QueuedIds(q), rest)
      && forall d: Slot ::
           Mine(q, d) == if d == s.queue[0].pcb then Reinsert(Mine(s.queue[1..], d), again) else Mine(s.queue, d)
  {
    var q := s.queue[1..];
    TakeAction(s.queue, s.now, rest);
    if again != [] {
      InsertGood(q, again[0], s.now);
      forall d: Slot
        ensures Mine(Insert(q, again[0]), d)
             == if d == s.queue[0].pcb then Insert(Mine(q, d), again[0]) else Mine(s.queue, d)
      {
        InsertMine(q, again[0], s.now, d);
      }
    }
  }

  lemma HandledAgain(pcb: Pcb, p: Packet, now: nat, address: nat, memory: bool)
    ensures var h := HandlePacket(pcb, p, now, address, memory);
      && |h.again| <= 1 && h.pcb.sock == pcb.sock && (h.pcb.state == DUP ==> pcb.state == DUP)
      && (h.again != [] ==> !h.again[0].queued && h.again[0].sendAt >= now && h.again[0].pcb == p.pcb
                            && (h.again[0].id == p.id || h.again[0].id == address))
  {
  }

  function EpisodeAfter(pcb: Pcb, episode: seq<nat>, now: nat): seq<nat> {
    if Probing(pcb.state) then episode + [now] else episode
  }

  /** What a PCB sends is a probe if and only if it is probing. */
  lemma SentKind(pcb: Pcb, p: Packet, rest: seq<Packet>, services: seq<nat>, episode: seq<nat>)
    requires SliceOk(pcb, [p] + rest, services, episode)
    ensures pcb.sock && (Probing(pcb.state) ==> rest == [])
    ensures Probing(pcb.state) ==> p.questions != [] && p.answers == []
    ensures !Probing(pcb.state) ==> p.questions == [] && p.servers == []
  {
    assert ([p] + rest)[0] == p && p in [p] + rest;
    if Probing(pcb.state) {
      assert |p.questions| == |pcb.services| + (if pcb.ip then 1 else 0);
    }
  }

  lemma HandledProbe(pcb: Pcb, p: Packet, services: seq<nat>, episode: seq<nat>, now: nat, address: nat, memory: bool)
    requires SliceOk(pcb, [p], services, episode) && p.sendAt < now && Probing(pcb.state)
    ensures var h := HandlePacket(pcb, p, now, address, memory);
      |h.again| == 1 && SliceIn(services)(h.pcb, h.again, episode + [now])
    ensures pcb.state == PROBE_3 ==> Spaced(episode + [now]) && |episode + [now]| >= 3
  {
    if pcb.state == PROBE_3 {
      ProbeDone(pcb, p, services, episode, now, address);
      ProbeStuck(pcb, p, services, episode, now);
    } else {
      ProbeAgain(pcb, p, services, episode, now);
    }
  }

  /** A sent packet and its PCB, in all states of the machine. */
  lemma HandledOk(pcb: Pcb, p: Packet, rest: seq<Packet>, services: seq<nat>, episode: seq<nat>, now: nat,
                  address: nat, memory: bool)
    requires SliceOk(pcb, [p] + rest, services, episode) && p.sendAt < now
    ensures var h := HandlePacket(pcb, p, now, address, memory);
      SliceIn(services)(h.pcb, Reinsert(rest, h.again), EpisodeAfter(pcb, episode, now))
    ensures pcb.state == PROBE_3 ==> Spaced(episode + [now]) && |episode + [now]| >= 3
  {
    SentKind(pcb, p, rest, services, episode);
    var h := HandlePacket(pcb, p, now, address, memory);
    if Probing(pcb.state) {
      assert [p] + rest == [p];
      HandledProbe(pcb, p, services, episode, now, address, memory);
      assert Reinsert([], h.again) == h.again;
    } else {
      PlainSent(pcb, p, rest, services, episode, now, address);
      assert h == HandlePacket(pcb, p, now, address, true);
    }
  }

  lemma SentLog(log: seq<Event>, c: Slot, state: PcbState, p: Packet, at: nat, memory: bool)
    requires LogOk(log) && EventOk(log, Sent(c, state, p, at))
    requires state == PROBE_3 ==> Spaced(Episode(log, c) + [at]) && |Episode(log, c) + [at]| >= 3
    ensures var after := log + SentEvents(c, state, p, at, memory);
      && LogOk(after)
      && forall d: Slot :: Episode(after, d)
           == if d == c && Probing(state) then Episode(log, d) + [at] else Episode(log, d)
  {
    var sent := Sent(c, state, p, at);
    var after := log + SentEvents(c, state, p, at, memory);
    var mid := log + [sent];
    LogSnoc(log, sent);
    EpisodeSnoc(log, sent, c);
    var more := state == PROBE_3 && memory;
    if state == OFF {
      assert after == log;
    } else if more {
      assert after == mid + [Announcing(c)];
      LogSnoc(mid, Announcing(c));
    } else {
      assert after == mid;
    }
    forall d: Slot
      ensures Episode(after, d) == if d == c && Probing(state) then Episode(log, d) + [at] else Episode(log, d)
    {
      EpisodeSnoc(log, sent, d);
      EpisodeSnoc(mid, Announcing(c), d);
    }
  }

  /** The PCB of the head of the queue, after the head was sent. */
  lemma HeadSlice(s: State, hint: nat, memory: bool)
    requires |s.pcbs| == 6 && Good(s.queue, s.now) && LogOk(s.log) && Meets(s) && SlotOk(s, s.queue[0].pcb)
    ensures var p := s.queue[0];
      var c := p.pcb;
      var h := HandlePacket(s.pcbs[c], p, s.now, Unused(hint, s.queue), memory);
      var log := s.log + SentEvents(c, s.pcbs[c].state, p, s.now, memory);
      && SliceIn(s.services)(h.pcb, Reinsert(Mine(s.queue[1..], c), h.again), Episode(log, c))
      && LogOk(log) && forall d: Slot :: d != c ==> Episode(log, d) == Episode(s.log, d)
  {
    var p := s.queue[0];
    var c := p.pcb;
    var rest := Mine(s.queue[1..], c);
    assert Mine(s.queue, c) == [p] + rest;
    SentKind(s.pcbs[c], p, rest, s.services, Episode(s.log, c));
    HandledOk(s.pcbs[c], p, rest, s.services, Episode(s.log, c), s.now, Unused(hint, s.queue), memory);
    SentLog(s.log, c, s.pcbs[c].state, p, s.now, memory);
  }

  lemma HeadQueue(s: State, hint: nat, memory: bool)
    requires |s.pcbs| == 6 && QueueOk(s) && Meets(s)
    ensures var p := s.queue[0];
      var h := HandlePacket(s.pcbs[p.pcb], p, s.now, Unused(hint, s.queue), memory);
      var q := Reinsert(s.queue[1..], h.again);
      Good(q, s.now) && Sub(QueuedIds(q), s.actions[1..])
      && forall d: Slot ::
           Mine(q, d) == if d == p.pcb then Reinsert(Mine(s.queue[1..], d), h.again) else Mine(s.queue, d)
  {
    var p := s.queue[0];
    var h := HandlePacket(s.pcbs[p.pcb], p, s.now, Unused(hint, s.queue), memory);
    HandledAgain(s.pcbs[p.pcb], p, s.now, Unused(hint, s.queue), memory);
    GoodHead(s.queue, s.now);
    TailIds(s.queue);
    assert s.actions == [p.id] + s.actions[1..];
    Requeue(s, h.again, s.actions[1..]);
  }

  lemma SendHeadOk(s: State, hint: nat, memory: bool)
    requires Inv(s) && Meets(s)
    ensures Inv(SendHead(s, hint, memory))
  {
    var c := s.queue[0].pcb;
    assert SlotOk(s, c);
    HeadSlice(s, hint, memory);
    HeadQueue(s, hint, memory);
    HandledAgain(s.pcbs[c], s.queue[0], s.now, Unused(hint, s.queue), memory);
    Assembled(s, SendHead(s, hint, memory), c);
  }

  lemma TailIds(q: seq<Packet>)
    requires q != []
    ensures forall x :: x in Ids(q[1..]) ==> x in Ids(q)
  {
    assert forall k :: 0 <= k < |q[1..]| ==> q[1..][k] == q[k + 1];
  }

  /** The invariant after a step that concerns one PCB. */
  lemma Assembled(s: State, t: State, c: Slot)
    requires Inv(s) && |t.pcbs| == 6 && t.services == s.services && QueueOk(t) && LogOk(t.log) && t.main == s.main
    requires SlotOk(t, c) && Others(s, t, c)
    requires t.pcbs[c].sock == s.pcbs[c].sock && (t.pcbs[c].state == DUP ==> s.pcbs[c].state == DUP)
    ensures Inv(t)
  {
    OneSlot(s, t, c);
    OthersLife(s, t, c);
    LifeKept(s, t);
  }

  lemma TxOk(s: State, hint: nat, memory: bool)
    requires Inv(s)
    ensures Inv(Tx(s, hint, memory))
  {
    if s.actions != [] {
      if Meets(s) {
        SendHeadOk(s, hint, memory);
      } else {
        var t := s.(actions := s.actions[1..]);
        assert s.actions == [s.actions[0]] + s.actions[1..];
        SkipAction(s.queue, s.now, s.actions[0], s.actions[1..]);
        forall c: Slot
          ensures SlotOk(t, c)
        {
          assert SlotOk(s, c);
        }
        LifeKept(s, t);
      }
    }
  }
}
