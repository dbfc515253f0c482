/** The server object: its fields are updated in place, and every method is tied to a step of the model. */
module MdnsServer {
  import opened TxQueue
  import opened Packets
  import opened Pcbs
  import opened Lists
  import opened Responder
  import opened Steps
  import opened Sending
  import opened Events
  import opened Deletion
  import opened Interfaces
  import opened Runs

  class Server {
    var pcbs: seq<Pcb>
    var queue: seq<Packet>
    var services: seq<nat>
    var actions: seq<nat>
    var now: nat
    var main: bool
    ghost var log: seq<Event>

    ghost function Abs(): State
      reads this
    {
      State(pcbs, queue, services, actions, now, main, log)
    }

    ghost predicate Valid()
      reads this
    {
      Inv(Abs())
    }

    constructor ()
      ensures Abs() == START && Valid()
    {
      pcbs, queue, services := [DOWN, DOWN, DOWN, DOWN, DOWN, DOWN], [], [];
      actions, now, main, log := [], 0, false, [];
      StartOk();
    }

    // -------------------------------------------------------------------------------------------------------
    // The transmit queue

    /** Puts the packet behind everything that is due no later. */
    method Schedule(p: Packet, ms: nat)
      modifies this`queue
      ensures queue == Insert(old(queue), p.(sendAt := now + ms))
    {
      var packet := p.(sendAt := now + ms);
      if |queue| == 0 || queue[0].sendAt > packet.sendAt {
        queue := [packet] + queue;
        return;
      }
      var done, rest := queue[..1], queue[1..];
      while |rest| > 0 && rest[0].sendAt <= packet.sendAt
        invariant done + Insert(rest, packet) == Insert(old(queue), packet)
        decreases |rest|
      {
        MoveOn(done, rest, Insert(rest[1..], packet));
        done, rest := done + [rest[0]], rest[1..];
      }
      queue := done + ([packet] + rest);
    }

    method ClearTxQueue()
      modifies this`queue
      ensures queue == []
    {
      while |queue| > 0
        decreases |queue|
      {
        queue := queue[1..];
      }
    }

    /** Drops the packets of one PCB: first those at the head, then those behind another packet. */
    method ClearPcbTxQueue(c: Slot)
      modifies this`queue
      ensures queue == Cleared(old(queue), c)
    {
      while |queue| > 0 && queue[0].pcb == c
        invariant Cleared(queue, c) == Cleared(old(queue), c)
        decreases |queue|
      {
        queue := queue[1..];
      }
      if |queue| > 0 {
        var done, rest := queue[..1], queue[1..];
        while |rest| > 0
          invariant done + Cleared(rest, c) == Cleared(old(queue), c)
          decreases |rest|
        {
          if rest[0].pcb != c {
            MoveOn(done, rest, Cleared(rest[1..], c));
            done := done + [rest[0]];
          }
          rest := rest[1..];
        }
        queue := done;
      }
    }

    method NextPcbPacket(c: Slot) returns (k: nat)
      ensures k == First(queue, c)
    {
      k := 0;
      while k < |queue| && queue[k].pcb != c
        invariant k <= |queue| && k + First(queue[k..], c) == First(queue, c)
      {
        assert queue[k..][1..] == queue[k + 1..];
        k := k + 1;
      }
    }

    /** Takes an answer that another host gave out of the shared responses of a PCB. */
    method RemoveScheduledAnswer(c: Slot, kind: Kind, about: Ref)
      requires Valid()
      modifies this
      ensures Abs() == Suppress(old(Abs()), c, kind, about) && Valid()
    {
      ghost var was := queue;
      for i := 0 to |queue|
        invariant |queue| == |was| && Abs() == old(Abs()).(queue := queue)
        invariant forall k :: 0 <= k < i ==> queue[k] == SuppressIn(was[k], c, kind, about)
        invariant forall k :: i <= k < |was| ==> queue[k] == was[k]
      {
        var q := queue[i];
        if q.pcb == c && q.distributed {
          var answers := DeallocAnswer(q.answers, kind, about);
          queue := queue[i := q.(answers := answers)];
        }
      }
      assert queue == Suppressed(was, c, kind, about);
      SuppressInv(old(Abs()), c, kind, about);
    }

    // -------------------------------------------------------------------------------------------------------
    // Probing

    method MergeServices(c: Slot, svcs: seq<nat>) returns (all: seq<nat>)
      requires |pcbs| == 6
      ensures all == Merged(pcbs[c], svcs)
    {
      all := svcs;
      if IsProbing(pcbs[c].state) {
        all := NewServices(svcs, pcbs[c].services);
        all := all + pcbs[c].services;
      }
    }

    /** Starts to probe, for the union of old and new services if the PCB is probing already. */
    method InitPcbProbe(c: Slot, svcs: seq<nat>, ip: bool, o: Oracle)
      requires |pcbs| == 6
      modifies this
      ensures Abs() == InitProbe(old(Abs()), c, svcs, ip, o)
    {
      ghost var was := Abs();
      ClearPcbTxQueue(c);
      var all := MergeServices(c, svcs);
      var pcb := Pcb(PROBE_1, pcbs[c].sock, all, pcbs[c].ip || ip, true, pcbs[c].failed);
      var ms := (if pcb.failed > 5 then 1000 else 120) + o.Delay(c);
      var id := Unused(o.Id(c), queue);
      var packet := CreateProbePacket(id, c, now + ms, all, pcb.ip, pcbs[V4Of(c)].sock, pcbs[V6Of(c)].sock);
      assert packet == NewProbe(was, c, pcb, o);
      assert packet.(sendAt := now + ms) == packet;
      Schedule(packet, ms);
      pcbs := pcbs[c := pcb];
      log := log + [Began(c)];
    }

    method ProbeAllPcbs(svcs: seq<nat>, ip: bool, clear: bool, o: Oracle)
      requires |pcbs| == 6
      modifies this
      ensures Abs() == ProbeAll(old(Abs()), svcs, ip, clear, o)
    {
      for c := 0 to 6
        invariant |pcbs| == 6
        invariant ProbeFrom(Abs(), c, svcs, ip, clear, o) == ProbeAll(old(Abs()), svcs, ip, clear, o)
      {
        if pcbs[c].sock {
          if clear {
            pcbs := pcbs[c := pcbs[c].(services := [], running := false)];
          }
          InitPcbProbe(c, svcs, ip, o);
        }
      }
    }

    method RestartAllPcbs(o: Oracle)
      requires Valid()
      modifies this
      ensures Abs() == RestartAll(old(Abs()), o) && Valid()
    {
      RestartAllOk(Abs(), o);
      ClearTxQueue();
      ProbeAllPcbs(services, true, true, o);
    }

    // -------------------------------------------------------------------------------------------------------
    // Announcing

    method AnnounceOnPcb(c: Slot, svcs: seq<nat>, ip: bool, o: Oracle)
      requires |pcbs| == 6
      modifies this
      ensures Abs() == AnnouncePcb(old(Abs()), c, svcs, ip, o)
    {
      if pcbs[c].sock {
        if IsProbing(pcbs[c].state) {
          InitPcbProbe(c, svcs, ip, o);
        } else if IsAnnouncing(pcbs[c].state) {
          var k := NextPcbPacket(c);
          if k < |queue| {
            var p := AnnounceInPacket(queue[k], svcs, ip);
            queue := queue[k := p];
            pcbs := pcbs[c := pcbs[c].(state := ANNOUNCE_1)];
          }
        } else if pcbs[c].state == RUNNING {
          pcbs := pcbs[c := pcbs[c].(state := ANNOUNCE_1)];
          var answers := AllocServices([], svcs);
          if ip {
            answers := AllocAddresses(answers);
          }
          Schedule(Packet(Unused(o.Id(c), queue), c, now, false, false, [], answers, [], []), 0);
        }
      }
    }

    method AnnounceInPacket(p: Packet, svcs: seq<nat>, ip: bool) returns (r: Packet)
      ensures r == AnnounceIn(p, svcs, ip)
    {
      var answers, additional := p.answers, p.additional;
      answers := AllocServices(answers, svcs);
      if ip {
        additional := DeallocAnswer(additional, A, Host);
        additional := DeallocAnswer(additional, AAAA, Host);
        answers := AllocAddresses(answers);
      }
      return p.(answers := answers, additional := additional);
    }

    method AnnounceAllPcbs(svcs: seq<nat>, ip: bool, o: Oracle)
      requires Valid() && Probeable(Abs(), svcs, ip)
      modifies this
      ensures Abs() == AnnounceFrom(old(Abs()), 0, svcs, ip, o) && Valid()
    {
      AnnounceFromOk(Abs(), 0, svcs, ip, o);
      for c := 0 to 6
        invariant |pcbs| == 6
        invariant AnnounceFrom(Abs(), c, svcs, ip, o) == AnnounceFrom(old(Abs()), 0, svcs, ip, o)
      {
        AnnounceOnPcb(c, svcs, ip, o);
      }
    }

    // -------------------------------------------------------------------------------------------------------
    // The two tasks

    /** The timer task: posts the first packet that is not queued, if it is due. */
    method SchedulerRun(posted: bool)
      requires Valid()
      modifies this
      ensures Abs() == Timer(old(Abs()), posted) && Valid()
    {
      TimerOk(Abs(), posted);
      var k := 0;
      while k < |queue| && queue[k].queued
        invariant k <= |queue| && k + Unqueued(queue[k..]) == Unqueued(queue)
      {
        assert queue[k..][1..] == queue[k + 1..];
        k := k + 1;
      }
      if k == |queue| {
        return;
      }
      if queue[k].sendAt < now && posted {
        actions := actions + [queue[k].id];
        queue := queue[k := queue[k].(queued := true)];
      }
    }

    method ClearUnicast(asks: seq<Ask>) returns (r: seq<Ask>)
      ensures r == Multicast(asks)
    {
      r := [];
      for i := 0 to |asks|
        invariant |r| == i && forall k :: 0 <= k < i ==> r[k] == asks[k].(unicast := false)
      {
        r := r + [asks[i].(unicast := false)];
      }
    }

    /** Sends a packet that was taken off the queue and moves the machine of its PCB on. */
    method TxHandlePacket(p: Packet, id: nat, memory: bool)
      requires |pcbs| == 6 && !p.queued
      modifies this`pcbs, this`queue, this`log
      ensures var h := HandlePacket(old(pcbs)[p.pcb], p, now, id, memory);
        && pcbs == old(pcbs)[p.pcb := h.pcb] && queue == Reinsert(old(queue), h.again)
      ensures log == old(log) + SentEvents(p.pcb, old(pcbs)[p.pcb].state, p.(queued := true), now, memory)
    {
      var c := p.pcb;
      var pcb := pcbs[c];
      if pcb.state == OFF {
        return;
      }
      log := log + SentEvents(c, pcb.state, p.(queued := true), now, memory);
      match pcb.state
      case PROBE_1 =>
        var questions := ClearUnicast(p.questions);
        Schedule(p.(questions := questions), 250);
        pcbs := pcbs[c := pcb.(state := PROBE_2)];
      case PROBE_2 =>
        Schedule(p, 250);
        pcbs := pcbs[c := pcb.(state := PROBE_3)];
      case PROBE_3 =>
        if !memory {
          Schedule(p, 250);
        } else {
          var answers := CreateAnnounceFromProbe(p.servers);
          Schedule(Packet(id, c, now, false, false, [], answers, [], []), 250);
          pcbs := pcbs[c := Pcb(ANNOUNCE_1, pcb.sock, [], false, false, 0)];
        }
      case ANNOUNCE_1 =>
        Schedule(p, 1000);
        pcbs := pcbs[c := pcb.(state := ANNOUNCE_2)];
      case ANNOUNCE_2 =>
        Schedule(p, 1000);
        pcbs := pcbs[c := pcb.(state := ANNOUNCE_3)];
      case ANNOUNCE_3 => pcbs := pcbs[c := pcb.(state := RUNNING)];
      case DUP =>
      case INIT =>
      case RUNNING =>
    }

    /** The service task: takes one action and sends the head of the queue if the action is for it. */
    method ExecuteTx(hint: nat, memory: bool)
      requires Valid()
      modifies this
      ensures Abs() == Tx(old(Abs()), hint, memory) && Valid()
    {
      TxOk(Abs(), hint, memory);
      if |actions| == 0 {
        return;
      }
      var x := actions[0];
      actions := actions[1..];
      if |queue| > 0 && queue[0].id == x && queue[0].queued {
        var id := Unused(hint, queue);
        var p := queue[0].(queued := false);
        HandleUnqueued(pcbs[p.pcb], queue[0], now, id, memory);
        queue := queue[1..];
        TxHandlePacket(p, id, memory);
      }
    }

    // -------------------------------------------------------------------------------------------------------
    // Services

    /** Takes a deleted service out of all packets and out of what the PCBs probe for. */
    method RemoveScheduledServicePackets(id: nat)
      requires |pcbs| == 6
      modifies this`pcbs, this`queue
      ensures var r := PurgeQueue(old(pcbs), old(queue), id); pcbs == r.pcbs && queue == r.queue
    {
      var done: seq<Packet>, rest := [], queue;
      ghost var r := PurgeQueue(pcbs, queue, id);
      while |rest| > 0
        invariant |pcbs| == 6
        invariant PurgeQueue(pcbs, rest, id).pcbs == r.pcbs && done + PurgeQueue(pcbs, rest, id).queue == r.queue
        decreases |rest|
      {
        ghost var tail := PurgeQueue(pcbs[rest[0].pcb := PurgeOne(pcbs[rest[0].pcb], rest[0], id).pcb], rest[1..], id);
        var q := PurgePacket(rest[0], id);
        KeepOn(done, q, tail.queue);
        if !Empty(q) {
          done := done + [q];
        }
        rest := rest[1..];
      }
      queue := done;
    }

    method PurgePacket(p: Packet, id: nat) returns (q: Packet)
      requires |pcbs| == 6
      modifies this`pcbs
      ensures pcbs == old(pcbs)[p.pcb := PurgeOne(old(pcbs)[p.pcb], p, id).pcb]
      ensures q == PurgeOne(old(pcbs)[p.pcb], p, id).packet
    {
      var answers := DeallocServiceAnswers(p.answers, id);
      var additional := DeallocServiceAnswers(p.additional, id);
      var servers := DeallocServiceAnswers(p.servers, id);
      q := p.(answers := answers, additional := additional, servers := servers);
      var pcb := pcbs[p.pcb];
      if pcb.sock {
        if IsProbing(pcb.state) {
          var found := Contains(pcb.services, id);
          if found {
            var left := RemoveService(pcb.services, id);
            var after := pcb.(services := left);
            if |pcb.services| == 1 && !pcb.ip {
              after := after.(running := false, state := RUNNING);
            }
            pcbs := pcbs[p.pcb := after];
            var questions := RemoveQuestion(q.questions, id);
            q := q.(questions := questions);
          }
        } else if IsAnnouncing(pcb.state) {
          if |p.answers| > 0 && |answers| == 0 {
            pcbs := pcbs[p.pcb := pcb.(state := RUNNING)];
          }
        }
      }
    }

    /** Moves the services behind the removed one forward by one place. */
    method RemoveService(svcs: seq<nat>, id: nat) returns (r: seq<nat>)
      ensures r == Minus(svcs, id)
    {
      var done: seq<nat>, rest := [], svcs;
      while |rest| > 0 && rest[0] != id
        invariant done + Minus(rest, id) == Minus(svcs, id)
        decreases |rest|
      {
        MoveOn(done, rest, Minus(rest[1..], id));
        done, rest := done + [rest[0]], rest[1..];
      }
      return if |rest| == 0 then done else done + rest[1..];
    }

    method RemoveQuestion(asks: seq<Ask>, id: nat) returns (r: seq<Ask>)
      ensures r == DropAsk(asks, id)
    {
      var done: seq<Ask>, rest := [], asks;
      while |rest| > 0 && rest[0].about != Service(id)
        invariant done + DropAsk(rest, id) == DropAsk(asks, id)
        decreases |rest|
      {
        MoveOn(done, rest, DropAsk(rest[1..], id));
        done, rest := done + [rest[0]], rest[1..];
      }
      return if |rest| == 0 then done else done + rest[1..];
    }

    method AddService(id: nat, o: Oracle)
      requires Valid() && id !in services
      modifies this
      ensures Abs() == AddNewService(old(Abs()), id, o) && Valid()
    {
      AddNewServiceOk(Abs(), id, o);
      services := [id] + services;
      ProbeAllPcbs([id], false, false, o);
    }

    method DelService(id: nat)
      requires Valid()
      modifies this
      ensures Abs() == DeleteService(old(Abs()), id) && Valid()
    {
      DeleteServiceOk(Abs(), id);
      var found := Contains(services, id);
      if found {
        services := RemoveService(services, id);
        RemoveScheduledServicePackets(id);
      }
    }

    method ClearAllServices()
      requires Valid()
      modifies this
      ensures Abs() == ClearServices(old(Abs())) && Valid()
    {
      ClearServicesOk(Abs());
      while |services| > 0
        invariant |pcbs| == 6 && ClearServices(Abs()) == ClearServices(old(Abs()))
        decreases |services|
      {
        var id := services[0];
        services := services[1..];
        RemoveScheduledServicePackets(id);
      }
    }

    // -------------------------------------------------------------------------------------------------------
    // Interfaces

    method InitPcb(c: Slot)
      requires |pcbs| == 6
      modifies this`pcbs, this`main
      ensures Abs() == PcbInit(old(Abs()), c)
    {
      main := true;
      pcbs := pcbs[c := pcbs[c].(sock := true, failed := 0)];
    }

    method DeinitPcb(c: Slot)
      requires |pcbs| == 6
      modifies this
      ensures Abs() == Deinit(old(Abs()), c)
    {
      ClearPcbTxQueue(c);
      pcbs := pcbs[c := DOWN];
      var used := IsInUse(pcbs);
      if !used {
        main := false;
      }
    }

    method EnableOnPcb(c: Slot, up: bool, o: Oracle)
      requires Valid()
      modifies this
      ensures Abs() == Enable(old(Abs()), c, up, o) && Valid()
    {
      EnableOk(Abs(), c, up, o);
      if !pcbs[c].sock {
        if !up {
          return;
        }
        InitPcb(c);
      }
      InitPcbProbe(c, services, true, o);
    }

    method DisableOnPcb(c: Slot, up: bool, o: Oracle)
      requires Valid()
      modifies this
      ensures Abs() == Disable(old(Abs()), c, up, o) && Valid()
    {
      DisableOk(Abs(), c, up, o);
      if pcbs[c].sock {
        ReleasedOk(Abs(), c);
        DeinitPcb(c);
        var d := Sibling(c);
        if d < 6 && pcbs[d].state == DUP {
          pcbs := pcbs[d := pcbs[d].(state := OFF)];
          EnableOnPcb(d, up, o);
        }
      }
      pcbs := pcbs[c := pcbs[c].(state := OFF)];
    }

    method DupInterface(c: Slot, o: Oracle, o': Oracle)
      requires Valid()
      modifies this
      ensures Abs() == Duplicate(old(Abs()), c, o, o') && Valid()
    {
      DuplicateOk(Abs(), c, o, o');
      DupOnPcb(V4Of(c), o);
      DupOnPcb(V6Of(c), o');
    }

    method DupOnPcb(c: Slot, o: Oracle)
      requires |pcbs| == 6
      modifies this
      ensures Abs() == DupOne(old(Abs()), c, o)
    {
      var d := Sibling(c);
      if d < 6 && pcbs[d].sock {
        if pcbs[c].sock {
          DeinitPcb(c);
        }
        pcbs := pcbs[c := pcbs[c].(state := DUP)];
        AnnounceOnPcb(d, [], true, o);
      }
    }
  }

  lemma MoveOn<T>(done: seq<T>, rest: seq<T>, tail: seq<T>)
    requires rest != []
    ensures done + [rest[0]] + tail == done + ([rest[0]] + tail)
  {
  }

  lemma KeepOn(done: seq<Packet>, p: Packet, tail: seq<Packet>)
    ensures (if Empty(p) then done else done + [p]) + tail == done + (Kept(p) + tail)
  {
  }

  /** Whether the packet is still marked makes no difference to what follows. */
  lemma HandleUnqueued(pcb: Pcb, p: Packet, now: nat, id: nat, memory: bool)
    ensures HandlePacket(pcb, p.(queued := false), now, id, memory) == HandlePacket(pcb, p, now, id, memory)
  {
  }
}
