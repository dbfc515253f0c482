/** Deleting services: no reference to a deleted service is left anywhere. */
module Deletion {
  import opened TxQueue
  import opened Packets
  import opened Pcbs
  import opened Responder
  import opened Steps
  import opened Events

  datatype PurgedQueue = PurgedQueue(pcbs: seq<Pcb>, queue: seq<Packet>)

  /** The packets of the queue in order, each with its PCB; packets that end up empty are detached. */
  function PurgeQueue(pcbs: seq<Pcb>, queue: seq<Packet>, id: nat): (r: PurgedQueue)
    requires |pcbs| == 6
    ensures |r.pcbs| == 6
    decreases |queue|
  {
    if queue == [] then PurgedQueue(pcbs, [])
    else
      var c := queue[0].pcb;
      var one := PurgeOne(pcbs[c], queue[0], id);
      var rest := PurgeQueue(pcbs[c := one.pcb], queue[1..], id);
      PurgedQueue(rest.pcbs, Kept(one.packet) + rest.queue)
  }

  lemma PurgeTag(pcb: Pcb, p: Packet, id: nat)
    ensures SameTag(PurgeOne(pcb, p, id).packet, p)
  {
  }

  lemma {:induction false} PurgeThins(pcbs: seq<Pcb>, queue: seq<Packet>, id: nat)
    requires |pcbs| == 6
    ensures Thins(PurgeQueue(pcbs, queue, id).queue, queue)
    decreases |queue|
  {
    if queue == [] {
    } else {
      var c := queue[0].pcb;
      var one := PurgeOne(pcbs[c], queue[0], id);
      PurgeTag(pcbs[c], queue[0], id);
      PurgeThins(pcbs[c := one.pcb], queue[1..], id);
      var rest := PurgeQueue(pcbs[c := one.pcb], queue[1..], id).queue;
      KeptThins(one.packet, rest, queue);
    }
  }

  lemma KeptThins(p: Packet, rest: seq<Packet>, queue: seq<Packet>)
    requires queue != [] && SameTag(p, queue[0]) && Thins(rest, queue[1..])
    ensures Thins(Kept(p) + rest, queue)
  {
    if Empty(p) {
      assert Kept(p) + rest == rest;
    } else {
      assert ([p] + rest)[1..] == rest;
    }
  }

  /** For each PCB the loop over the whole queue does what the loop over its own packets would do. */
  lemma {:induction false} PurgeSlices(pcbs: seq<Pcb>, queue: seq<Packet>, id: nat, c: Slot)
    requires |pcbs| == 6
    ensures var r := PurgeQueue(pcbs, queue, id);
      PurgedSlice(r.pcbs[c], Mine(r.queue, c)) == PurgeMine(pcbs[c], Mine(queue, c), id)
    decreases |queue|
  {
    if queue == [] {
    } else {
      var d := queue[0].pcb;
      var one := PurgeOne(pcbs[d], queue[0], id);
      var next := pcbs[d := one.pcb];
      var rest := PurgeQueue(next, queue[1..], id);
      PurgeSlices(next, queue[1..], id, c);
      PurgeTag(pcbs[d], queue[0], id);
      MineKept(one.packet, rest.queue, c);
      if d == c {
        MineCons(queue, c);
      }
    }
  }

  lemma MineCons(queue: seq<Packet>, c: Slot)
    requires queue != [] && queue[0].pcb == c
    ensures Mine(queue, c)[1..] == Mine(queue[1..], c) && Mine(queue, c)[0] == queue[0]
  {
  }

  lemma MineKept(p: Packet, rest: seq<Packet>, c: Slot)
    ensures Mine(Kept(p) + rest, c) == if p.pcb == c then Kept(p) + Mine(rest, c) else Mine(rest, c)
  {
    if Empty(p) {
      assert [] + rest == rest;
    } else {
      assert ([p] + rest)[1..] == rest;
    }
  }

  function DeleteService(s: State, id: nat): (t: State)
    requires |s.pcbs| == 6
    ensures |t.pcbs| == 6
  {
    if id !in s.services then s
    else
      var r := PurgeQueue(s.pcbs, s.queue, id);
      s.(services := Minus(s.services, id), pcbs := r.pcbs, queue := r.queue)
  }

  lemma {:induction false} PurgeNotDup(pcb: Pcb, mine: seq<Packet>, id: nat)
    requires pcb.state != DUP
    ensures PurgeMine(pcb, mine, id).pcb.state != DUP
    decreases |mine|
  {
    if mine == [] {
    } else {
      PurgeNotDup(PurgeOne(pcb, mine[0], id).pcb, mine[1..], id);
    }
  }

  lemma DeletedSlot(s: State, id: nat, c: Slot)
    requires Inv(s) && id in s.services
    ensures var t := DeleteService(s, id);
      SlotOk(t, c) && t.pcbs[c].sock == s.pcbs[c].sock && (t.pcbs[c].state == DUP ==> s.pcbs[c].state == DUP)
  {
    assert SlotOk(s, c);
    PurgeSlices(s.pcbs, s.queue, id, c);
    PurgeOk(s.pcbs[c], Mine(s.queue, c), id, s.services, Minus(s.services, id), Episode(s.log, c));
    if s.pcbs[c].state != DUP {
      PurgeNotDup(s.pcbs[c], Mine(s.queue, c), id);
    }
  }

  lemma DeleteServiceOk(s: State, id: nat)
    requires Inv(s)
    ensures Inv(DeleteService(s, id))
  {
    if id in s.services {
      var t := DeleteService(s, id);
      PurgeThins(s.pcbs, s.queue, id);
      ThinQueue(s, t.queue);
      MinusOk(s.services, id);
      forall c: Slot
        ensures SlotOk(t, c) && t.pcbs[c].sock == s.pcbs[c].sock && (t.pcbs[c].state == DUP ==> s.pcbs[c].state == DUP)
      {
        DeletedSlot(s, id, c);
      }
      LifeKept(s, t);
    }
  }

  /** All services are deleted, one after the other. */
  function ClearServices(s: State): (t: State)
    requires |s.pcbs| == 6
    ensures |t.pcbs| == 6 && t.services == []
    decreases |s.services|
  {
    if s.services == [] then s else ClearServices(DeleteService(s, s.services[0]))
  }

  lemma {:induction false} ClearServicesOk(s: State)
    requires Inv(s)
    ensures Inv(ClearServices(s))
    decreases |s.services|
  {
    if s.services == [] {
    } else {
      DeleteServiceOk(s, s.services[0]);
      ClearServicesOk(DeleteService(s, s.services[0]));
    }
  }

  // ---------------------------------------------------------------------------------------------------------
  // Reference integrity

  predicate Mentions(p: Packet, id: nat) {
    || (exists k :: 0 <= k < |p.questions| && p.questions[k].about == Service(id))
    || (exists k :: 0 <= k < |p.answers| && p.answers[k].about == Service(id))
    || (exists k :: 0 <= k < |p.servers| && p.servers[k].about == Service(id))
    || (exists k :: 0 <= k < |p.additional| && p.additional[k].about == Service(id))
  }

  lemma ProbeMentions(p: Packet, pcb: Pcb, id: nat)
    requires IsProbeOf(p, pcb) && id !in pcb.services
    ensures !Mentions(p, id)
  {
    var v4, v6 :| ProbeServers(p.servers, pcb.services, pcb.ip, v4, v6);
    assert forall k :: 0 <= k < |p.questions| ==> p.questions[k].about != Service(id);
    assert forall k :: 0 <= k < |p.servers| ==> p.servers[k].about != Service(id);
  }

  lemma {:induction false} InMine(q: seq<Packet>, p: Packet)
    requires p in q
    ensures p in Mine(q, p.pcb)
  {
    if q[0] == p {
    } else {
      assert p in q[1..];
      InMine(q[1..], p);
    }
  }

  /** In a good state nothing refers to a service that is not registered. */
  lemma NoDangling(s: State, id: nat)
    requires Inv(s) && id !in s.services
    ensures forall p :: p in s.queue ==> !Mentions(p, id)
    ensures forall c: Slot :: id !in s.pcbs[c].services
  {
    forall c: Slot
      ensures id !in s.pcbs[c].services
    {
      assert SlotOk(s, c);
    }
    forall p | p in s.queue
      ensures !Mentions(p, id)
    {
      assert SlotOk(s, p.pcb);
      InMine(s.queue, p);
      if Probing(s.pcbs[p.pcb].state) {
        ProbeMentions(p, s.pcbs[p.pcb], id);
      } else {
        assert Plain(p, s.services);
      }
    }
  }

  /** After its deletion nothing refers to a service. */
  lemma DeletionComplete(s: State, id: nat)
    requires Inv(s)
    ensures forall p :: p in DeleteService(s, id).queue ==> !Mentions(p, id)
    ensures forall c: Slot :: id !in DeleteService(s, id).pcbs[c].services
  {
    DeleteServiceOk(s, id);
    MinusOk(s.services, id);
    NoDangling(DeleteService(s, id), id);
  }

  // ---------------------------------------------------------------------------------------------------------
  // Nothing else changes

  function AsksNotAbout(asks: seq<Ask>, id: nat): seq<Ask> {
    if asks == [] then []
    else if asks[0].about == Service(id) then AsksNotAbout(asks[1..], id)
    else [asks[0]] + AsksNotAbout(asks[1..], id)
  }

  /** The packet without anything about the service, whatever PCB it belongs to. */
  function Swept(p: Packet, id: nat): Packet {
    p.(questions := AsksNotAbout(p.questions, id), answers := Without(p.answers, id),
       servers := Without(p.servers, id), additional := Without(p.additional, id))
  }

  function SweptQueue(queue: seq<Packet>, id: nat): seq<Packet> {
    if queue == [] then [] else Kept(Swept(queue[0], id)) + SweptQueue(queue[1..], id)
  }

  lemma {:induction false} AsksNone(svcs: seq<nat>, ip: bool, first: bool, id: nat)
    requires id !in svcs
    ensures AsksNotAbout(AsksFor(svcs, ip, first), id) == AsksFor(svcs, ip, first)
  {
    if svcs == [] {
      assert ip ==> AsksFor(svcs, ip, first)[1..] == [];
    } else {
      assert svcs == [svcs[0]] + svcs[1..];
      AsksStep(svcs[0], svcs[1..], ip, first);
      assert AsksFor(svcs, ip, first)[1..] == AsksFor(svcs[1..], ip, first);
      AsksNone(svcs[1..], ip, first, id);
    }
  }

  lemma {:induction false} AsksOnce(svcs: seq<nat>, ip: bool, first: bool, id: nat)
    requires NoDup(svcs) && id in svcs
    ensures DropAsk(AsksFor(svcs, ip, first), id) == AsksNotAbout(AsksFor(svcs, ip, first), id)
  {
    NoDupTail(svcs);
    assert svcs == [svcs[0]] + svcs[1..];
    AsksStep(svcs[0], svcs[1..], ip, first);
    assert AsksFor(svcs, ip, first)[1..] == AsksFor(svcs[1..], ip, first);
    if svcs[0] == id {
      AsksNone(svcs[1..], ip, first, id);
    } else {
      AsksOnce(svcs[1..], ip, first, id);
    }
  }

  /** The packets of a PCB: one probe, or packets without a question. */
  predicate Sweepable(pcb: Pcb, mine: seq<Packet>) {
    || mine == []
    || (pcb.sock && Probing(pcb.state) && NoDup(pcb.services) && |mine| == 1 && IsProbeOf(mine[0], pcb))
    || (pcb.sock && Rank(pcb.state) > Rank(PROBE_3) && forall p :: p in mine ==> p.questions == [])
  }

  lemma SweepOne(pcb: Pcb, mine: seq<Packet>, id: nat)
    requires Sweepable(pcb, mine) && mine != []
    ensures PurgeOne(pcb, mine[0], id).packet == Swept(mine[0], id)
    ensures Sweepable(PurgeOne(pcb, mine[0], id).pcb, mine[1..])
  {
    var p := mine[0];
    if Probing(pcb.state) {
      PurgedLists(pcb, p, id);
      if id in pcb.services {
        AsksOnce(pcb.services, pcb.ip, pcb.state == PROBE_1, id);
      } else {
        AsksNone(pcb.services, pcb.ip, pcb.state == PROBE_1, id);
      }
    } else {
      assert p in mine && forall q :: q in mine[1..] ==> q in mine;
    }
  }

  predicate AllSweepable(pcbs: seq<Pcb>, queue: seq<Packet>)
    requires |pcbs| == 6
  {
    forall c: Slot :: Sweepable(pcbs[c], Mine(queue, c))
  }

  lemma SweepNext(pcbs: seq<Pcb>, queue: seq<Packet>, id: nat)
    requires |pcbs| == 6 && AllSweepable(pcbs, queue) && queue != []
    ensures var c := queue[0].pcb;
      var one := PurgeOne(pcbs[c], queue[0], id);
      one.packet == Swept(queue[0], id) && AllSweepable(pcbs[c := one.pcb], queue[1..])
  {
    var c := queue[0].pcb;
    var one := PurgeOne(pcbs[c], queue[0], id);
    assert Sweepable(pcbs[c], Mine(queue, c));
    MineCons(queue, c);
    SweepOne(pcbs[c], Mine(queue, c), id);
    forall d: Slot
      ensures Sweepable(pcbs[c := one.pcb][d], Mine(queue[1..], d))
    {
      assert Sweepable(pcbs[d], Mine(queue, d));
    }
  }

  lemma {:induction false} SweepQueue(pcbs: seq<Pcb>, queue: seq<Packet>, id: nat)
    requires |pcbs| == 6 && AllSweepable(pcbs, queue)
    ensures PurgeQueue(pcbs, queue, id).queue == SweptQueue(queue, id)
    decreases |queue|
  {
    if queue == [] {
    } else {
      SweepNext(pcbs, queue, id);
      var c := queue[0].pcb;
      SweepQueue(pcbs[c := PurgeOne(pcbs[c], queue[0], id).pcb], queue[1..], id);
    }
  }

  /** Deleting a service takes out what is about it and nothing else, and keeps the order of the rest. */
  lemma DeletionExact(s: State, id: nat)
    requires Inv(s) && id in s.services
    ensures DeleteService(s, id).queue == SweptQueue(s.queue, id)
  {
    forall c: Slot
      ensures Sweepable(s.pcbs[c], Mine(s.queue, c))
    {
      assert SlotOk(s, c);
    }
    SweepQueue(s.pcbs, s.queue, id);
  }
}
