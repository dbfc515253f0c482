/** What a scheduled packet becomes on the wire, and what another host reads when it is sent. */
module Transmission {
  import opened Bytes
  import opened Encoder
  import opened Records
  import opened RecordWriter
  import opened PacketWriter
  import opened Dispatch
  import opened Tameness
  import opened Parser
  import opened PacketRoundTrip
  import TxQueue
  import Packets
  import Pcbs
  import Responder
  import Sending
  import Deletion
  import Runs

  /** The registered services by their identity. */
  type Registry = map<nat, Service>

  function KindOf(kind: TxQueue.Kind): Kind {
    match kind
    case PTR => PTR
    case SRV => SRV
    case TXT => TXT
    case SDPTR => SDPTR
    case A => A
    case AAAA => AAAA
    case Other(_) => OTHER
  }

  function AnswerOf(a: TxQueue.Ans, reg: Registry): Answer {
    Answer(KindOf(a.kind), if a.about.Service? && a.about.id in reg then Some(reg[a.about.id]) else NoService, NoCustom,
           a.flush, false)
  }

  function AnswersOf(list: seq<TxQueue.Ans>, reg: Registry): seq<Answer> {
    seq(|list|, k requires 0 <= k < |list| => AnswerOf(list[k], reg))
  }

  /** A probe asks for everything that has the name of a service instance, or of the host. */
  function AskOf(q: TxQueue.Ask, reg: Registry, server: Server): OutQuestion {
    if q.about.Service? && q.about.id in reg then
      var s := reg[q.about.id];
      OutQuestion(InstanceName(s, server), s.service, s.proto, LOCAL_DOMAIN, TYPE_ANY, q.unicast)
    else OutQuestion(server.hostname, [], [], LOCAL_DOMAIN, TYPE_ANY, q.unicast)
  }

  function AsksOf(list: seq<TxQueue.Ask>, reg: Registry, server: Server): seq<OutQuestion> {
    seq(|list|, k requires 0 <= k < |list| => AskOf(list[k], reg, server))
  }

  /** The packet as the serialiser gets it; everything but a probe is authoritative. */
  function OutOf(p: TxQueue.Packet, reg: Registry, server: Server): OutPacket {
    OutPacket(if p.questions != [] then 0 else FLAGS_AUTHORITATIVE, AsksOf(p.questions, reg, server),
              AnswersOf(p.answers, reg), AnswersOf(p.servers, reg), AnswersOf(p.additional, reg))
  }

  /** The services are registered under whole names, and the host has a name. */
  predicate Registered(svcs: seq<nat>, reg: Registry, server: Server) {
    && server.hostname != []
    && forall k :: 0 <= k < |svcs| ==> svcs[k] in reg && reg[svcs[k]].service != [] && reg[svcs[k]].proto != []
  }

  // ---------------------------------------------------------------------------------------------------------
  // What probes and announcements say

  function AskedFor(s: Service, server: Server, first: bool): Question {
    Question(InstanceFqdn(InstanceName(s, server), s.service, s.proto), TYPE_ANY, first)
  }

  /** One question for each service. */
  function ServiceQuestions(svcs: seq<nat>, first: bool, reg: Registry, server: Server): seq<Question>
    requires Registered(svcs, reg, server)
  {
    seq(|svcs|, k requires 0 <= k < |svcs| => AskedFor(reg[svcs[k]], server, first))
  }

  function HostQuestions(ip: bool, first: bool, server: Server): seq<Question> {
    if ip then [Question([server.hostname, LOCAL_DOMAIN], TYPE_ANY, first)] else []
  }

  /** One SRV record for each service. */
  function LocationRecords(svcs: seq<nat>, reg: Registry, server: Server): seq<Record>
    requires Registered(svcs, reg, server)
  {
    seq(|svcs|, k requires 0 <= k < |svcs| => SrvRecord(reg[svcs[k]], server, false, false))
  }

  function HostRecords(v4: bool, v6: bool, flush: bool, server: Server, addresses: Addresses): seq<Record> {
    (if v4 then AddressRecords(TYPE_A, addresses.v4, server, flush, false) else [])
    + (if v6 then AddressRecords(TYPE_AAAA, addresses.v6, server, flush, false) else [])
  }

  function FourRecords(s: Service, server: Server): seq<Record> {
    [SdPtrRecord(s, false), PtrRecord(InstanceName(s, server), s.service, s.proto, false),
     SrvRecord(s, server, true, false), TxtRecord(s, server, true, false)]
  }

  /** Four records for each service. */
  function AllFourRecords(svcs: seq<nat>, reg: Registry, server: Server): seq<Record>
    requires Registered(svcs, reg, server)
  {
    if svcs == [] then [] else FourRecords(reg[svcs[0]], server) + AllFourRecords(svcs[1..], reg, server)
  }

  function ProbeMessage(pcb: Pcbs.Pcb, v4: bool, v6: bool, reg: Registry, server: Server, addresses: Addresses): Message
    requires Registered(pcb.services, reg, server)
  {
    var first := pcb.state == Pcbs.PROBE_1;
    Message(0, ServiceQuestions(pcb.services, first, reg, server) + HostQuestions(pcb.ip, first, server), [],
            LocationRecords(pcb.services, reg, server) + HostRecords(v4, v6, false, server, addresses), [])
  }

  function AnnounceMessage(svcs: seq<nat>, v4: bool, v6: bool, reg: Registry, server: Server,
                           addresses: Addresses): Message
    requires Registered(svcs, reg, server)
  {
    Message(FLAGS_AUTHORITATIVE, [], AllFourRecords(svcs, reg, server) + HostRecords(v4, v6, true, server,
      addresses), [], [])
  }

  // ---------------------------------------------------------------------------------------------------------
  // Lists of records

  function RecordsFor(list: seq<TxQueue.Ans>, reg: Registry, server: Server, addresses: Addresses): seq<Record> {
    ExpectedAll(AnswersOf(list, reg), server, addresses)
  }

  lemma RecordsForCons(a: TxQueue.Ans, list: seq<TxQueue.Ans>, reg: Registry, server: Server, addresses: Addresses)
    ensures RecordsFor([a] + list, reg, server, addresses)
         == Expected(AnswerOf(a, reg), server, addresses) + RecordsFor(list, reg, server, addresses)
  {
    assert AnswersOf([a] + list, reg) == [AnswerOf(a, reg)] + AnswersOf(list, reg);
    assert ([AnswerOf(a, reg)] + AnswersOf(list, reg))[1..] == AnswersOf(list, reg);
  }

  lemma {:induction false} RecordsForJoin(a: seq<TxQueue.Ans>, b: seq<TxQueue.Ans>, reg: Registry, server: Server,
                                          addresses: Addresses)
    ensures RecordsFor(a + b, reg, server, addresses)
         == RecordsFor(a, reg, server, addresses) + RecordsFor(b, reg, server, addresses)
    decreases |a|
  {
    if a == [] {
      assert a + b == b;
    } else {
      assert a == [a[0]] + a[1..] && a + b == [a[0]] + (a[1..] + b);
      RecordsForCons(a[0], a[1..], reg, server, addresses);
      RecordsForCons(a[0], a[1..] + b, reg, server, addresses);
      RecordsForJoin(a[1..], b, reg, server, addresses);
      JoinRecords(Expected(AnswerOf(a[0], reg), server, addresses), RecordsFor(a[1..], reg, server, addresses),
                  RecordsFor(b, reg, server, addresses));
    }
  }

  lemma JoinRecords(x: seq<Record>, y: seq<Record>, z: seq<Record>)
    ensures x + (y + z) == x + y + z
  {
  }

  lemma HostsFor(v4: bool, v6: bool, flush: bool, reg: Registry, server: Server, addresses: Addresses)
    ensures RecordsFor(Packets.HostAnswers(v4, v6, flush), reg, server, addresses)
         == HostRecords(v4, v6, flush, server, addresses)
  {
    var one, two := TxQueue.Ans(TxQueue.A, TxQueue.Host, flush), TxQueue.Ans(TxQueue.AAAA, TxQueue.Host, flush);
    assert RecordsFor([], reg, server, addresses) == [];
    RecordsForCons(two, [], reg, server, addresses);
    RecordsForCons(one, [], reg, server, addresses);
    RecordsForCons(one, [two], reg, server, addresses);
    assert [one] + [] == [one] && [two] + [] == [two];
    assert Packets.HostAnswers(v4, v6, flush) ==
      if v4 then (if v6 then [one] + [two] else [one]) else if v6 then [two] else [];
  }

  lemma RegisteredTail(svcs: seq<nat>, reg: Registry, server: Server)
    requires svcs != [] && Registered(svcs, reg, server)
    ensures Registered(svcs[1..], reg, server)
  {
    assert forall k :: 0 <= k < |svcs| - 1 ==> svcs[1..][k] == svcs[k + 1];
  }

  lemma SrvFor(s: nat, rest: seq<TxQueue.Ans>, reg: Registry, server: Server, addresses: Addresses)
    requires s in reg && server.hostname != []
    ensures RecordsFor([TxQueue.Ans(TxQueue.SRV, TxQueue.Service(s), false)] + rest, reg, server, addresses)
         == [SrvRecord(reg[s], server, false, false)] + RecordsFor(rest, reg, server, addresses)
  {
    RecordsForCons(TxQueue.Ans(TxQueue.SRV, TxQueue.Service(s), false), rest, reg, server, addresses);
  }

  lemma LocationsCons(svcs: seq<nat>, reg: Registry, server: Server)
    requires svcs != [] && Registered(svcs, reg, server) && Registered(svcs[1..], reg, server)
    ensures LocationRecords(svcs, reg, server)
         == [SrvRecord(reg[svcs[0]], server, false, false)] + LocationRecords(svcs[1..], reg, server)
    ensures Packets.Srvs(svcs) == [TxQueue.Ans(TxQueue.SRV, TxQueue.Service(svcs[0]), false)] + Packets.Srvs(svcs[1..])
  {
  }

  lemma {:induction false} SrvsFor(svcs: seq<nat>, reg: Registry, server: Server, addresses: Addresses)
    requires Registered(svcs, reg, server)
    ensures RecordsFor(Packets.Srvs(svcs), reg, server, addresses) == LocationRecords(svcs, reg, server)
    decreases |svcs|
  {
    if svcs == [] {
    } else {
      RegisteredTail(svcs, reg, server);
      SrvsFor(svcs[1..], reg, server, addresses);
      SrvFor(svcs[0], Packets.Srvs(svcs[1..]), reg, server, addresses);
      LocationsCons(svcs, reg, server);
    }
  }

  lemma FourFor(s: nat, reg: Registry, server: Server, addresses: Addresses)
    requires s in reg && server.hostname != []
    ensures RecordsFor(Packets.Four(s), reg, server, addresses) == FourRecords(reg[s], server)
  {
    var f := Packets.Four(s);
    assert f == [f[0]] + ([f[1]] + ([f[2]] + ([f[3]] + [])));
    RecordsForCons(f[0], [f[1]] + ([f[2]] + ([f[3]] + [])), reg, server, addresses);
    RecordsForCons(f[1], [f[2]] + ([f[3]] + []), reg, server, addresses);
    RecordsForCons(f[2], [f[3]] + [], reg, server, addresses);
    RecordsForCons(f[3], [], reg, server, addresses);
  }

  lemma {:induction false} FourEachFor(svcs: seq<nat>, reg: Registry, server: Server, addresses: Addresses)
    requires Registered(svcs, reg, server)
    ensures RecordsFor(Packets.FourEach(svcs), reg, server, addresses) == AllFourRecords(svcs, reg, server)
    decreases |svcs|
  {
    if svcs == [] {
    } else {
      RegisteredTail(svcs, reg, server);
      FourFor(svcs[0], reg, server, addresses);
      RecordsForJoin(Packets.Four(svcs[0]), Packets.FourEach(svcs[1..]), reg, server, addresses);
      FourEachFor(svcs[1..], reg, server, addresses);
    }
  }

  lemma QuestionsFor(svcs: seq<nat>, ip: bool, first: bool, reg: Registry, server: Server)
    requires Registered(svcs, reg, server)
    ensures QuestionsOf(AsksOf(Packets.AsksFor(svcs, ip, first), reg, server))
         == ServiceQuestions(svcs, first, reg, server) + HostQuestions(ip, first, server)
  {
    var asks := Packets.AsksFor(svcs, ip, first);
    var all := ServiceQuestions(svcs, first, reg, server) + HostQuestions(ip, first, server);
    forall k | 0 <= k < |asks|
      ensures QuestionOf(AskOf(asks[k], reg, server)) == all[k]
    {
      if k < |svcs| {
        AskedService(svcs[k], first, reg, server);
      } else {
        AskedHost(first, reg, server);
      }
    }
  }

  lemma AskedService(s: nat, first: bool, reg: Registry, server: Server)
    requires server.hostname != [] && s in reg && reg[s].service != [] && reg[s].proto != []
    ensures QuestionOf(AskOf(TxQueue.Ask(TxQueue.Service(s), first), reg, server)) == AskedFor(reg[s], server, first)
  {
  }

  lemma AskedHost(first: bool, reg: Registry, server: Server)
    requires server.hostname != []
    ensures QuestionOf(AskOf(TxQueue.Ask(TxQueue.Host, first), reg, server))
         == Question([server.hostname, LOCAL_DOMAIN], TYPE_ANY, first)
  {
  }

  // ---------------------------------------------------------------------------------------------------------
  // From the queue to the receiver

  /** The address records of the host that a list has. */
  predicate HasA(list: seq<TxQueue.Ans>) {
    Packets.Has(list, TxQueue.A, TxQueue.Host)
  }

  predicate HasAAAA(list: seq<TxQueue.Ans>) {
    Packets.Has(list, TxQueue.AAAA, TxQueue.Host)
  }

  lemma HostsAmong(list: seq<TxQueue.Ans>, v4: bool, v6: bool, flush: bool)
    requires forall k :: 0 <= k < |list| ==> list[k].about != TxQueue.Host
    ensures HasA(list + Packets.HostAnswers(v4, v6, flush)) <==> v4
    ensures HasAAAA(list + Packets.HostAnswers(v4, v6, flush)) <==> v6
  {
    var all := list + Packets.HostAnswers(v4, v6, flush);
    assert v4 ==> all[|list|] == TxQueue.Ans(TxQueue.A, TxQueue.Host, flush);
    assert v6 ==> all[|all| - 1] == TxQueue.Ans(TxQueue.AAAA, TxQueue.Host, flush);
  }

  /** What the queue holds for a probing PCB says exactly that the PCB asks for its services and its host name. */
  lemma ProbeOnWire(p: TxQueue.Packet, pcb: Pcbs.Pcb, reg: Registry, server: Server, addresses: Addresses)
    requires Pcbs.IsProbeOf(p, pcb) && (pcb.services != [] || pcb.ip) && Registered(pcb.services, reg, server)
    ensures pcb.ip <==> HasA(p.servers) || HasAAAA(p.servers)
    ensures MessageOf(OutOf(p, reg, server), server, addresses)
         == ProbeMessage(pcb, HasA(p.servers), HasAAAA(p.servers), reg, server, addresses)
  {
    var v4, v6 :| Pcbs.ProbeServers(p.servers, pcb.services, pcb.ip, v4, v6);
    HostsAmong(Packets.Srvs(pcb.services), v4, v6, false);
    QuestionsFor(pcb.services, pcb.ip, pcb.state == Pcbs.PROBE_1, reg, server);
    RecordsForJoin(Packets.Srvs(pcb.services), Packets.HostAnswers(v4, v6, false), reg, server, addresses);
    SrvsFor(pcb.services, reg, server, addresses);
    HostsFor(v4, v6, false, reg, server, addresses);
  }

  lemma AnnouncementOnWire(p: TxQueue.Packet, svcs: seq<nat>, v4: bool, v6: bool, reg: Registry, server: Server,
                           addresses: Addresses)
    requires Registered(svcs, reg, server) && p.questions == [] && p.servers == [] && p.additional == []
    requires p.answers == Packets.FourEach(svcs) + Packets.HostAnswers(v4, v6, true)
    ensures (HasA(p.answers) <==> v4) && (HasAAAA(p.answers) <==> v6)
    ensures MessageOf(OutOf(p, reg, server), server, addresses) == AnnounceMessage(svcs, v4, v6, reg, server, addresses)
  {
    forall k | 0 <= k < |Packets.FourEach(svcs)|
      ensures Packets.FourEach(svcs)[k].about != TxQueue.Host
    {
      Packets.FourEachAbout(svcs, k);
    }
    HostsAmong(Packets.FourEach(svcs), v4, v6, true);
    RecordsForJoin(Packets.FourEach(svcs), Packets.HostAnswers(v4, v6, true), reg, server, addresses);
    FourEachFor(svcs, reg, server, addresses);
    HostsFor(v4, v6, true, reg, server, addresses);
  }

  lemma RegisteredIn(svcs: seq<nat>, services: seq<nat>, reg: Registry, server: Server)
    requires Packets.AllIn(svcs, services) && Registered(services, reg, server)
    ensures Registered(svcs, reg, server)
  {
  }

  /**
   * In every run: what a probing PCB has in the queue, once it is sent, is read by another host as one question for
   * each probed service and for the host, with the proposed records in the authority section, and nothing else. It is
   * sent as a whole if it is tame and fits.
   */
  method SendProbe(ghost t: Responder.State, ghost steps: seq<Runs.Step>, c: TxQueue.Slot, p: TxQueue.Packet,
                   ghost pcb: Pcbs.Pcb, reg: Registry, server: Server, addresses: Addresses, stale: seq<byte>,
                   srcPort: nat, receiver: Server, services: seq<Service>)
    returns (packet: seq<byte>, r: Reading, ghost complete: bool, ghost safe: bool)
    requires Runs.Reachable(t, steps) && |t.pcbs| == 6 && pcb == t.pcbs[c] && Pcbs.Probing(pcb.state)
    requires p in t.queue && p.pcb == c
    requires Registered(t.services, reg, server) && |stale| == MAX_PACKET_SIZE && addresses.Valid()
    ensures Registered(pcb.services, reg, server) && (pcb.ip <==> HasA(p.servers) || HasAAAA(p.servers))
    ensures var m := ProbeMessage(pcb, HasA(p.servers), HasAAAA(p.servers), reg, server, addresses);
      complete && safe && Nameable(m) && Interested(packet, srcPort, receiver, services) ==> Understood(packet, m, r)
    ensures var m := ProbeMessage(pcb, HasA(p.servers), HasAAAA(p.servers), reg, server, addresses);
      FittingPacket(IsZero(stale), OutOf(p, reg, server), server, addresses) && Nameable(m) ==>
        PacketHas(packet)(m) && (Interested(packet, srcPort, receiver, services) ==> Understood(packet, m, r))
  {
    ghost var q := OnlyProbe(t, steps, c, p);
    RegisteredIn(pcb.services, t.services, reg, server);
    ProbeOnWire(p, pcb, reg, server, addresses);
    packet, r, complete, safe := SendAndReceive(stale, OutOf(p, reg, server), server, addresses, srcPort, receiver,
      services);
  }

  /** A packet of a probing PCB is its probe. */
  lemma OnlyProbe(t: Responder.State, steps: seq<Runs.Step>, c: TxQueue.Slot, p: TxQueue.Packet) returns (pcb: Pcbs.Pcb)
    requires Runs.Reachable(t, steps) && |t.pcbs| == 6 && Pcbs.Probing(t.pcbs[c].state) && p in t.queue && p.pcb == c
    ensures pcb == t.pcbs[c] && Pcbs.IsProbeOf(p, pcb) && (pcb.services != [] || pcb.ip)
    ensures Packets.AllIn(pcb.services, t.services)
  {
    pcb := t.pcbs[c];
    Runs.ReachableInv(t, steps);
    assert Responder.SlotOk(t, c);
    Deletion.InMine(t.queue, p);
  }

  /**
   * In every run: when a PCB has sent its last probe, what it schedules is, once sent, read by another host as four
   * records for each probed service and the addresses as probed, and nothing else. It is sent as a whole if it is tame
   * and fits.
   */
  method SendAnnouncement(ghost s: Responder.State, ghost steps: seq<Runs.Step>, hint: nat, ghost pcb: Pcbs.Pcb,
                          a: TxQueue.Packet, reg: Registry, server: Server, addresses: Addresses, stale: seq<byte>,
                          srcPort: nat, receiver: Server, services: seq<Service>)
    returns (packet: seq<byte>, r: Reading, ghost complete: bool, ghost safe: bool)
    requires Runs.Reachable(s, steps) && |s.pcbs| == 6 && Sending.Meets(s)
    requires pcb == s.pcbs[s.queue[0].pcb] && pcb.state == Pcbs.PROBE_3
    requires a in Sending.SendHead(s, hint, true).queue && a.pcb == s.queue[0].pcb
    requires Registered(s.services, reg, server) && |stale| == MAX_PACKET_SIZE && addresses.Valid()
    ensures Registered(pcb.services, reg, server) && (pcb.ip <==> HasA(a.answers) || HasAAAA(a.answers))
    ensures var m := AnnounceMessage(pcb.services, HasA(a.answers), HasAAAA(a.answers), reg, server, addresses);
      complete && safe && Nameable(m) && Interested(packet, srcPort, receiver, services) ==> Understood(packet, m, r)
    ensures var m := AnnounceMessage(pcb.services, HasA(a.answers), HasAAAA(a.answers), reg, server, addresses);
      FittingPacket(IsZero(stale), OutOf(a, reg, server), server, addresses) && Nameable(m) ==>
        PacketHas(packet)(m) && (Interested(packet, srcPort, receiver, services) ==> Understood(packet, m, r))
  {
    ghost var v4, v6 := NewAnnouncement(s, steps, hint, a);
    RegisteredIn(pcb.services, s.services, reg, server);
    AnnouncementOnWire(a, pcb.services, v4, v6, reg, server, addresses);
    packet, r, complete, safe := SendAndReceive(stale, OutOf(a, reg, server), server, addresses, srcPort, receiver,
      services);
  }

  /** The packet that the PCB then has. */
  lemma NewAnnouncement(s: Responder.State, steps: seq<Runs.Step>, hint: nat, a: TxQueue.Packet)
    returns (v4: bool, v6: bool)
    requires Runs.Reachable(s, steps) && |s.pcbs| == 6 && Sending.Meets(s)
    requires s.pcbs[s.queue[0].pcb].state == Pcbs.PROBE_3
    requires a in Sending.SendHead(s, hint, true).queue && a.pcb == s.queue[0].pcb
    ensures var pcb := s.pcbs[s.queue[0].pcb];
      && Packets.AllIn(pcb.services, s.services) && (pcb.ip <==> v4 || v6)
      && a.answers == Packets.FourEach(pcb.services) + Packets.HostAnswers(v4, v6, true)
      && a.questions == [] && a.servers == [] && a.additional == []
  {
    var p, c := s.queue[0], s.queue[0].pcb;
    var pcb := s.pcbs[c];
    Runs.ReachableInv(s, steps);
    assert Responder.SlotOk(s, c);
    var rest := TxQueue.Mine(s.queue[1..], c);
    assert TxQueue.Mine(s.queue, c) == [p] + rest;
    assert rest == [];
    assert [p] + rest == [p];
    Pcbs.ProbeDone(pcb, p, s.services, Responder.Episode(s.log, c), s.now, Responder.Unused(hint, s.queue));
    var h := Pcbs.HandlePacket(pcb, p, s.now, Responder.Unused(hint, s.queue), true);
    Pcbs.InsertIn(s.queue[1..], h.again[0]);
    if a in s.queue[1..] {
      Deletion.InMine(s.queue[1..], a);
      assert false;
    }
    v4, v6 :| Pcbs.ProbeServers(p.servers, pcb.services, pcb.ip, v4, v6)
           && h.again[0].answers == Packets.FourEach(pcb.services) + Packets.HostAnswers(v4, v6, true);
  }
}
