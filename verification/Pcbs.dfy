/** One PCB with its scheduled packets: the probe/announce machine of sections 8.1 to 8.3 of RFC 6762. */
module Pcbs {
  import opened TxQueue
  import opened Packets

  datatype PcbState =
    | OFF | DUP | INIT | PROBE_1 | PROBE_2 | PROBE_3 | ANNOUNCE_1 | ANNOUNCE_2 | ANNOUNCE_3 | RUNNING

  /** The states in their numerical order. */
  function Rank(st: PcbState): nat {
    match st
    case OFF => 0 case DUP => 1 case INIT => 2 case PROBE_1 => 3 case PROBE_2 => 4 case PROBE_3 => 5
    case ANNOUNCE_1 => 6 case ANNOUNCE_2 => 7 case ANNOUNCE_3 => 8 case RUNNING => 9
  }

  /** The source's own test, which includes DUP and INIT. */
  predicate IsProbing(st: PcbState) {
    Rank(OFF) < Rank(st) < Rank(ANNOUNCE_1)
  }

  predicate IsAnnouncing(st: PcbState) {
    Rank(PROBE_3) < Rank(st) < Rank(RUNNING)
  }

  predicate Probing(st: PcbState) {
    st == PROBE_1 || st == PROBE_2 || st == PROBE_3
  }

  /** `services` and `ip` are what the PCB is probing for; `failed` counts its lost probes. */
  datatype Pcb = Pcb(state: PcbState, sock: bool, services: seq<nat>, ip: bool, running: bool, failed: nat)

  const PROBE_SPACING: nat := 250

  predicate Spaced(times: seq<nat>) {
    forall k :: 0 < k < |times| ==> times[k] >= times[k - 1] + PROBE_SPACING
  }

  // ---------------------------------------------------------------------------------------------------------
  // What holds of a PCB

  predicate PcbBase(pcb: Pcb, services: seq<nat>) {
    && (pcb.sock <==> Rank(pcb.state) >= Rank(PROBE_1))
    && pcb.state != INIT
    && NoDup(pcb.services) && AllIn(pcb.services, services)
    && (!Probing(pcb.state) ==> pcb.services == [] && !pcb.ip)
  }

  /** The packet is the probe for what the PCB is probing for, and for nothing else. */
  predicate IsProbeOf(p: Packet, pcb: Pcb) {
    && p.questions == AsksFor(pcb.services, pcb.ip, pcb.state == PROBE_1)
    && p.answers == [] && p.additional == [] && !p.distributed
    && exists v4, v6 :: ProbeServers(p.servers, pcb.services, pcb.ip, v4, v6)
  }

  predicate ProbeServers(servers: seq<Ans>, svcs: seq<nat>, ip: bool, v4: bool, v6: bool) {
    && servers == Srvs(svcs) + HostAnswers(v4, v6, false)
    && (ip <==> v4 || v6)
  }

  /** At least one probe was sent for each step of the machine, and the next one is not due too soon. */
  predicate Rhythm(state: PcbState, next: nat, episode: seq<nat>) {
    && Spaced(episode)
    && |episode| + Rank(PROBE_1) >= Rank(state)
    && (episode != [] ==> next >= episode[|episode| - 1] + PROBE_SPACING)
  }

  predicate ProbeOk(pcb: Pcb, mine: seq<Packet>, episode: seq<nat>) {
    && |mine| == 1 && IsProbeOf(mine[0], pcb)
    && (pcb.services != [] || pcb.ip)
    && Rhythm(pcb.state, mine[0].sendAt, episode)
  }

  /** A response: no question, no proposed record, and only address records about the host as additional ones. */
  predicate Plain(p: Packet, services: seq<nat>) {
    && p.questions == [] && p.servers == []
    && Sound(p.answers, services) && Sound(p.additional, [])
  }

  predicate AllPlain(mine: seq<Packet>, services: seq<nat>) {
    forall p :: p in mine ==> Plain(p, services)
  }

  /** The packet that keeps an announcing PCB going. */
  predicate Anchor(p: Packet) {
    !p.distributed && p.answers != []
  }

  predicate Anchored(mine: seq<Packet>) {
    exists p :: p in mine && Anchor(p)
  }

  predicate SliceOk(pcb: Pcb, mine: seq<Packet>, services: seq<nat>, episode: seq<nat>) {
    && PcbBase(pcb, services)
    && (pcb.running <==> Probing(pcb.state))
    && (!pcb.sock ==> mine == [])
    && (Probing(pcb.state) ==> ProbeOk(pcb, mine, episode))
    && (pcb.sock && !Probing(pcb.state) ==> AllPlain(mine, services))
    && (IsAnnouncing(pcb.state) ==> Anchored(mine))
  }

  /** The same as a function of the PCB, its packets and its episode. */
  function SliceIn(services: seq<nat>): (Pcb, seq<Packet>, seq<nat>) -> bool {
    (pcb, mine, episode) => SliceOk(pcb, mine, services, episode)
  }

  // ---------------------------------------------------------------------------------------------------------
  // Sending

  function Later(p: Packet, at: nat): Packet {
    p.(sendAt := at, queued := false)
  }

  function Multicast(asks: seq<Ask>): (r: seq<Ask>)
    ensures |r| == |asks| && forall k :: 0 <= k < |asks| ==> r[k] == asks[k].(unicast := false)
  {
    seq(|asks|, k requires 0 <= k < |asks| => asks[k].(unicast := false))
  }

  /** The PCB after a packet was sent, and the packet that is scheduled next, if there is one. */
  datatype Handled = Handled(pcb: Pcb, again: seq<Packet>)

  /** What sending a packet does; an announcement needs a new packet at address `address`, if there is memory. */
  function HandlePacket(pcb: Pcb, p: Packet, now: nat, address: nat, memory: bool): Handled {
    match pcb.state
    case PROBE_1 =>
      Handled(pcb.(state := PROBE_2), [Later(p.(questions := Multicast(p.questions)), now + PROBE_SPACING)])
    case PROBE_2 => Handled(pcb.(state := PROBE_3), [Later(p, now + PROBE_SPACING)])
    case PROBE_3 =>
      if !memory then Handled(pcb, [Later(p, now + PROBE_SPACING)])
      else
        Handled(Pcb(ANNOUNCE_1, pcb.sock, [], false, false, 0),
                [Packet(address, p.pcb, now + 250, false, false, [], AnnounceFromProbe([], p.servers), [], [])])
    case ANNOUNCE_1 => Handled(pcb.(state := ANNOUNCE_2), [Later(p, now + 1000)])
    case ANNOUNCE_2 => Handled(pcb.(state := ANNOUNCE_3), [Later(p, now + 1000)])
    case ANNOUNCE_3 => Handled(pcb.(state := RUNNING), [])
    case _ => Handled(pcb, [])
  }

  function Reinsert(rest: seq<Packet>, again: seq<Packet>): seq<Packet> {
    if again == [] then rest else Insert(rest, again[0])
  }

  lemma SpacedSnoc(times: seq<nat>, at: nat)
    requires Spaced(times) && (times != [] ==> at >= times[|times| - 1] + PROBE_SPACING)
    ensures Spaced(times + [at])
  {
  }

  lemma {:induction false} InsertIn(q: seq<Packet>, p: Packet)
    ensures forall x :: x in Insert(q, p) <==> x in q || x == p
  {
    if q == [] || q[0].sendAt > p.sendAt {
    } else {
      InsertIn(q[1..], p);
      assert q == [q[0]] + q[1..];
    }
  }

  lemma MulticastAsks(svcs: seq<nat>, ip: bool, first: bool)
    ensures Multicast(AsksFor(svcs, ip, first)) == AsksFor(svcs, ip, false)
  {
  }

  /** A probe that is not the last one. */
  lemma ProbeAgain(pcb: Pcb, p: Packet, services: seq<nat>, episode: seq<nat>, now: nat)
    requires SliceOk(pcb, [p], services, episode) && p.sendAt < now && (pcb.state == PROBE_1 || pcb.state == PROBE_2)
    ensures var h := HandlePacket(pcb, p, now, 0, true);
      SliceIn(services)(h.pcb, h.again, episode + [now])
  {
    SpacedSnoc(episode, now);
    MulticastAsks(pcb.services, pcb.ip, true);
  }

  lemma ProbeStuck(pcb: Pcb, p: Packet, services: seq<nat>, episode: seq<nat>, now: nat)
    requires SliceOk(pcb, [p], services, episode) && p.sendAt < now && pcb.state == PROBE_3
    ensures SliceIn(services)(pcb, [Later(p, now + PROBE_SPACING)], episode + [now])
  {
    SpacedSnoc(episode, now);
  }

  lemma FourEachIn(svcs: seq<nat>, v4: bool, v6: bool, services: seq<nat>)
    requires AllIn(svcs, services)
    ensures RefsIn(FourEach(svcs) + HostAnswers(v4, v6, true), services)
  {
    forall k | 0 <= k < |FourEach(svcs)|
      ensures FourEach(svcs)[k].about.Service? && FourEach(svcs)[k].about.id in services
    {
      FourEachAbout(svcs, k);
    }
  }

  /** The announcement says exactly what was probed for. */
  lemma Announces(pcb: Pcb, p: Packet, services: seq<nat>)
    requires IsProbeOf(p, pcb) && NoDup(pcb.services) && AllIn(pcb.services, services) && (pcb.services != [] || pcb.ip)
    ensures Sound(AnnounceFromProbe([], p.servers), services) && AnnounceFromProbe([], p.servers) != []
    ensures exists v4, v6 ::
      && ProbeServers(p.servers, pcb.services, pcb.ip, v4, v6)
      && AnnounceFromProbe([], p.servers) == FourEach(pcb.services) + HostAnswers(v4, v6, true)
  {
    var v4, v6 :| ProbeServers(p.servers, pcb.services, pcb.ip, v4, v6);
    AnnounceExact(pcb.services, v4, v6);
    FourEachIn(pcb.services, v4, v6, services);
  }

  /** A PCB that has just one packet, an announcement. */
  lemma FirstAnnouncement(sock: bool, a: Packet, services: seq<nat>, episode: seq<nat>)
    requires sock && Plain(a, services) && Anchor(a)
    ensures SliceIn(services)(Pcb(ANNOUNCE_1, sock, [], false, false, 0), [a], episode)
  {
    assert a in [a];
  }

  /** The last probe: the PCB starts to announce exactly what it was probing for. */
  lemma ProbeDone(pcb: Pcb, p: Packet, services: seq<nat>, episode: seq<nat>, now: nat, address: nat)
    requires SliceOk(pcb, [p], services, episode) && p.sendAt < now && pcb.state == PROBE_3
    ensures var h := HandlePacket(pcb, p, now, address, true);
      && SliceIn(services)(h.pcb, h.again, episode + [now])
      && Spaced(episode + [now]) && |episode + [now]| >= 3
      && |h.again| == 1
      && exists v4, v6 :: ProbeServers(p.servers, pcb.services, pcb.ip, v4, v6)
           && h.again[0].answers == FourEach(pcb.services) + HostAnswers(v4, v6, true)
  {
    SpacedSnoc(episode, now);
    assert [p][0] == p;
    Announces(pcb, p, services);
    var h := HandlePacket(pcb, p, now, address, true);
    FirstAnnouncement(pcb.sock, h.again[0], services, episode + [now]);
  }

  lemma AnchorSent(p: Packet, q: Packet, rest: seq<Packet>)
    requires Anchored([p] + rest) && q.answers == p.answers && q.distributed == p.distributed
    ensures Anchored(Insert(rest, q))
  {
    InsertIn(rest, q);
    var a :| a in [p] + rest && Anchor(a);
    if a == p {
      assert Anchor(q) && q in Insert(rest, q);
    } else {
      assert a in rest && a in Insert(rest, q);
    }
  }

  lemma PlainsSent(p: Packet, q: Packet, rest: seq<Packet>, services: seq<nat>)
    requires AllPlain([p] + rest, services) && q == Later(p, q.sendAt)
    ensures AllPlain(rest, services) && AllPlain(Insert(rest, q), services)
  {
    InsertIn(rest, q);
    assert p in [p] + rest;
    assert forall x :: x in rest ==> x in [p] + rest;
  }

  /** What sending a packet of a PCB past probing gives. */
  lemma Repeated(pcb: Pcb, p: Packet, now: nat, address: nat, memory: bool)
    requires Rank(pcb.state) > Rank(PROBE_3)
    ensures var h := HandlePacket(pcb, p, now, address, memory);
      && Rank(h.pcb.state) == (if pcb.state == RUNNING then Rank(RUNNING) else Rank(pcb.state) + 1)
      && h.pcb == pcb.(state := h.pcb.state)
      && h.again == if pcb.state == ANNOUNCE_1 || pcb.state == ANNOUNCE_2 then [Later(p, now + 1000)] else []
  {
  }

  lemma PastSlice(pcb: Pcb, mine: seq<Packet>, services: seq<nat>, episode: seq<nat>)
    requires Rank(pcb.state) > Rank(PROBE_3) && pcb.sock && pcb.services == [] && !pcb.ip && !pcb.running
    requires AllPlain(mine, services) && (IsAnnouncing(pcb.state) ==> Anchored(mine))
    ensures SliceIn(services)(pcb, mine, episode)
  {
  }

  /** Any packet of a PCB that is not probing. */
  lemma PlainSent(pcb: Pcb, p: Packet, rest: seq<Packet>, services: seq<nat>, episode: seq<nat>, now: nat, address: nat)
    requires SliceOk(pcb, [p] + rest, services, episode) && pcb.sock && !Probing(pcb.state)
    ensures var h := HandlePacket(pcb, p, now, address, true);
      SliceIn(services)(h.pcb, Reinsert(rest, h.again), episode)
  {
    var q := Later(p, now + 1000);
    Repeated(pcb, p, now, address, true);
    PlainsSent(p, q, rest, services);
    if IsAnnouncing(pcb.state) {
      AnchorSent(p, q, rest);
    }
    var h := HandlePacket(pcb, p, now, address, true);
    PastSlice(h.pcb, Reinsert(rest, h.again), services, episode);
  }

  // ---------------------------------------------------------------------------------------------------------
  // Starting to probe

  function Merged(pcb: Pcb, svcs: seq<nat>): seq<nat> {
    if IsProbing(pcb.state) then NewOnes(svcs, pcb.services) + pcb.services else svcs
  }

  /** The PCB once it probes for these services and, with `ip`, for the host name as well. */
  function BeginPcb(pcb: Pcb, svcs: seq<nat>, ip: bool): Pcb {
    Pcb(PROBE_1, pcb.sock, Merged(pcb, svcs), pcb.ip || ip, true, pcb.failed)
  }

  function ProbePacket(id: nat, c: Slot, at: nat, svcs: seq<nat>, ip: bool, v4: bool, v6: bool): Packet {
    var probe := ProbeFor(svcs, ip, true, v4, v6);
    Packet(id, c, at, false, false, probe.asks, [], probe.servers, [])
  }

  lemma MergedOk(pcb: Pcb, svcs: seq<nat>, services: seq<nat>)
    requires NoDup(pcb.services) && AllIn(pcb.services, services) && NoDup(svcs) && AllIn(svcs, services)
    ensures NoDup(Merged(pcb, svcs)) && AllIn(Merged(pcb, svcs), services)
    ensures svcs != [] ==> Merged(pcb, svcs) != []
  {
    UnionNoDup(svcs, pcb.services);
    var m := Merged(pcb, svcs);
    forall k | 0 <= k < |m|
      ensures m[k] in services
    {
      assert m[k] in m;
      assert m[k] in svcs || m[k] in pcb.services;
    }
    assert svcs != [] ==> svcs[0] in m;
  }

  lemma ProbeIsOf(pcb: Pcb, id: nat, c: Slot, at: nat, v4: bool, v6: bool)
    requires NoDup(pcb.services) && pcb.state == PROBE_1 && (v4 || v6)
    ensures IsProbeOf(ProbePacket(id, c, at, pcb.services, pcb.ip, v4, v6), pcb)
  {
    ProbeExact(pcb.services, pcb.ip, true, v4, v6);
    var servers := ProbeFor(pcb.services, pcb.ip, true, v4, v6).servers;
    if pcb.ip {
      assert ProbeServers(servers, pcb.services, pcb.ip, v4, v6);
    } else {
      assert ProbeServers(servers, pcb.services, pcb.ip, false, false);
    }
  }

  /** Whatever the PCB was doing before, it now has one packet, the probe, and a new episode. */
  lemma BeginOk(pcb: Pcb, svcs: seq<nat>, ip: bool, services: seq<nat>, id: nat, c: Slot, at: nat, v4: bool, v6: bool)
    requires NoDup(pcb.services) && AllIn(pcb.services, services) && pcb.sock && NoDup(svcs) && AllIn(svcs, services)
    requires (svcs != [] || ip) && (v4 || v6)
    ensures var b := BeginPcb(pcb, svcs, ip);
      SliceIn(services)(b, [ProbePacket(id, c, at, b.services, b.ip, v4, v6)], [])
  {
    MergedOk(pcb, svcs, services);
    var b := BeginPcb(pcb, svcs, ip);
    ProbeIsOf(b, id, c, at, v4, v6);
    FirstProbe(b, ProbePacket(id, c, at, b.services, b.ip, v4, v6), services);
  }

  lemma FirstProbe(b: Pcb, p: Packet, services: seq<nat>)
    requires b.state == PROBE_1 && b.sock && b.running && (b.services != [] || b.ip)
    requires NoDup(b.services) && AllIn(b.services, services) && IsProbeOf(p, b)
    ensures SliceIn(services)(b, [p], [])
  {
    assert PcbBase(b, services) && Rhythm(PROBE_1, p.sendAt, []) && ProbeOk(b, [p], []);
  }

  // ---------------------------------------------------------------------------------------------------------
  // Announcing without a probe

  function AnnounceIn(p: Packet, svcs: seq<nat>, ip: bool): Packet {
    var answers := AddServices(p.answers, svcs);
    if ip then
      p.(additional := DropAnswer(DropAnswer(p.additional, A, Host), AAAA, Host), answers := AddAddresses(answers))
    else p.(answers := answers)
  }

  function AnnouncePacket(id: nat, c: Slot, at: nat, svcs: seq<nat>, ip: bool): Packet {
    var answers := AddServices([], svcs);
    Packet(id, c, at, false, false, [], if ip then AddAddresses(answers) else answers, [], [])
  }

  lemma AnnounceInPlain(p: Packet, svcs: seq<nat>, ip: bool, services: seq<nat>)
    requires Plain(p, services) && AllIn(svcs, services)
    ensures Plain(AnnounceIn(p, svcs, ip), services) && (Anchor(p) ==> Anchor(AnnounceIn(p, svcs, ip)))
  {
    AddServicesSound(p.answers, svcs, services);
    AddAddressesSound(AddServices(p.answers, svcs), services);
    DropAnswerSound(p.additional, A, Host, []);
    DropAnswerSound(DropAnswer(p.additional, A, Host), AAAA, Host, []);
  }

  lemma AnnounceMoreOk(pcb: Pcb, mine: seq<Packet>, svcs: seq<nat>, ip: bool, services: seq<nat>, episode: seq<nat>)
    requires SliceOk(pcb, mine, services, episode) && IsAnnouncing(pcb.state) && AllIn(svcs, services)
    ensures mine != []
    ensures SliceIn(services)(pcb.(state := ANNOUNCE_1), mine[0 := AnnounceIn(mine[0], svcs, ip)], episode)
  {
    var a :| a in mine && Anchor(a);
    var k :| 0 <= k < |mine| && mine[k] == a;
    assert mine[0] in mine;
    AnnounceInPlain(mine[0], svcs, ip, services);
    var b := AnnounceIn(mine[0], svcs, ip);
    var after := mine[0 := b];
    assert forall x :: x in after ==> x == b || x in mine;
    assert Anchor(after[k]) && after[k] in after;
    PastSlice(pcb.(state := ANNOUNCE_1), after, services, episode);
  }

  lemma AnnounceNewOk(pcb: Pcb, mine: seq<Packet>, id: nat, c: Slot, at: nat, svcs: seq<nat>, ip: bool,
                      services: seq<nat>, episode: seq<nat>)
    requires SliceOk(pcb, mine, services, episode) && pcb.state == RUNNING && AllIn(svcs, services)
    requires svcs != [] || ip
    ensures var p := AnnouncePacket(id, c, at, svcs, ip);
      SliceIn(services)(pcb.(state := ANNOUNCE_1), Insert(mine, p), episode)
  {
    var p := AnnouncePacket(id, c, at, svcs, ip);
    AddServicesSound([], svcs, services);
    AddAddressesSound(AddServices([], svcs), services);
    InsertIn(mine, p);
    assert Anchor(p) && Plain(p, services);
    PastSlice(pcb.(state := ANNOUNCE_1), Insert(mine, p), services, episode);
  }

  // ---------------------------------------------------------------------------------------------------------
  // Responses

  /** A scheduled response. */
  predicate Response(p: Packet, services: seq<nat>) {
    Plain(p, services) && p.answers != []
  }

  lemma RespondOk(pcb: Pcb, mine: seq<Packet>, p: Packet, services: seq<nat>, episode: seq<nat>)
    requires SliceOk(pcb, mine, services, episode) && Rank(pcb.state) > Rank(PROBE_3) && Response(p, services)
    ensures SliceIn(services)(pcb, Insert(mine, p), episode)
  {
    InsertIn(mine, p);
    if IsAnnouncing(pcb.state) {
      var a :| a in mine && Anchor(a);
      assert a in Insert(mine, p);
    }
  }

  /** An answer that another host has just given is taken out of the shared responses of a PCB. */
  function SuppressIn(p: Packet, c: Slot, kind: Kind, about: Ref): Packet {
    if p.pcb == c && p.distributed then p.(answers := DropAnswer(p.answers, kind, about)) else p
  }

  function Suppressed(q: seq<Packet>, c: Slot, kind: Kind, about: Ref): (r: seq<Packet>)
    ensures |r| == |q| && forall k :: 0 <= k < |q| ==> r[k] == SuppressIn(q[k], c, kind, about)
  {
    seq(|q|, k requires 0 <= k < |q| => SuppressIn(q[k], c, kind, about))
  }

  lemma SuppressPlain(p: Packet, c: Slot, kind: Kind, about: Ref, services: seq<nat>)
    requires Plain(p, services)
    ensures Plain(SuppressIn(p, c, kind, about), services) && (Anchor(p) ==> Anchor(SuppressIn(p, c, kind, about)))
  {
    DropAnswerSound(p.answers, kind, about, services);
  }

  lemma SuppressOk(pcb: Pcb, mine: seq<Packet>, c: Slot, kind: Kind, about: Ref, services: seq<nat>, episode: seq<nat>)
    requires SliceOk(pcb, mine, services, episode)
    ensures SliceIn(services)(pcb, Suppressed(mine, c, kind, about), episode)
  {
    var after := Suppressed(mine, c, kind, about);
    if Probing(pcb.state) {
      assert after == mine;
    } else {
      forall k | 0 <= k < |mine| && pcb.sock
        ensures Plain(after[k], services)
      {
        SuppressPlain(mine[k], c, kind, about, services);
      }
      if IsAnnouncing(pcb.state) {
        var a :| a in mine && Anchor(a);
        var k :| 0 <= k < |mine| && mine[k] == a;
        assert after[k] in after && Anchor(after[k]);
      }
    }
  }

  // ---------------------------------------------------------------------------------------------------------
  // Deleting a service

  function DropAsk(asks: seq<Ask>, s: nat): seq<Ask> {
    if asks == [] then [] else if asks[0].about == Service(s) then asks[1..] else [asks[0]] + DropAsk(asks[1..], s)
  }

  predicate Empty(p: Packet) {
    p.questions == [] && p.answers == [] && p.servers == [] && p.additional == []
  }

  datatype Purge = Purge(pcb: Pcb, packet: Packet)

  /** A deleted service is taken out of one packet and out of what its PCB is probing for. */
  function PurgeOne(pcb: Pcb, p: Packet, s: nat): Purge {
    var q := p.(answers := Without(p.answers, s), additional := Without(p.additional, s),
      servers := Without(p.servers, s));
    if !pcb.sock then Purge(pcb, q)
    else if IsProbing(pcb.state) then
      if s !in pcb.services then Purge(pcb, q)
      else
        var left := pcb.(services := Minus(pcb.services, s));
        Purge(if |pcb.services| == 1 && !pcb.ip then left.(running := false, state := RUNNING) else left,
              q.(questions := DropAsk(q.questions, s)))
    else if IsAnnouncing(pcb.state) && p.answers != [] && q.answers == [] then Purge(pcb.(state := RUNNING), q)
    else Purge(pcb, q)
  }

  function Kept(p: Packet): seq<Packet> {
    if Empty(p) then [] else [p]
  }

  datatype PurgedSlice = PurgedSlice(pcb: Pcb, mine: seq<Packet>)

  /** The same for all packets of the PCB, in their order; packets that end up empty are freed. */
  function PurgeMine(pcb: Pcb, mine: seq<Packet>, s: nat): PurgedSlice
    decreases |mine|
  {
    if mine == [] then PurgedSlice(pcb, [])
    else
      var one := PurgeOne(pcb, mine[0], s);
      var rest := PurgeMine(one.pcb, mine[1..], s);
      PurgedSlice(rest.pcb, Kept(one.packet) + rest.mine)
  }

  lemma {:induction false} SrvsWithout(svcs: seq<nat>, s: nat)
    requires NoDup(svcs)
    ensures Without(Srvs(svcs), s) == Srvs(Minus(svcs, s))
  {
    if svcs == [] {
    } else {
      NoDupTail(svcs);
      assert Srvs(svcs)[1..] == Srvs(svcs[1..]);
      SrvsWithout(svcs[1..], s);
      if svcs[0] == s {
        MinusLength(svcs[1..], s);
      } else {
        assert Srvs([svcs[0]] + Minus(svcs[1..], s)) == [Srvs(svcs)[0]] + Srvs(Minus(svcs[1..], s));
      }
    }
  }

  lemma AsksStep(s: nat, svcs: seq<nat>, ip: bool, first: bool)
    ensures AsksFor([s] + svcs, ip, first) == [Ask(Service(s), first)] + AsksFor(svcs, ip, first)
  {
    var all := [s] + svcs;
    var l := AsksFor(all, ip, first);
    var r := [Ask(Service(s), first)] + AsksFor(svcs, ip, first);
    forall k | 0 <= k < |l|
      ensures l[k] == r[k]
    {
      if 0 < k < |all| {
        assert all[k] == svcs[k - 1];
      }
    }
  }

  lemma {:induction false} AsksWithout(svcs: seq<nat>, ip: bool, first: bool, s: nat)
    requires s in svcs
    ensures DropAsk(AsksFor(svcs, ip, first), s) == AsksFor(Minus(svcs, s), ip, first)
  {
    assert svcs == [svcs[0]] + svcs[1..];
    AsksStep(svcs[0], svcs[1..], ip, first);
    var tail := AsksFor(svcs[1..], ip, first);
    assert AsksFor(svcs, ip, first)[1..] == tail;
    if svcs[0] == s {
    } else {
      AsksWithout(svcs[1..], ip, first, s);
      AsksStep(svcs[0], Minus(svcs[1..], s), ip, first);
    }
  }

  lemma ServersWithout(servers: seq<Ans>, svcs: seq<nat>, ip: bool, v4: bool, v6: bool, s: nat)
    requires NoDup(svcs) && ProbeServers(servers, svcs, ip, v4, v6)
    ensures ProbeServers(Without(servers, s), Minus(svcs, s), ip, v4, v6)
  {
    WithoutAppend(Srvs(svcs), HostAnswers(v4, v6, false), s);
    SrvsWithout(svcs, s);
    WithoutNothing(HostAnswers(v4, v6, false), s);
  }

  /** A probe loses the question and the record of the service, and the PCB with it. */
  lemma PurgeProbe(pcb: Pcb, p: Packet, s: nat)
    requires NoDup(pcb.services) && Probing(pcb.state) && pcb.sock && IsProbeOf(p, pcb)
    ensures var one := PurgeOne(pcb, p, s);
      && one.pcb.services == Minus(pcb.services, s) && one.pcb.ip == pcb.ip && one.packet.sendAt == p.sendAt
      && IsProbeOf(one.packet, pcb.(services := Minus(pcb.services, s)))
  {
    var v4, v6 :| ProbeServers(p.servers, pcb.services, pcb.ip, v4, v6);
    ServersWithout(p.servers, pcb.services, pcb.ip, v4, v6, s);
    MinusLength(pcb.services, s);
    if s in pcb.services {
      AsksWithout(pcb.services, pcb.ip, pcb.state == PROBE_1, s);
    }
    PurgedLists(pcb, p, s);
    assert ProbeServers(PurgeOne(pcb, p, s).packet.servers, Minus(pcb.services, s), pcb.ip, v4, v6);
  }

  lemma PurgedLists(pcb: Pcb, p: Packet, s: nat)
    requires Probing(pcb.state) && pcb.sock && p.answers == [] && p.additional == []
    ensures var one := PurgeOne(pcb, p, s);
      && one.pcb == (if s in pcb.services && |pcb.services| == 1 && !pcb.ip then
                       pcb.(services := Minus(pcb.services, s), running := false, state := RUNNING)
                     else pcb.(services := one.pcb.services))
      && one.pcb.services == (if s in pcb.services then Minus(pcb.services, s) else pcb.services)
      && one.packet == p.(servers := Without(p.servers, s), questions := one.packet.questions)
      && one.packet.questions == (if s in pcb.services then DropAsk(p.questions, s) else p.questions)
  {
    assert Without(p.answers, s) == [] && Without(p.additional, s) == [];
  }

  lemma NothingProbed(p: Packet, pcb: Pcb)
    requires IsProbeOf(p, pcb)
    ensures Empty(p) <==> pcb.services == [] && !pcb.ip
  {
    var v4, v6 :| ProbeServers(p.servers, pcb.services, pcb.ip, v4, v6);
    assert |p.questions| == |pcb.services| + (if pcb.ip then 1 else 0);
  }

  predicate LeftOver(services: seq<nat>, s: nat, rest: seq<nat>) {
    NoDup(services) && rest == Minus(services, s)
  }

  lemma PurgedBase(pcb: Pcb, s: nat, services: seq<nat>, rest: seq<nat>)
    requires PcbBase(pcb, services) && LeftOver(services, s, rest)
    ensures NoDup(Minus(pcb.services, s)) && AllIn(Minus(pcb.services, s), rest)
    ensures Minus(pcb.services, s) == [] <==> pcb.services == [] || (s in pcb.services && |pcb.services| == 1)
  {
    var m := Minus(pcb.services, s);
    MinusOk(pcb.services, s);
    MinusOk(services, s);
    MinusLength(pcb.services, s);
    forall k | 0 <= k < |m|
      ensures m[k] in rest
    {
      assert m[k] in m;
    }
  }

  lemma PurgeProbing(pcb: Pcb, mine: seq<Packet>, s: nat, services: seq<nat>, rest: seq<nat>, episode: seq<nat>)
    requires SliceOk(pcb, mine, services, episode) && Probing(pcb.state) && LeftOver(services, s, rest)
    ensures var r := PurgeMine(pcb, mine, s); SliceIn(rest)(r.pcb, r.mine, episode) && r.pcb.sock == pcb.sock
  {
    var one := PurgeOne(pcb, mine[0], s);
    PurgeProbe(pcb, mine[0], s);
    PurgedLists(pcb, mine[0], s);
    PurgedBase(pcb, s, services, rest);
    MinusLength(pcb.services, s);
    NothingProbed(one.packet, pcb.(services := Minus(pcb.services, s)));
    assert mine[1..] == [];
    assert PurgeMine(pcb, mine, s) == PurgedSlice(one.pcb, Kept(one.packet));
    ProbePurged(pcb, mine[0], one, services, rest, episode);
  }

  lemma ProbePurged(pcb: Pcb, p: Packet, one: Purge, services: seq<nat>, rest: seq<nat>, episode: seq<nat>)
    requires SliceOk(pcb, [p], services, episode) && Probing(pcb.state)
    requires NoDup(one.pcb.services) && AllIn(one.pcb.services, rest) && one.packet.sendAt == p.sendAt
    requires IsProbeOf(one.packet, pcb.(services := one.pcb.services))
    requires Empty(one.packet) <==> one.pcb.services == [] && !pcb.ip
    requires one.pcb == if Empty(one.packet) then pcb.(services := [], running := false, state := RUNNING)
                        else pcb.(services := one.pcb.services)
    ensures SliceIn(rest)(one.pcb, Kept(one.packet), episode)
  {
  }

  lemma PurgePlain(p: Packet, pcb: Pcb, s: nat, services: seq<nat>, rest: seq<nat>)
    requires Plain(p, services) && !IsProbing(pcb.state) && LeftOver(services, s, rest)
    ensures Plain(PurgeOne(pcb, p, s).packet, rest)
  {
    MinusOk(services, s);
    WithoutSound(p.answers, s, services, rest);
    WithoutSound(p.additional, s, [], []);
  }

  /** A PCB that is not probing: its packets stay sound, and as long as it announces it keeps an anchor. */
  lemma {:induction false} PurgePlains(pcb: Pcb, mine: seq<Packet>, s: nat, services: seq<nat>, rest: seq<nat>)
    requires pcb.sock && Rank(pcb.state) > Rank(PROBE_3) && AllPlain(mine, services) && LeftOver(services, s, rest)
    ensures var r := PurgeMine(pcb, mine, s);
      && (r.pcb == pcb || r.pcb == pcb.(state := RUNNING))
      && AllPlain(r.mine, rest)
      && (IsAnnouncing(r.pcb.state) && Anchored(mine) ==> Anchored(r.mine))
    decreases |mine|
  {
    if mine == [] {
    } else {
      var one := PurgeOne(pcb, mine[0], s);
      assert mine[0] in mine;
      PurgePlain(mine[0], pcb, s, services, rest);
      assert forall p :: p in mine[1..] ==> p in mine;
      PurgePlains(one.pcb, mine[1..], s, services, rest);
      var r := PurgeMine(pcb, mine, s);
      PurgeAnchor(pcb, mine, s);
    }
  }

  lemma PurgeAnchor(pcb: Pcb, mine: seq<Packet>, s: nat)
    requires pcb.sock && Rank(pcb.state) > Rank(PROBE_3) && mine != []
    requires var one := PurgeOne(pcb, mine[0], s);
      var tail := PurgeMine(one.pcb, mine[1..], s);
      && (tail.pcb == one.pcb || tail.pcb == one.pcb.(state := RUNNING))
      && (IsAnnouncing(tail.pcb.state) && Anchored(mine[1..]) ==> Anchored(tail.mine))
    ensures var r := PurgeMine(pcb, mine, s); IsAnnouncing(r.pcb.state) && Anchored(mine) ==> Anchored(r.mine)
  {
    var one := PurgeOne(pcb, mine[0], s);
    var tail := PurgeMine(one.pcb, mine[1..], s);
    var r := PurgeMine(pcb, mine, s);
    assert r.mine == Kept(one.packet) + tail.mine;
    if IsAnnouncing(r.pcb.state) && Anchored(mine) {
      var a :| a in mine && Anchor(a);
      if a == mine[0] {
        assert Anchor(one.packet) && one.packet in r.mine;
      } else {
        assert a in mine[1..];
        var b :| b in tail.mine && Anchor(b);
        assert b in r.mine;
      }
    }
  }

  /** Deleting a service keeps every PCB as it should be, now with respect to the services that are left. */
  lemma PurgeOk(pcb: Pcb, mine: seq<Packet>, s: nat, services: seq<nat>, rest: seq<nat>, episode: seq<nat>)
    requires SliceOk(pcb, mine, services, episode) && LeftOver(services, s, rest)
    ensures var r := PurgeMine(pcb, mine, s); SliceIn(rest)(r.pcb, r.mine, episode) && r.pcb.sock == pcb.sock
  {
    if Probing(pcb.state) {
      PurgeProbing(pcb, mine, s, services, rest, episode);
    } else if pcb.sock {
      PurgePlains(pcb, mine, s, services, rest);
    }
  }
}
