/** What the receiver does with an SRV or TXT record that it takes for one of its own: collision or not. */
module Collisions {
  import opened Bytes
  import opened RoundTrip
  import opened Records
  import opened RecordWriter
  import opened Parser
  import opened PacketRoundTrip

  /** What is known of a packet when its records are handled; `questions` are those that are registered. */
  datatype Context = Context(questions: bool, probe: bool, authoritative: bool, distributed: bool, running: bool)

  /** What happens: a question or an answer is taken back, or the service gives way and probes anew. */
  datatype Handling = TakesBack | GivesWay(service: MaybeService) | Other

  /** The service that a record is about. */
  function ServiceOf(n: ParsedName, services: seq<Service>): MaybeService {
    if n.service != [] && n.proto != [] then FindService(services, n.service, n.proto) else NoService
  }

  /** The comparison with what is announced is made only for records of class IN about a service. */
  function Collision(clas: nat, found: MaybeService, compared: int): int {
    if clas > 1 then 1 else if clas == 0 then -1 else if found.Some? then compared else 0
  }

  function OnSrv(c: Context, clas: nat, port: nat, found: MaybeService, compared: int): Handling {
    var col := Collision(clas, found, compared);
    if (c.questions && !c.probe) || c.distributed then TakesBack
    else if col != 0 && (c.probe || c.authoritative) then
      if col > 0 || port == 0 then GivesWay(found) else Other
    else Other
  }

  function OnTxt(c: Context, clas: nat, found: MaybeService, compared: int): Handling {
    if c.questions && !c.probe then TakesBack
    else if Collision(clas, found, compared) != 0 && !c.running then GivesWay(found)
    else Other
  }

  /** A service that is not there gives way: the code follows a null pointer. */
  predicate FollowsNull(h: Handling) {
    h.GivesWay? && h.service.NoService?
  }

  /** A record of the host's own is about no service exactly when its owner is the host. */
  lemma HostHasNoService(n: ParsedName, server: Server, services: seq<Service>)
    requires IsOurs(n, server, services)
    ensures ServiceOf(n, services).NoService? <==> n.service == [] && n.proto == [] && CiEq(n.host, server.hostname)
  {
  }

  /**
   * An SRV record of the host's own makes the code follow a null pointer if and only if it is owned by the bare host
   * name, its class is neither IN nor, with a port, zero, and it comes in a probe or a response and takes nothing back.
   */
  lemma SrvNull(c: Context, e: RecordEntry, port: nat, compared: int, server: Server, services: seq<Service>)
    requires IsOurs(e.name, server, services)
    ensures FollowsNull(OnSrv(c, e.clas, port, ServiceOf(e.name, services), compared)) <==>
      && e.name.service == [] && e.name.proto == [] && (e.clas > 1 || (e.clas == 0 && port == 0))
      && (c.probe || c.authoritative) && !c.distributed && (c.questions ==> c.probe)
  {
    HostHasNoService(e.name, server, services);
  }

  lemma TxtNull(c: Context, e: RecordEntry, compared: int, server: Server, services: seq<Service>)
    requires IsOurs(e.name, server, services)
    ensures FollowsNull(OnTxt(c, e.clas, ServiceOf(e.name, services), compared)) <==>
      e.name.service == [] && e.name.proto == [] && e.clas != 1 && !c.running && (c.questions ==> c.probe)
  {
    HostHasNoService(e.name, server, services);
  }

  // ---------------------------------------------------------------------------------------------------------
  // A received packet

  /** A response with one record: SRV, class 2, owned by `hh.local`, port 80, target its own owner. */
  const PACKET: seq<byte> := HEADER + OWNER + REST
  const HEADER: seq<byte> := [0, 0, 0x84, 0, 0, 0, 0, 1, 0, 0, 0, 0]
  const OWNER: seq<byte> := [2, 104, 104, 5, 108, 111, 99, 97, 108, 0]
  const REST: seq<byte> := [0, 33, 0, 2, 0, 0, 0, 120, 0, 8, 0, 0, 0, 0, 0, 80, 0xC0, 12]

  const HOST: seq<byte> := [104, 104]

  lemma PacketBytes()
    ensures |PACKET| == 40 && PACKET[..12] == HEADER && PACKET[12..22] == OWNER && PACKET[22..] == REST
  {
  }

  lemma OwnerReads()
    ensures NameAt(PACKET, 12, [HOST, LOCAL_DOMAIN], 22) && Ours([HOST, LOCAL_DOMAIN])
  {
    PacketBytes();
    assert forall k :: 0 <= k < 10 ==> PACKET[12..22][k] == PACKET[12 + k];
    assert PACKET[13..15] == HOST && PACKET[16..21] == LOCAL_DOMAIN;
    assert [HOST, LOCAL_DOMAIN][1..] == [LOCAL_DOMAIN] && [LOCAL_DOMAIN][1..] == [];
    assert PACKET[12] == 2 && PACKET[15] == 5 && PACKET[21] == 0;
    assert End(PACKET, 21) == 22;
    assert End(PACKET, 15) == 22;
  }

  lemma FieldsRead()
    ensures ReadU16(PACKET, 22) == 33 && ReadU16(PACKET, 24) == 2 && ReadU16(PACKET, 30) == 8
    ensures ReadU16(PACKET, 2) == FLAGS_AUTHORITATIVE && ReadU16(PACKET, 4) == 0 && ReadU16(PACKET, 6) == 1
    ensures ReadU16(PACKET, 8) == 0
  {
    PacketBytes();
    assert forall k :: 0 <= k < 18 ==> PACKET[22..][k] == PACKET[22 + k];
    assert forall k :: 0 <= k < 12 ==> PACKET[..12][k] == PACKET[k];
  }

  /** The host `hh` receives it as a record of its own, and gives way for a service that is not there. */
  lemma NullReceived(services: seq<Service>, running: bool, compared: int)
    ensures var server := Server(HOST, []);
      var r := Understand(PACKET, SERVICE_PORT, server, services);
      && r.Reading? && |r.records.entries| == 1
      && var e := r.records.entries[0];
        && e.rtype == TYPE_SRV && IsOurs(e.name, server, services)
        && FollowsNull(OnSrv(Context(false, false, true, false, running), e.clas, 80, ServiceOf(e.name, services),
          compared))
  {
    var server := Server(HOST, []);
    OwnerReads();
    FieldsRead();
    NameParses(PACKET, 12, [HOST, LOCAL_DOMAIN], 22);
    assert RecordStep(PACKET, 12, ANSWER).Entry? && RecordStep(PACKET, 12, ANSWER).next == 40;
    var e := RecordStep(PACKET, 12, ANSWER).e;
    assert RecordsFrom(PACKET, 40, 1, 1, 0).entries == [];
    assert RecordsFrom(PACKET, 12, 0, 1, 0).entries == [e] + [];
    assert QuestionsFrom(PACKET, 12, 0) == Walk([], 12, Complete);
    SrvNull(Context(false, false, true, false, running), e, 80, compared, server, services);
  }
}
