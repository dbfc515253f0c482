/** The receive side: the parser's walk over the questions and the records of a packet. */
module Parser {
  import opened Bytes
  import opened Names
  import opened Records
  import opened RecordWriter

  const ARPA: seq<int> := [97, 114, 112, 97]
  const TYPE_SDPTR: nat := 0x32
  const TYPE_ANY: nat := 0xFF
  const FLAGS_AUTHORITATIVE: nat := 0x8400
  const SERVICE_PORT: nat := 5353

  // ---------------------------------------------------------------------------------------------------------
  // Names

  datatype ParsedName = ParsedName(host: seq<int>, service: seq<int>, proto: seq<int>, domain: seq<int>,
                                   sub: bool, invalid: bool)

  datatype Parsed = Parsed(name: ParsedName, next: nat) | NoName | Outside

  /** The parts in the buffers of their roles: host.domain, service.proto.domain or host.service.proto.domain. */
  function Arrange(n: Name): ParsedName
    requires n.Valid()
  {
    if n.parts == 0 || n.invalid then ParsedName(n.slots[0], n.slots[1], n.slots[2], n.slots[3], n.sub, n.invalid)
    else if n.parts == 3 then ParsedName([], n.slots[0], n.slots[1], n.slots[2], n.sub, n.invalid)
    else if n.parts == 2 then ParsedName(n.slots[0], [], [], n.slots[1], n.sub, n.invalid)
    else ParsedName(n.slots[0], n.slots[1], n.slots[2], n.slots[3], n.sub, n.invalid)
  }

  /** A name without parts or with too many passes; any other one must be in the domain `local` or `arpa`. */
  predicate Passes(n: Name)
    requires n.Valid()
  {
    n.parts == 0 || n.invalid || CiEq(Arrange(n).domain, LOCAL) || CiEq(Arrange(n).domain, ARPA)
  }

  function ParseName(p: seq<int>, i: nat): (r: Parsed)
    ensures r.Parsed? ==> i < r.next <= |p|
  {
    FlattenShort(p, i, i);
    match Flatten(p, i, i)
    case Overrun => Outside
    case Bad => NoName
    case Flat(items, next) =>
      var n := Fold(Fresh(false), items);
      if Passes(n) then Parsed(Arrange(n), next) else NoName
  }

  method ParseFqdn(packet: seq<byte>, start: nat) returns (r: Parsed)
    ensures r == ParseName(packet, start)
  {
    var name := new NameBuffer(false);
    var read := ReadFqdn(packet, start, name);
    match read
    case OutOfBounds => return Outside;
    case Null => return NoName;
    case Next(next) =>
      if name.parts != 0 && !name.invalid {
        var s := name.slots;
        if name.parts == 3 {
          name.slots := [[], s[0], s[1], s[2]];
        } else if name.parts == 2 {
          name.slots := [s[0], [], [], s[1]];
        }
        if !CiEq(name.slots[3], LOCAL) && !CiEq(name.slots[3], ARPA) {
          return NoName;
        }
      }
      var t := name.slots;
      return Parsed(ParsedName(t[0], t[1], t[2], t[3], name.sub, name.invalid), next);
  }

  // ---------------------------------------------------------------------------------------------------------
  // The walk

  function ReadU16(p: seq<byte>, i: nat): (x: nat)
    requires i + 1 < |p|
    ensures x < 0x10000
  {
    256 * (p[i] as int) + p[i + 1]
  }

  function ReadU32(p: seq<byte>, i: nat): nat
    requires i + 3 < |p|
  {
    ReadU16(p, i) * 65536 + ReadU16(p, i + 2)
  }

  /** The class without its top bit, which means cache flush in a record and unicast response in a question. */
  function Class15(clas: nat): nat {
    clas % 0x8000
  }

  lemma ReadsU16(p: seq<byte>, i: nat, x: int)
    requires U16At(p, i, x)
    ensures ReadU16(p, i) == x
  {
  }

  lemma ReadsU32(p: seq<byte>, i: nat, x: int)
    requires U32At(p, i, x)
    ensures ReadU32(p, i) == x
  {
    ReadsU16(p, i, x / 65536);
    ReadsU16(p, i + 2, x % 65536);
  }

  datatype Outcome = Complete | Rejected | OffEnd

  datatype Walk<T> = Walk(entries: seq<T>, pos: nat, outcome: Outcome)

  function After<T>(entries: seq<T>, w: Walk<T>): Walk<T> {
    Walk(entries + w.entries, w.pos, w.outcome)
  }

  lemma AfterStep<T>(entries: seq<T>, e: T, w: Walk<T>)
    ensures After(entries, After([e], w)) == After(entries + [e], w)
  {
    assert entries + ([e] + w.entries) == entries + [e] + w.entries;
  }

  /** One entry of a walk, or why there is none. */
  datatype Step<T> = Entry(e: T, next: nat) | Stop(outcome: Outcome)

  function Refused<T>(r: Parsed): Step<T> {
    Stop(if r.Outside? then OffEnd else Rejected)
  }

  datatype QuestionEntry = QuestionEntry(name: ParsedName, qtype: nat, clas: nat, unicast: bool)

  function QuestionStep(p: seq<byte>, i: nat): Step<QuestionEntry> {
    var r := ParseName(p, i);
    if !r.Parsed? then Refused(r)
    else if r.next + 4 > |p| then Stop(OffEnd)
    else
      var clas := ReadU16(p, r.next + 2);
      Entry(QuestionEntry(r.name, ReadU16(p, r.next), Class15(clas), clas >= 0x8000), r.next + 4)
  }

  function QuestionsFrom(p: seq<byte>, i: nat, count: nat): Walk<QuestionEntry>
    decreases count
  {
    if count == 0 then Walk([], i, Complete)
    else match QuestionStep(p, i)
      case Stop(outcome) => Walk([], i, outcome)
      case Entry(e, next) => After([e], QuestionsFrom(p, next, count - 1))
  }

  datatype Section = ANSWER | NS | EXTRA

  function SectionOf(index: nat, answers: nat, servers: nat): Section {
    if index >= answers + servers then EXTRA else if index >= answers then NS else ANSWER
  }

  datatype RecordEntry = RecordEntry(section: Section, name: ParsedName, rtype: nat, clas: nat, ttl: nat,
                                     dataAt: nat, dataLen: nat)

  function RecordStep(p: seq<byte>, i: nat, section: Section): (s: Step<RecordEntry>)
    ensures s.Entry? ==> i < s.next <= |p| && s.next == s.e.dataAt + s.e.dataLen
  {
    var r := ParseName(p, i);
    if !r.Parsed? then Refused(r)
    else if r.next + 10 > |p| then Stop(OffEnd)
    else
      var h := r.next;
      var e := RecordEntry(section, r.name, ReadU16(p, h), Class15(ReadU16(p, h + 2)), ReadU32(p, h + 4),
                           h + 10, ReadU16(p, h + 8));
      if e.dataAt + e.dataLen > |p| then Stop(Rejected) else Entry(e, e.dataAt + e.dataLen)
  }

  function RecordsFrom(p: seq<byte>, i: nat, index: nat, answers: nat, servers: nat): Walk<RecordEntry>
    decreases |p| - i
  {
    if i >= |p| then Walk([], i, Complete)
    else match RecordStep(p, i, SectionOf(index, answers, servers))
      case Stop(outcome) => Walk([], i, outcome)
      case Entry(e, next) => After([e], RecordsFrom(p, next, index + 1, answers, servers))
  }

  method ReadQuestion(p: seq<byte>, content: nat) returns (s: Step<QuestionEntry>)
    ensures s == QuestionStep(p, content)
  {
    var r := ParseFqdn(p, content);
    if !r.Parsed? {
      return Refused(r);
    }
    if r.next + 4 > |p| {
      return Stop(OffEnd);
    }
    var qtype, clas := ReadU16(p, r.next), ReadU16(p, r.next + 2);
    var unicast := clas >= 0x8000;
    clas := Class15(clas);
    return Entry(QuestionEntry(r.name, qtype, clas, unicast), r.next + 4);
  }

  method ReadRecord(p: seq<byte>, content: nat, section: Section) returns (s: Step<RecordEntry>)
    ensures s == RecordStep(p, content, section)
  {
    var r := ParseFqdn(p, content);
    if !r.Parsed? {
      return Refused(r);
    }
    var h := r.next;
    if h + 10 > |p| {
      return Stop(OffEnd);
    }
    var rtype, clas, ttl, dataLen := ReadU16(p, h), ReadU16(p, h + 2), ReadU32(p, h + 4), ReadU16(p, h + 8);
    clas := Class15(clas);
    if h + 10 + dataLen > |p| {
      return Stop(Rejected);
    }
    return Entry(RecordEntry(section, r.name, rtype, clas, ttl, h + 10, dataLen), h + 10 + dataLen);
  }

  /** The record loop. */
  method WalkRecords(p: seq<byte>, start: nat, answers: nat, servers: nat) returns (w: Walk<RecordEntry>)
    ensures w == RecordsFrom(p, start, 0, answers, servers)
  {
    var content: nat, recordIndex: nat := start, 0;
    var entries: seq<RecordEntry> := [];
    while content < |p|
      invariant After(entries, RecordsFrom(p, content, recordIndex, answers, servers))
             == RecordsFrom(p, start, 0, answers, servers)
      decreases |p| - content
    {
      var section := ANSWER;
      if recordIndex >= answers + servers {
        section := EXTRA;
      } else if recordIndex >= answers {
        section := NS;
      }
      var s := ReadRecord(p, content, section);
      if s.Stop? {
        return Walk(entries, content, s.outcome);
      }
      AfterStep(entries, s.e, RecordsFrom(p, s.next, recordIndex + 1, answers, servers));
      entries, content, recordIndex := entries + [s.e], s.next, recordIndex + 1;
    }
    w := Walk(entries, content, Complete);
  }

  // ---------------------------------------------------------------------------------------------------------
  // Which questions are answered

  /** A string that a question may lack. */
  datatype Text = None | Str(s: seq<int>)

  function TextOf(s: seq<int>): Text {
    if s == [] then None else Str(s)
  }

  datatype ParsedQuestion = ParsedQuestion(host: Text, service: Text, proto: Text, qtype: nat, unicast: bool)

  /** What the receiver remembers of the questions; the list is built from the front. */
  datatype Received = Received(questions: seq<ParsedQuestion>, discovery: bool, probe: bool)

  predicate IsNamed(s: Service, service: seq<int>, proto: seq<int>) {
    CiEq(s.service, service) && CiEq(s.proto, proto)
  }

  /** No service before that place has the type. */
  predicate FirstNamed(services: seq<Service>, k: nat, service: seq<int>, proto: seq<int>) {
    k < |services| && IsNamed(services[k], service, proto) && forall j :: 0 <= j < k ==>
      !IsNamed(services[j], service, proto)
  }

  /** The first registered service of that type, up to case. */
  function FindService(services: seq<Service>, service: seq<int>, proto: seq<int>): (r: MaybeService)
    ensures r.NoService? <==> forall k :: 0 <= k < |services| ==> !IsNamed(services[k], service, proto)
    ensures r.Some? ==> r.it in services && IsNamed(r.it, service, proto)
    ensures r.Some? ==>
      exists k :: 0 <= k < |services| && services[k] == r.it && FirstNamed(services, k, service, proto)
  {
    if services == [] then NoService
    else if IsNamed(services[0], service, proto) then
      assert FirstNamed(services, 0, service, proto);
      Some(services[0])
    else
      var r := FindService(services[1..], service, proto);
      assert forall k :: 1 <= k < |services| ==> services[k] == services[1..][k - 1];
      assert forall k :: 0 <= k < |services| - 1 && FirstNamed(services[1..], k, service, proto) ==>
        FirstNamed(services, k + 1, service, proto);
      r
  }

  predicate IsDiscovery(n: ParsedName, qtype: nat) {
    CiEq(n.host, SERVICES) && CiEq(n.service, DNS_SD) && CiEq(n.proto, UDP) && CiEq(n.domain, LOCAL_DOMAIN)
    && qtype == TYPE_PTR
  }

  predicate IsOurs(n: ParsedName, server: Server, services: seq<Service>) {
    if !CiEq(n.domain, LOCAL_DOMAIN) then false
    else if n.service == [] && n.proto == [] then n.host != [] && CiEq(n.host, server.hostname)
    else if n.service == [] || n.proto == [] then false
    else
      var s := FindService(services, n.service, n.proto);
      if s.NoService? then false
      else if n.host == [] then true
      else CiEq(n.host, InstanceName(s.it, server))
  }

  function Discovered(services: seq<Service>, unicast: bool): seq<ParsedQuestion> {
    if services == [] then []
    else
      Discovered(services[1..], unicast)
      + [ParsedQuestion(None, Str(services[0].service), Str(services[0].proto), TYPE_SDPTR, unicast)]
  }

  function Register(r: Received, e: QuestionEntry, server: Server, services: seq<Service>): Received {
    if e.clas != 1 || e.name.invalid then r
    else if IsDiscovery(e.name, e.qtype) then
      Received(Discovered(services, e.unicast) + r.questions, true, r.probe)
    else if e.name.sub || !IsOurs(e.name, server, services) then r
    else
      var q := ParsedQuestion(TextOf(e.name.host), TextOf(e.name.service), TextOf(e.name.proto), e.qtype, e.unicast);
      Received([q] + r.questions, r.discovery, r.probe || (e.qtype == TYPE_ANY && e.name.host != []))
  }

  function RegisterAll(r: Received, es: seq<QuestionEntry>, server: Server, services: seq<Service>): Received
    decreases |es|
  {
    if es == [] then r else RegisterAll(Register(r, es[0], server, services), es[1..], server, services)
  }

  lemma {:induction false} RegisterSnoc(r: Received, es: seq<QuestionEntry>, e: QuestionEntry, server: Server,
                                        services: seq<Service>)
    ensures RegisterAll(r, es + [e], server, services)
        == Register(RegisterAll(r, es, server, services), e, server, services)
    decreases |es|
  {
    if es == [] {
      assert [e][1..] == [];
    } else {
      assert (es + [e])[1..] == es[1..] + [e];
      RegisterSnoc(Register(r, es[0], server, services), es[1..], e, server, services);
    }
  }

  /** The expansion of a discovery question, one registered service after the other, each put in front. */
  method Expand(questions: seq<ParsedQuestion>, services: seq<Service>, unicast: bool) returns (r: seq<ParsedQuestion>)
    ensures r == Discovered(services, unicast) + questions
  {
    r := questions;
    for i := 0 to |services|
      invariant Discovered(services[i..], unicast) + r == Discovered(services, unicast) + questions
    {
      ghost var before := r;
      r := [ParsedQuestion(None, Str(services[i].service), Str(services[i].proto), TYPE_SDPTR, unicast)] + r;
      assert services[i..][1..] == services[i + 1..];
      assert Discovered(services[i + 1..], unicast) + r == Discovered(services[i..], unicast) + before;
    }
    assert services[|services|..] == [];
  }

  /** The question loop; the number of questions is kept in a single byte. */
  method WalkQuestions(p: seq<byte>, start: nat, header: nat, server: Server, services: seq<Service>)
    returns (w: Walk<QuestionEntry>, received: Received)
    ensures w == QuestionsFrom(p, start, LowByte(header))
    ensures received == RegisterAll(Received([], false, false), w.entries, server, services)
  {
    var content: nat, qs: nat := start, LowByte(header);
    var entries: seq<QuestionEntry> := [];
    received := Received([], false, false);
    while qs > 0
      invariant After(entries, QuestionsFrom(p, content, qs)) == QuestionsFrom(p, start, LowByte(header))
      invariant received == RegisterAll(Received([], false, false), entries, server, services)
      decreases qs
    {
      qs := qs - 1;
      var s := ReadQuestion(p, content);
      if s.Stop? {
        return Walk(entries, content, s.outcome), received;
      }
      received := RegisterOne(received, s.e, server, services);
      AfterStep(entries, s.e, QuestionsFrom(p, s.next, qs));
      RegisterSnoc(Received([], false, false), entries, s.e, server, services);
      entries, content := entries + [s.e], s.next;
    }
    w := Walk(entries, content, Complete);
  }

  method RegisterOne(r: Received, e: QuestionEntry, server: Server, services: seq<Service>) returns (s: Received)
    ensures s == Register(r, e, server, services)
  {
    s := r;
    if e.clas != 1 || e.name.invalid {
      return;
    }
    if IsDiscovery(e.name, e.qtype) {
      var questions := Expand(r.questions, services, e.unicast);
      return s.(discovery := true, questions := questions);
    } else if e.name.sub || !IsOurs(e.name, server, services) {
      return;
    }
    if e.qtype == TYPE_ANY && e.name.host != [] {
      s := s.(probe := true);
    }
    s := s.(questions := [ParsedQuestion(TextOf(e.name.host), TextOf(e.name.service), TextOf(e.name.proto),
                                         e.qtype, e.unicast)] + s.questions);
  }

  // ---------------------------------------------------------------------------------------------------------
  // The packet

  datatype Reading =
    | Dropped
    | Reading(questions: Walk<QuestionEntry>, received: Received, records: Walk<RecordEntry>)

  /** Why a packet is not looked at: a response from a foreign port, or a question to a server without a name. */
  predicate Ignored(p: seq<byte>, srcPort: nat, server: Server)
    requires |p| >= HEAD_LEN
  {
    || (ReadU16(p, 2) == FLAGS_AUTHORITATIVE && srcPort != SERVICE_PORT)
    || (ReadU16(p, 4) != 0 && server.hostname == [])
  }

  function Understand(p: seq<byte>, srcPort: nat, server: Server, services: seq<Service>): Reading {
    if |p| < HEAD_LEN then Dropped
    else if Ignored(p, srcPort, server) then Dropped
    else
      var qs := QuestionsFrom(p, HEAD_LEN, LowByte(ReadU16(p, 4)));
      var received := RegisterAll(Received([], false, false), qs.entries, server, services);
      var none := Walk([], qs.pos, Complete);
      if !qs.outcome.Complete? then Reading(qs, received, none)
      else if ReadU16(p, 4) != 0 && received.questions == [] && !received.discovery then Reading(qs, received, none)
      else if ReadU16(p, 6) != 0 || ReadU16(p, 8) != 0 || ReadU16(p, 10) != 0 then
        Reading(qs, received, RecordsFrom(p, qs.pos, 0, ReadU16(p, 6), ReadU16(p, 8)))
      else Reading(qs, received, none)
  }

  /** The parser's walk over a packet. */
  method ParsePacket(p: seq<byte>, srcPort: nat, server: Server, services: seq<Service>) returns (r: Reading)
    ensures r == Understand(p, srcPort, server, services)
  {
    if |p| < HEAD_LEN {
      return Dropped;
    }
    var flags, questions := ReadU16(p, 2), ReadU16(p, 4);
    var answers, servers, additional := ReadU16(p, 6), ReadU16(p, 8), ReadU16(p, 10);
    if flags == FLAGS_AUTHORITATIVE && srcPort != SERVICE_PORT {
      return Dropped;
    }
    if questions != 0 && server.hostname == [] {
      return Dropped;
    }
    var qs, received := WalkQuestions(p, HEAD_LEN, questions, server, services);
    r := Reading(qs, received, Walk([], qs.pos, Complete));
    if !qs.outcome.Complete? {
      return;
    }
    if questions != 0 && received.questions == [] && !received.discovery {
      return;
    } else if answers != 0 || servers != 0 || additional != 0 {
      var records := WalkRecords(p, qs.pos, answers, servers);
      r := r.(records := records);
    }
  }
}
