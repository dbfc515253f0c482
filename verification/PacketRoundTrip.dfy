/** What the parser makes of a packet that the serialiser built. */
module PacketRoundTrip {
  import opened Bytes
  import opened Names
  import opened RoundTrip
  import opened Encoder
  import opened Records
  import opened RecordWriter
  import opened PacketWriter
  import opened Dispatch
  import opened Tameness
  import opened Parser

  /** The parsed name is the given one, up to case, with each label in the buffer of its role. */
  predicate Named(n: ParsedName, strings: seq<seq<byte>>) {
    && !n.sub && !n.invalid
    && match |strings|
       case 2 => CiEq(n.host, strings[0]) && n.service == [] && n.proto == [] && CiEq(n.domain, strings[1])
       case 3 => n.host == [] && CiEq(n.service, strings[0]) && CiEq(n.proto, strings[1]) && CiEq(n.domain, strings[2])
       case 4 => CiEq(n.host, strings[0]) && CiEq(n.service, strings[1]) && CiEq(n.proto, strings[2])
                 && CiEq(n.domain, strings[3])
       case _ => false
  }

  lemma NameParses(p: seq<byte>, i: nat, strings: seq<seq<byte>>, j: nat)
    requires NameAt(p, i, strings, j) && Ours(strings)
    ensures ParseName(p, i).Parsed? && ParseName(p, i).next == j && Named(ParseName(p, i).name, strings)
  {
    NameReadsBack(p, i, strings, j);
    var n := Fold(Fresh(false), Flatten(p, i, i).items);
    var m := |strings|;
    assert CiEq(n.slots[m - 1], strings[m - 1]) && CiEq(n.slots[0], strings[0]) && CiEq(n.slots[1], strings[1]);
    assert m > 2 ==> CiEq(n.slots[2], strings[2]);
  }

  // ---------------------------------------------------------------------------------------------------------
  // Questions

  predicate QuestionSeen(e: QuestionEntry, q: Question) {
    Named(e.name, q.name) && e.qtype == q.qtype && e.clas == CLASS_IN && e.unicast == q.unicast
  }

  lemma QuestionParses(p: seq<byte>, place: Place, q: Question)
    requires QuestionAt(p, place, q) && Ours(q.name)
    ensures var s := QuestionStep(p, place.start); s.Entry? && s.next == place.end && QuestionSeen(s.e, q)
  {
    NameParses(p, place.start, q.name, place.head);
    ReadsU16(p, place.head, q.qtype);
    ReadsU16(p, place.head + 2, if q.unicast then 0x8001 else 1);
  }

  predicate AllQuestionsSeen(es: seq<QuestionEntry>, qs: seq<Question>) {
    |es| == |qs| && forall k :: 0 <= k < |qs| ==> QuestionSeen(es[k], qs[k])
  }

  lemma QuestionsCons(e: QuestionEntry, es: seq<QuestionEntry>, qs: seq<Question>)
    requires qs != [] && QuestionSeen(e, qs[0]) && AllQuestionsSeen(es, qs[1..])
    ensures AllQuestionsSeen([e] + es, qs)
  {
    forall k | 0 <= k < |qs|
      ensures QuestionSeen(([e] + es)[k], qs[k])
    {
      if k > 0 {
        assert qs[1..][k - 1] == qs[k] && ([e] + es)[k] == es[k - 1];
      }
    }
  }

  /** The questions have been read, all of them, up to `j`. */
  predicate QuestionsRead(w: Walk<QuestionEntry>, qs: seq<Question>, j: nat) {
    w.outcome == Complete && w.pos == j && AllQuestionsSeen(w.entries, qs)
  }

  /** The same as a function of the place, the questions and the end. */
  function QuestionsReadIn(p: seq<byte>): (nat, seq<Question>, nat) -> bool {
    (i: nat, qs: seq<Question>, j: nat) => QuestionsRead(QuestionsFrom(p, i, |qs|), qs, j)
  }

  /** One question in front of others that have been read. */
  lemma QuestionsNext(p: seq<byte>, i: nat, e: QuestionEntry, next: nat, qs: seq<Question>, j: nat)
    requires qs != [] && QuestionStep(p, i) == Entry(e, next) && QuestionSeen(e, qs[0])
    requires QuestionsReadIn(p)(next, qs[1..], j)
    ensures QuestionsReadIn(p)(i, qs, j)
  {
    var rest := QuestionsFrom(p, next, |qs| - 1);
    assert QuestionsFrom(p, i, |qs|) == After([e], rest);
    QuestionsCons(e, rest.entries, qs);
  }

  lemma AskedTail(qs: seq<Question>)
    requires AllAsked(qs) && qs != []
    ensures Ours(qs[0].name) && AllAsked(qs[1..])
  {
    assert forall k :: 0 <= k < |qs[1..]| ==> qs[1..][k] == qs[k + 1];
  }

  lemma QuestionFirst(p: seq<byte>, place: Place, qs: seq<Question>, j: nat)
    requires qs != [] && QuestionAt(p, place, qs[0]) && Ours(qs[0].name) && QuestionsReadIn(p)(place.end, qs[1..], j)
    ensures QuestionsReadIn(p)(place.start, qs, j)
  {
    QuestionParses(p, place, qs[0]);
    QuestionsNext(p, place.start, QuestionStep(p, place.start).e, place.end, qs, j);
  }

  /** The first question of a chain, and the rest. */
  lemma QuestionsHead(p: seq<byte>, i: nat, places: seq<Place>, qs: seq<Question>, j: nat)
    requires Chain(QuestionIn(p), i, places, qs, j) && qs != []
    ensures places != [] && places[0].start == i && QuestionAt(p, places[0], qs[0])
    ensures Chain(QuestionIn(p), places[0].end, places[1..], qs[1..], j)
  {
  }

  lemma {:induction false} QuestionsParse(p: seq<byte>, i: nat, places: seq<Place>, qs: seq<Question>, j: nat)
    requires Chain(QuestionIn(p), i, places, qs, j) && AllAsked(qs)
    ensures QuestionsReadIn(p)(i, qs, j)
    decreases |qs|
  {
    if qs == [] {
    } else {
      AskedTail(qs);
      QuestionsHead(p, i, places, qs, j);
      QuestionsParse(p, places[0].end, places[1..], qs[1..], j);
      QuestionFirst(p, places[0], qs, j);
    }
  }

  // ---------------------------------------------------------------------------------------------------------
  // Records

  /** The RDATA reads back: the names in it, the numbers in it, or the bytes as they are. */
  predicate DataSeen(p: seq<byte>, at: nat, len: nat, d: Rdata) {
    && at + len <= |p|
    && match d
       case Target(name) =>
         ParseName(p, at).Parsed? && ParseName(p, at).next == at + len && Named(ParseName(p, at).name, name)
       case Location(priority, weight, port, host) =>
         && len >= 6
         && ReadU16(p, at) == priority && ReadU16(p, at + 2) == weight && ReadU16(p, at + 4) == port
         && ParseName(p, at + 6).Parsed? && ParseName(p, at + 6).next == at + len
         && Named(ParseName(p, at + 6).name, host)
       case Raw(bytes) => p[at..at + len] == bytes
  }

  predicate RecordSeen(p: seq<byte>, e: RecordEntry, r: Record) {
    && Named(e.name, r.owner) && e.rtype == r.rtype && e.clas == Class15(r.clas) && e.ttl == r.ttl
    && DataSeen(p, e.dataAt, e.dataLen, r.data)
  }

  lemma DataParses(p: seq<byte>, i: nat, d: Rdata, j: nat)
    requires DataAt(p, i, d, j) && i <= j <= |p|
    requires (d.Target? ==> Ours(d.name)) && (d.Location? ==> Ours(d.host))
    ensures DataSeen(p, i, j - i, d)
  {
    match d
    case Target(name) => NameParses(p, i, name, j);
    case Location(priority, weight, port, host) =>
      NameParses(p, i + 6, host, j);
      ReadsU16(p, i, priority);
      ReadsU16(p, i + 2, weight);
      ReadsU16(p, i + 4, port);
    case Raw(_) =>
  }

  /** The fixed part of a record as the parser reads it. */
  lemma HeadParses(p: seq<byte>, place: Place, r: Record)
    requires HeadAt(p, place, r)
    ensures var h := place.head;
      && h + 10 <= |p| && ReadU16(p, h) == r.rtype && ReadU16(p, h + 2) == r.clas
      && ReadU32(p, h + 4) == r.ttl && ReadU16(p, h + 8) == place.end - h - 10
  {
    var h := place.head;
    ReadsU16(p, h, r.rtype);
    ReadsU16(p, h + 2, r.clas);
    ReadsU32(p, h + 4, r.ttl);
    ReadsU16(p, h + 8, place.end - h - 10);
  }

  lemma StepParses(p: seq<byte>, place: Place, r: Record, section: Section)
    requires HeadAt(p, place, r) && Ours(r.owner)
    ensures var s := RecordStep(p, place.start, section);
      && s.Entry? && s.next == place.end && s.e.section == section && Named(s.e.name, r.owner)
      && s.e.rtype == r.rtype && s.e.clas == Class15(r.clas) && s.e.ttl == r.ttl
      && s.e.dataAt == place.head + 10 && s.e.dataLen == place.end - place.head - 10
  {
    NameParses(p, place.start, r.owner, place.head);
    HeadParses(p, place, r);
  }

  lemma RecordParses(p: seq<byte>, place: Place, r: Record, section: Section)
    requires RecordIn(p)(place, r) && WellNamed(r)
    ensures var s := RecordStep(p, place.start, section);
      s.Entry? && s.next == place.end && s.e.section == section && RecordSeen(p, s.e, r)
  {
    StepParses(p, place, r, section);
    DataParses(p, place.head + 10, r.data, place.end);
  }

  predicate AllSeen(p: seq<byte>, es: seq<RecordEntry>, rs: seq<Record>) {
    |es| == |rs| && forall k :: 0 <= k < |rs| ==> RecordSeen(p, es[k], rs[k])
  }

  predicate InSections(es: seq<RecordEntry>, index: nat, answers: nat, servers: nat) {
    forall k :: 0 <= k < |es| ==> es[k].section == SectionOf(index + k, answers, servers)
  }

  lemma {:induction false} RecordsParse(p: seq<byte>, i: nat, places: seq<Place>, rs: seq<Record>, index: nat,
                                        answers: nat, servers: nat)
    requires Chain(RecordIn(p), i, places, rs, |p|) && AllNamed(rs)
    ensures var w := RecordsFrom(p, i, index, answers, servers);
      && w.outcome == Complete && w.pos == |p|
      && AllSeen(p, w.entries, rs) && InSections(w.entries, index, answers, servers)
    decreases |rs|
  {
    if rs == [] {
    } else {
      assert WellNamed(rs[0]);
      var section := SectionOf(index, answers, servers);
      RecordParses(p, places[0], rs[0], section);
      assert forall k :: 0 <= k < |rs[1..]| ==> rs[1..][k] == rs[k + 1];
      RecordsParse(p, places[0].end, places[1..], rs[1..], index + 1, answers, servers);
      RecordsCons(p, RecordStep(p, i, section).e,
                  RecordsFrom(p, places[0].end, index + 1, answers, servers).entries, rs, index, answers, servers);
    }
  }

  lemma RecordsCons(p: seq<byte>, e: RecordEntry, es: seq<RecordEntry>, rs: seq<Record>, index: nat, answers: nat,
                    servers: nat)
    requires rs != [] && RecordSeen(p, e, rs[0]) && e.section == SectionOf(index, answers, servers)
    requires AllSeen(p, es, rs[1..]) && InSections(es, index + 1, answers, servers)
    ensures AllSeen(p, [e] + es, rs) && InSections([e] + es, index, answers, servers)
  {
    forall k | 0 <= k < |rs|
      ensures RecordSeen(p, ([e] + es)[k], rs[k])
      ensures ([e] + es)[k].section == SectionOf(index + k, answers, servers)
    {
      if k > 0 {
        assert rs[1..][k - 1] == rs[k] && ([e] + es)[k] == es[k - 1];
        assert es[k - 1].section == SectionOf(index + 1 + (k - 1), answers, servers);
      }
    }
  }

  // ---------------------------------------------------------------------------------------------------------
  // The packet

  function AllRecords(m: Message): seq<Record> {
    m.answers + m.servers + m.additional
  }

  lemma NamedJoin(a: seq<Record>, b: seq<Record>)
    requires AllNamed(a) && AllNamed(b)
    ensures AllNamed(a + b)
  {
  }

  lemma AllRecordsChain(p: seq<int>, m: Message, l: Layout)
    requires PacketHolds(p, m, l) && Nameable(m)
    ensures Chain(RecordIn(p), l.answersAt, l.answers + l.servers + l.additional, AllRecords(m), |p|)
    ensures AllNamed(AllRecords(m))
  {
    ChainJoin(RecordIn(p), l.answersAt, l.answers, m.answers, l.serversAt, l.servers, m.servers, l.additionalAt);
    ChainJoin(RecordIn(p), l.answersAt, l.answers + l.servers, m.answers + m.servers, l.additionalAt,
              l.additional, m.additional, |p|);
    NamedJoin(m.answers, m.servers);
    NamedJoin(m.answers + m.servers, m.additional);
  }

  /** The receiver does not drop the packet, and one of the questions, if there are any, is for it. */
  predicate Interested(p: seq<byte>, srcPort: nat, server: Server, services: seq<Service>) {
    && |p| >= HEAD_LEN && !Ignored(p, srcPort, server)
    && var received := Understand(p, srcPort, server, services).received;
    ReadU16(p, 4) != 0 ==> received.questions != [] || received.discovery
  }

  /** The parse is the message: every question and every record once, in order, in its section, up to the last byte. */
  predicate Understood(p: seq<byte>, m: Message, r: Reading) {
    && r.Reading?
    && r.questions.outcome == Complete && AllQuestionsSeen(r.questions.entries, m.questions)
    && r.records.outcome == Complete && r.records.pos == |p|
    && AllSeen(p, r.records.entries, AllRecords(m))
    && InSections(r.records.entries, 0, |m.answers|, |m.servers|)
  }

  lemma CountsRead(p: seq<byte>, m: Message, l: Layout)
    requires PacketHolds(p, m, l) && Nameable(m) && |p| <= MAX_PACKET_SIZE
    ensures ReadU16(p, 4) == LowByte(ReadU16(p, 4)) == |m.questions| && ReadU16(p, 6) == |m.answers|
    ensures ReadU16(p, 8) == |m.servers| && ReadU16(p, 10) == |m.additional|
  {
    ReadsU16(p, 4, |m.questions|);
    ReadsU16(p, 6, |m.answers|);
    ReadsU16(p, 8, |m.servers|);
    ReadsU16(p, 10, |m.additional|);
    SmallByte(|m.questions|);
    QuestionsLong(p, HEAD_LEN, l.questions, m.questions, l.answersAt);
    RecordsLong(p, l.answersAt, l.answers, m.answers, l.serversAt);
    RecordsLong(p, l.serversAt, l.servers, m.servers, l.additionalAt);
    RecordsLong(p, l.additionalAt, l.additional, m.additional, |p|);
  }

  /** Nothing keeps the parser from reaching the records. */
  lemma UnderstandAll(p: seq<byte>, srcPort: nat, server: Server, services: seq<Service>)
    requires Interested(p, srcPort, server, services)
    requires QuestionsFrom(p, HEAD_LEN, LowByte(ReadU16(p, 4))).outcome == Complete
    requires ReadU16(p, 6) == 0 && ReadU16(p, 8) == 0 && ReadU16(p, 10) == 0 ==>
      QuestionsFrom(p, HEAD_LEN, LowByte(ReadU16(p, 4))).pos == |p|
    ensures var r := Understand(p, srcPort, server, services);
      && r.Reading? && r.questions == QuestionsFrom(p, HEAD_LEN, LowByte(ReadU16(p, 4)))
      && r.records == RecordsFrom(p, r.questions.pos, 0, ReadU16(p, 6), ReadU16(p, 8))
  {
  }

  /** The whole-packet round trip. */
  lemma PacketReadsBack(p: seq<byte>, m: Message, l: Layout, srcPort: nat, server: Server, services: seq<Service>)
    requires PacketHolds(p, m, l) && Nameable(m) && |p| <= MAX_PACKET_SIZE
    requires Interested(p, srcPort, server, services)
    ensures Understood(p, m, Understand(p, srcPort, server, services))
  {
    CountsRead(p, m, l);
    QuestionsParse(p, HEAD_LEN, l.questions, m.questions, l.answersAt);
    AllRecordsChain(p, m, l);
    RecordsParse(p, l.answersAt, l.answers + l.servers + l.additional, AllRecords(m), 0, |m.answers|, |m.servers|);
    assert AllRecords(m) == [] ==> l.answersAt == |p|;
    UnderstandAll(p, srcPort, server, services);
  }

  /**
   * The serialiser followed by the parser of another host. A tame packet that fits is sent as a whole and understood,
   * whatever the buffer held before; in a blank buffer more is tame and more fits.
   */
  method SendAndReceive(stale: seq<byte>, o: OutPacket, server: Server, addresses: Addresses, srcPort: nat,
                        receiver: Server, services: seq<Service>)
    returns (packet: seq<byte>, r: Reading, ghost complete: bool, ghost safe: bool)
    requires |stale| == MAX_PACKET_SIZE && addresses.Valid()
    ensures r == Understand(packet, srcPort, receiver, services)
    ensures complete && safe && Nameable(MessageOf(o, server, addresses))
            && Interested(packet, srcPort, receiver, services) ==>
      Understood(packet, MessageOf(o, server, addresses), r)
    ensures complete && IsZero(stale) && TamePacket(true, o, server, addresses) ==> safe
    ensures FittingPacket(IsZero(stale), o, server, addresses) ==> complete && safe
    ensures FittingPacket(IsZero(stale), o, server, addresses) && Nameable(MessageOf(o, server, addresses)) ==>
      && PacketHas(packet)(MessageOf(o, server, addresses))
      && (Interested(packet, srcPort, receiver, services) ==> Understood(packet, MessageOf(o, server, addresses), r))
  {
    ghost var layout;
    packet, complete, safe, layout := DispatchTxPacket(stale, o, server, addresses);
    TameBoth(IsZero(stale), o, server, addresses);
    r := ParsePacket(packet, srcPort, receiver, services);
    if complete && safe && Nameable(MessageOf(o, server, addresses)) {
      HoldsHas(packet, MessageOf(o, server, addresses), layout);
      if Interested(packet, srcPort, receiver, services) {
        PacketReadsBack(packet, MessageOf(o, server, addresses), layout, srcPort, receiver, services);
      }
    }
  }

  lemma TameBoth(blank: bool, o: OutPacket, server: Server, addresses: Addresses)
    ensures TamePacket(true, o, server, addresses) ==> TameMessage(true, MessageOf(o, server, addresses))
    ensures FittingPacket(blank, o, server, addresses) ==> Fits(blank, MessageOf(o, server, addresses))
  {
    if TamePacket(true, o, server, addresses) {
      PacketTame(true, o, server, addresses);
    }
    if TamePacket(blank, o, server, addresses) {
      PacketTame(blank, o, server, addresses);
    }
  }

  /** The packet is the message, wherever in it the entries stand. */
  ghost function PacketHas(p: seq<int>): Message -> bool {
    (m: Message) => exists l :: PacketHolds(p, m, l)
  }

  lemma HoldsHas(p: seq<int>, m: Message, l: Layout)
    requires PacketHolds(p, m, l)
    ensures PacketHas(p)(m)
  {
  }
}
