/** The packet serialiser: header, questions and the three record sections (section 4.1 of RFC 1035). */
module PacketWriter {
  import opened Bytes
  import opened RoundTrip
  import opened Tidy
  import opened Encoder
  import opened Records
  import opened TidyRecords
  import opened RecordWriter

  /** A question to send; an empty part stands for an absent one. */
  datatype OutQuestion = OutQuestion(host: seq<byte>, service: seq<byte>, proto: seq<byte>, domain: seq<byte>,
                                     qtype: u16, unicast: bool)

  function Part(s: seq<byte>): seq<seq<byte>> {
    if s == [] then [] else [s]
  }

  function QuestionOf(q: OutQuestion): Question {
    Question(Part(q.host) + Part(q.service) + Part(q.proto) + Part(q.domain), q.qtype, q.unicast)
  }

  function QuestionsOf(qs: seq<OutQuestion>): seq<Question> {
    seq(|qs|, k requires 0 <= k < |qs| => QuestionOf(qs[k]))
  }

  datatype OutPacket = OutPacket(flags: u16, questions: seq<OutQuestion>, answers: seq<Answer>, servers: seq<Answer>,
                                 additional: seq<Answer>)

  predicate AllNamed(rs: seq<Record>) {
    forall k :: 0 <= k < |rs| ==> WellNamed(rs[k])
  }

  predicate AllTame(blank: bool, rs: seq<Record>) {
    forall k :: 0 <= k < |rs| ==> TameRecord(blank, rs[k])
  }

  predicate AllTameQuestions(blank: bool, qs: seq<Question>) {
    forall k :: 0 <= k < |qs| ==> TameQuestion(blank, qs[k])
  }

  function RecordsSize(rs: seq<Record>): nat {
    if rs == [] then 0 else RecordSize(rs[0]) + RecordsSize(rs[1..])
  }

  lemma {:induction false} RecordsSizeJoin(rs: seq<Record>, ss: seq<Record>)
    ensures RecordsSize(rs + ss) == RecordsSize(rs) + RecordsSize(ss)
    decreases |rs|
  {
    if rs == [] {
      assert rs + ss == ss;
    } else {
      assert (rs + ss)[1..] == rs[1..] + ss;
      RecordsSizeJoin(rs[1..], ss);
    }
  }

  function QuestionsSize(qs: seq<Question>): nat {
    if qs == [] then 0 else QuestionSize(qs[0]) + QuestionsSize(qs[1..])
  }

  predicate AllAsked(qs: seq<Question>) {
    forall k :: 0 <= k < |qs| ==> Ours(qs[k].name)
  }

  // ---------------------------------------------------------------------------------------------------------
  // Answers

  /** The addresses of an interface: a failure on the second one is not reported. */
  method AppendAddresses(w: Writer, rtype: u16, addresses: seq<seq<byte>>, server: Server, flush: bool, bye: bool)
    returns (count: nat, ghost places: seq<Place>)
    requires w.Valid() && |addresses| <= 2 && forall k :: 0 <= k < |addresses| ==> |addresses[k]| < 256
    modifies w, w.packet
    ensures w.Valid() && w.Appended()
    ensures var rs := AddressRecords(rtype, addresses, server, flush, bye);
      w.complete && w.safe && AllNamed(rs) ==>
        count == |rs| && Chain(RecordIn(w.view), old(w.index), places, rs, w.index)
    ensures var rs := AddressRecords(rtype, addresses, server, flush, bye);
      w.Keeps(AllTame(w.blank, rs), RecordsSize(rs))
  {
    ghost var rs := AddressRecords(rtype, addresses, server, flush, bye);
    FirstOf(w.blank, rs);
    count, places := 0, [];
    if |addresses| != 0 {
      var n; ghost var p;
      n, p := AppendAddressRecord(w, rtype, addresses[0], server, flush, bye);
      if n != 0 {
        count, places := 1, [p];
        AloneChain(RecordIn(w.view), p, rs);
        if |addresses| == 2 {
          count, places := AppendSecond(w, rtype, addresses[1], server, flush, bye, p, rs);
        }
      }
    }
  }

  lemma AloneChain(at: (Place, Record) -> bool, p: Place, rs: seq<Record>)
    ensures |rs| == 1 && at(p, rs[0]) ==> Chain(at, p.start, [p], rs, p.end)
  {
    if |rs| == 1 && at(p, rs[0]) {
      ChainOne(at, p, rs[0]);
      assert rs == [rs[0]];
    }
  }

  /** The second address, behind the first one at `p`. */
  method AppendSecond(w: Writer, rtype: u16, address: seq<byte>, server: Server, flush: bool, bye: bool, ghost p: Place,
                      ghost rs: seq<Record>)
    returns (count: nat, ghost places: seq<Place>)
    requires w.Valid() && |address| < 256
    requires |rs| == 2 && rs[1] == AddressRecord(rtype, address, server, flush, bye)
    modifies w, w.packet
    ensures w.Valid() && w.Appended()
    ensures w.complete && w.safe && AllNamed(rs) && RecordIn(old(w.view))(p, rs[0]) && p.end == old(w.index) ==>
      count == 2 && Chain(RecordIn(w.view), p.start, places, rs, w.index)
    ensures w.Keeps(AllTame(w.blank, rs), RecordSize(rs[1]))
  {
    FirstOf(w.blank, rs);
    ghost var mid, q := w.view, p;
    var n;
    n, q := AppendAddressRecord(w, rtype, address, server, flush, bye);
    BothChain(mid, w.view, p, q, rs);
    places := [p] + [q];
    count := if n > 0 then 2 else 1;
  }

  lemma BothChain(a: seq<int>, v: seq<int>, p: Place, q: Place, rs: seq<Record>)
    requires a <= v && |rs| == 2
    ensures RecordIn(a)(p, rs[0]) && RecordIn(v)(q, rs[1]) && p.end == q.start ==>
      Chain(RecordIn(v), p.start, [p] + [q], rs, q.end)
  {
    if RecordIn(a)(p, rs[0]) && RecordIn(v)(q, rs[1]) && p.end == q.start {
      ChainOne(RecordIn(a), p, rs[0]);
      TwoRecords(a, v, p.start, [p], rs[0], q, rs[1]);
      assert rs == [rs[0]] + [rs[1]];
    }
  }

  lemma FirstOf(blank: bool, rs: seq<Record>)
    ensures rs != [] && AllNamed(rs) ==> WellNamed(rs[0])
    ensures rs != [] && AllTame(blank, rs) ==> TameRecord(blank, rs[0])
    ensures |rs| > 1 && AllNamed(rs) ==> WellNamed(rs[1])
    ensures |rs| > 1 && AllTame(blank, rs) ==> TameRecord(blank, rs[1])
    ensures |rs| == 1 ==> RecordsSize(rs) == RecordSize(rs[0])
    ensures |rs| == 2 ==> RecordsSize(rs) == RecordSize(rs[0]) + RecordSize(rs[1])
  {
  }

  lemma TwoRecords(a: seq<int>, v: seq<int>, i: nat, ps: seq<Place>, r: Record, p: Place, s: Record)
    requires a <= v && Chain(RecordIn(a), i, ps, [r], p.start) && RecordIn(v)(p, s)
    ensures Chain(RecordIn(v), i, ps + [p], [r] + [s], p.end)
  {
    RecordsStable(a, v, i, ps, [r], p.start);
    ChainOne(RecordIn(v), p, s);
    ChainJoin(RecordIn(v), i, ps, [r], p.start, [p], [s], p.end);
  }

  /** One answer; the result is the number of records that were added. */
  method AppendAnswer(w: Writer, a: Answer, server: Server, addresses: Addresses)
    returns (count: nat, ghost places: seq<Place>)
    requires w.Valid() && addresses.Valid()
    modifies w, w.packet
    ensures w.Valid() && w.Appended()
    ensures var rs := Expected(a, server, addresses);
      w.complete && w.safe && AllNamed(rs) ==>
        count == |rs| && Chain(RecordIn(w.view), old(w.index), places, rs, w.index)
    ensures var rs := Expected(a, server, addresses);
      w.Keeps(AllTame(w.blank, rs), RecordsSize(rs))
  {
    ExpectedCases(a, server, addresses);
    if a.kind.A? {
      count, places := AppendAddresses(w, TYPE_A, addresses.v4, server, a.flush, a.bye);
    } else if a.kind.AAAA? {
      count, places := AppendAddresses(w, TYPE_AAAA, addresses.v6, server, a.flush, a.bye);
    } else {
      count, places := AppendServiceAnswer(w, a, server);
    }
  }

  lemma ExpectedCases(a: Answer, server: Server, addresses: Addresses)
    ensures Expected(a, server, addresses) ==
      if a.kind.A? then AddressRecords(TYPE_A, addresses.v4, server, a.flush, a.bye)
      else if a.kind.AAAA? then AddressRecords(TYPE_AAAA, addresses.v6, server, a.flush, a.bye)
      else ServiceRecords(a, server)
  {
  }

  method AppendServiceAnswer(w: Writer, a: Answer, server: Server) returns (count: nat, ghost places: seq<Place>)
    requires w.Valid() && !a.kind.A? && !a.kind.AAAA?
    modifies w, w.packet
    ensures w.Valid() && w.Appended()
    ensures var rs := ServiceRecords(a, server);
      w.complete && w.safe && AllNamed(rs) ==>
        count == |rs| && Chain(RecordIn(w.view), old(w.index), places, rs, w.index)
    ensures var rs := ServiceRecords(a, server);
      w.Keeps(AllTame(w.blank, rs), RecordsSize(rs))
  {
    ghost var rs := ServiceRecords(a, server);
    FirstOf(w.blank, rs);
    var n; ghost var p;
    n, p := AppendServiceRecord(w, a, server);
    count := if n > 0 then 1 else 0;
    places := if rs == [] then [] else [p];
    OneOf(RecordIn(w.view), p, rs);
  }

  /** The records of an answer about a service are one or none. */
  lemma OneOf(at: (Place, Record) -> bool, p: Place, rs: seq<Record>)
    requires |rs| <= 1
    ensures rs == [] ==> Chain(at, p.start, [], rs, p.start)
    ensures rs != [] && at(p, rs[0]) ==> Chain(at, p.start, [p], rs, p.end)
  {
    if rs != [] && at(p, rs[0]) {
      ChainOne(at, p, rs[0]);
      assert rs == [rs[0]];
    }
  }

  function ServiceRecords(a: Answer, server: Server): seq<Record> {
    if a.kind.A? || a.kind.AAAA? then [] else Expected(a, server, Addresses([], []))
  }

  /** The records other than addresses; some are left out because what they are about is missing. */
  method AppendServiceRecord(w: Writer, a: Answer, server: Server) returns (n: nat, ghost p: Place)
    requires w.Valid() && !a.kind.A? && !a.kind.AAAA?
    modifies w, w.packet
    ensures w.Valid() && w.Appended()
    ensures var rs := ServiceRecords(a, server);
      && (rs == [] ==> n == 0 && w.Unchanged() && p.start == w.index)
      && (rs != [] && w.complete && w.safe && WellNamed(rs[0]) ==>
            n > 0 && RecordIn(w.view)(p, rs[0]) && p.start == old(w.index) && p.end == w.index)
    ensures var rs := ServiceRecords(a, server);
      rs != [] ==> w.Keeps(TameRecord(w.blank, rs[0]), RecordSize(rs[0]))
  {
    n, p := 0, Place(w.index, w.index, w.index);
    match a.kind
    case PTR => n, p := AppendPtrAnswer(w, a, server);
    case SRV => n, p := AppendNamedAnswer(w, a, server);
    case TXT => n, p := AppendNamedAnswer(w, a, server);
    case SDPTR => n, p := AppendSdPtrAnswer(w, a, server);
    case A =>
    case AAAA =>
    case OTHER =>
  }

  /** An SRV or TXT record of a service, under its instance name. */
  method AppendNamedAnswer(w: Writer, a: Answer, server: Server) returns (n: nat, ghost p: Place)
    requires w.Valid() && (a.kind.SRV? || a.kind.TXT?)
    modifies w, w.packet
    ensures w.Valid() && w.Appended()
    ensures var rs := ServiceRecords(a, server);
      && (rs == [] ==> n == 0 && w.Unchanged() && p.start == w.index)
      && (rs != [] && w.complete && w.safe && WellNamed(rs[0]) ==>
            n > 0 && RecordIn(w.view)(p, rs[0]) && p.start == old(w.index) && p.end == w.index)
    ensures var rs := ServiceRecords(a, server);
      rs != [] ==> w.Keeps(TameRecord(w.blank, rs[0]), RecordSize(rs[0]))
  {
    n, p := 0, Place(w.index, w.index, w.index);
    if a.service.Some? && a.kind.SRV? {
      n, p := AppendSrvRecord(w, a.service.it, server, a.flush, a.bye);
    } else if a.service.Some? {
      n, p := AppendTxtRecord(w, a.service.it, server, a.flush, a.bye);
    }
  }

  method AppendSdPtrAnswer(w: Writer, a: Answer, server: Server) returns (n: nat, ghost p: Place)
    requires w.Valid() && a.kind.SDPTR?
    modifies w, w.packet
    ensures w.Valid() && w.Appended()
    ensures var rs := ServiceRecords(a, server);
      && (rs == [] ==> n == 0 && w.Unchanged() && p.start == w.index)
      && (rs != [] && w.complete && w.safe && WellNamed(rs[0]) ==>
            n > 0 && RecordIn(w.view)(p, rs[0]) && p.start == old(w.index) && p.end == w.index)
    ensures var rs := ServiceRecords(a, server);
      rs != [] ==> w.Keeps(TameRecord(w.blank, rs[0]), RecordSize(rs[0]))
  {
    n, p := 0, Place(w.index, w.index, w.index);
    if a.service.Some? {
      n, p := AppendSdPtrRecord(w, a.service.it, a.flush);
    }
  }

  /** A PTR record of a service, or of the names that the answer brings along. */
  method AppendPtrAnswer(w: Writer, a: Answer, server: Server) returns (n: nat, ghost p: Place)
    requires w.Valid() && a.kind.PTR?
    modifies w, w.packet
    ensures w.Valid() && w.Appended()
    ensures var rs := ServiceRecords(a, server);
      && (rs == [] ==> n == 0 && w.Unchanged() && p.start == w.index)
      && (rs != [] && w.complete && w.safe && WellNamed(rs[0]) ==>
            n > 0 && RecordIn(w.view)(p, rs[0]) && p.start == old(w.index) && p.end == w.index)
    ensures var rs := ServiceRecords(a, server);
      rs != [] ==> w.Keeps(TameRecord(w.blank, rs[0]), RecordSize(rs[0]))
  {
    n, p := 0, Place(w.index, w.index, w.index);
    if a.service.Some? {
      var s := a.service.it;
      n, p := AppendPtrRecord(w, InstanceName(s, server), s.service, s.proto, a.bye);
    } else if a.custom.Custom? {
      n, p := AppendPtrRecord(w, a.custom.instance, a.custom.service, a.custom.proto, a.bye);
    }
  }

  method AppendPtrRecord(w: Writer, instance: seq<byte>, service: seq<byte>, proto: seq<byte>, bye: bool)
    returns (n: nat, ghost p: Place)
    requires w.Valid()
    modifies w, w.packet
    ensures w.Valid() && w.Appended() && (n == 0 ==> !w.complete)
    ensures w.complete && w.safe && WellNamed(PtrRecord(instance, service, proto, bye)) ==>
      RecordIn(w.view)(p, PtrRecord(instance, service, proto, bye)) && p.start == old(w.index) && p.end == w.index
    ensures var r := PtrRecord(instance, service, proto, bye);
      w.Keeps(TameRecord(w.blank, r), RecordSize(r))
  {
    n, p := AppendPointerRecord(w, ServiceName(service, proto), false, if bye then 0 else PTR_TTL,
                                InstanceFqdn(instance, service, proto), true);
  }

  method AppendSdPtrRecord(w: Writer, s: Service, flush: bool) returns (n: nat, ghost p: Place)
    requires w.Valid()
    modifies w, w.packet
    ensures w.Valid() && w.Appended() && (n == 0 ==> !w.complete)
    ensures w.complete && w.safe && WellNamed(SdPtrRecord(s, flush)) ==>
      RecordIn(w.view)(p, SdPtrRecord(s, flush)) && p.start == old(w.index) && p.end == w.index
    ensures w.Keeps(TameRecord(w.blank, SdPtrRecord(s, flush)), RecordSize(SdPtrRecord(s, flush)))
  {
    n, p := AppendPointerRecord(w, [SERVICES, DNS_SD, UDP, LOCAL_DOMAIN], flush, PTR_TTL,
                                ServiceName(s.service, s.proto), false);
  }

  // ---------------------------------------------------------------------------------------------------------
  // Sections

  /** A list of answers. */
  method AppendAnswers(w: Writer, answers: seq<Answer>, server: Server, addresses: Addresses)
    returns (count: nat, ghost places: seq<Place>)
    requires w.Valid() && addresses.Valid()
    modifies w, w.packet
    ensures w.Valid() && w.Appended()
    ensures var rs := ExpectedAll(answers, server, addresses);
      w.complete && w.safe && AllNamed(rs) ==>
        count == |rs| && Chain(RecordIn(w.view), old(w.index), places, rs, w.index)
    ensures var rs := ExpectedAll(answers, server, addresses);
      w.Keeps(AllTame(w.blank, rs), RecordsSize(rs))
  {
    count, places := 0, [];
    ghost var start, before := w.index, w.view;
    ghost var rs: seq<Record> := [];
    for i := 0 to |answers|
      invariant w.Valid() && before <= w.view
      invariant (w.complete ==> old(w.complete)) && (w.safe ==> old(w.safe)) && w.blank == old(w.blank)
      invariant rs + ExpectedAll(answers[i..], server, addresses) == ExpectedAll(answers, server, addresses)
      invariant w.complete && w.safe && AllNamed(rs) ==>
        count == |rs| && Chain(RecordIn(w.view), start, places, rs, w.index)
      invariant w.complete && old(w.tidy) && AllTame(w.blank, rs) && w.Near() ==> w.tidy
      invariant old(w.complete) && old(w.tidy) && AllTame(w.blank, rs) && start + RecordsSize(rs) < w.Limit() ==>
        w.complete && w.index <= start + RecordsSize(rs)
    {
      ghost var more; var n;
      ghost var v, m := w.view, w.index;
      n, more := AppendAnswer(w, answers[i], server, addresses);
      ghost var added := Expected(answers[i], server, addresses);
      if w.complete && w.safe && AllNamed(rs + added) {
        NamedParts(rs, added);
        ExtendChain(v, w.view, start, places, rs, m, more, added, w.index);
      }
      count, places := count + n, places + more;
      ExpectedStep(rs, answers, i, server, addresses);
      JoinTame(w.blank, rs, added);
      RecordsSizeJoin(rs, added);
      rs := rs + added;
    }
    assert rs == ExpectedAll(answers, server, addresses);
  }

  lemma ExpectedStep(rs: seq<Record>, answers: seq<Answer>, i: nat, server: Server, addresses: Addresses)
    requires i < |answers|
    ensures rs + Expected(answers[i], server, addresses) + ExpectedAll(answers[i + 1..], server, addresses)
         == rs + ExpectedAll(answers[i..], server, addresses)
  {
    assert answers[i..][1..] == answers[i + 1..];
  }

  lemma JoinTame(blank: bool, rs: seq<Record>, ss: seq<Record>)
    ensures AllTame(blank, rs + ss) ==> AllTame(blank, rs) && AllTame(blank, ss)
  {
    assert forall k :: 0 <= k < |rs| ==> rs[k] == (rs + ss)[k];
    assert forall k :: 0 <= k < |ss| ==> ss[k] == (rs + ss)[|rs| + k];
  }

  lemma NamedParts(rs: seq<Record>, ss: seq<Record>)
    requires AllNamed(rs + ss)
    ensures AllNamed(rs) && AllNamed(ss)
  {
    assert forall k :: 0 <= k < |rs| ==> rs[k] == (rs + ss)[k];
    assert forall k :: 0 <= k < |ss| ==> ss[k] == (rs + ss)[|rs| + k];
  }

  lemma ExtendChain(a: seq<int>, v: seq<int>, i: nat, ps: seq<Place>, rs: seq<Record>, m: nat,
                    qs: seq<Place>, ss: seq<Record>, j: nat)
    requires a <= v && Chain(RecordIn(a), i, ps, rs, m) && Chain(RecordIn(v), m, qs, ss, j)
    ensures Chain(RecordIn(v), i, ps + qs, rs + ss, j)
  {
    RecordsStable(a, v, i, ps, rs, m);
    ChainJoin(RecordIn(v), i, ps, rs, m, qs, ss, j);
  }

  /** Type and class of a question, with the bit that asks for a unicast response. */
  function QuestionFields(qtype: nat, unicast: bool): (f: seq<int>)
    ensures |f| == 4
  {
    U16(qtype) + U16(if unicast then 0x8001 else 0x0001)
  }

  lemma FieldsTidy(blank: bool, v: seq<int>, qtype: u16, unicast: bool)
    ensures qtype < 256 && TidyIn(v)(blank) && |v| >= FRONT ==> TidyIn(v + QuestionFields(qtype, unicast))(blank)
  {
    if qtype < 256 && TidyIn(v)(blank) && |v| >= FRONT {
      TidyQuestionFields(v, qtype, unicast);
    }
  }

  method AppendQuestionFields(w: Writer, qtype: u16, unicast: bool) returns (n: nat)
    requires w.Valid()
    modifies w, w.packet
    ensures w.Valid() && w.Appended() && w.safe == old(w.safe) && n <= 4
    ensures w.complete ==> w.view == old(w.view) + QuestionFields(qtype, unicast)
    ensures old(w.complete) && old(w.index) + 4 <= MAX_PACKET_SIZE ==> w.complete
    ensures w.Keeps(qtype < 256, 4)
  {
    ghost var before, was := w.view, w.tidy;
    FieldsTidy(w.blank, before, qtype, unicast);
    var a := w.AppendU16(qtype);
    var b := w.AppendU16(if unicast then 0x8001 else 0x0001);
    if w.complete {
      assert w.view == before + QuestionFields(qtype, unicast);
    }
    w.tidy := was && w.Tidied();
    n := a + b;
  }

  /** One question; its length is kept in a single byte. */
  method AppendQuestion(w: Writer, name: seq<seq<byte>>, qtype: u16, unicast: bool) returns (n: nat, ghost p: Place)
    requires w.Valid()
    modifies w, w.packet
    ensures w.Valid() && w.Appended()
    ensures w.complete && w.safe && Ours(name) ==>
      n > 0 && QuestionIn(w.view)(p, Question(name, qtype, unicast)) && p.start == old(w.index) && p.end == w.index
    ensures var q := Question(name, qtype, unicast);
      w.Keeps(TameQuestion(w.blank, q), QuestionSize(q))
  {
    ghost var start := w.index;
    p := Place(start, start, start);
    OursBrief(name);
    TameBrief(w.blank, name);
    var length := w.AppendName(name);
    ghost var named := w.view;
    if LowByte(length) == 0 {
      w.complete := false;
      n := 0;
    } else {
      var m := AppendQuestionFields(w, qtype, unicast);
      p := Place(start, |named|, w.index);
      n := LowByte(LowByte(length) + m);
      ByteSum(length, m);
      QuestionFacts(named, w.view, p, Question(name, qtype, unicast));
    }
    SmallByte(length);
  }

  lemma ByteSum(a: nat, b: nat)
    requires b <= 4
    ensures a < 200 ==> LowByte(LowByte(a) + b) == a + b
  {
  }

  lemma QuestionFacts(named: seq<int>, v: seq<int>, p: Place, q: Question)
    requires p.head == |named| && p.end == |v| && q.qtype < 0x10000
    ensures NameIn(named)(p.start, q.name, p.head) && v == named + QuestionFields(q.qtype, q.unicast) ==>
      QuestionIn(v)(p, q)
  {
    if NameIn(named)(p.start, q.name, p.head) && v == named + QuestionFields(q.qtype, q.unicast) {
      QuestionDone(named, v, p, q);
    }
  }

  lemma QuestionDone(named: seq<int>, v: seq<int>, p: Place, q: Question)
    requires NameIn(named)(p.start, q.name, p.head) && p.head == |named| && q.qtype < 0x10000
    requires v == named + QuestionFields(q.qtype, q.unicast) && p.end == |v|
    ensures QuestionIn(v)(p, q)
  {
    WrittenStable(named, v, p.start, p.start, q.name, |q.name|, p.head);
  }

  method AppendQuestions(w: Writer, questions: seq<OutQuestion>) returns (count: nat, ghost places: seq<Place>)
    requires w.Valid()
    modifies w, w.packet
    ensures w.Valid() && w.Appended()
    ensures w.complete && w.safe && AllAsked(QuestionsOf(questions)) ==>
      count == |questions| && Chain(QuestionIn(w.view), old(w.index), places, QuestionsOf(questions), w.index)
    ensures var qs := QuestionsOf(questions);
      w.Keeps(AllTameQuestions(w.blank, qs), QuestionsSize(qs))
  {
    count, places := 0, [];
    ghost var start, before := w.index, w.view;
    ghost var qs := QuestionsOf(questions);
    assert qs[0..] == qs;
    for i := 0 to |questions|
      invariant w.Valid() && before <= w.view
      invariant (w.complete ==> old(w.complete)) && (w.safe ==> old(w.safe)) && w.blank == old(w.blank)
      invariant w.complete && w.safe && AllAsked(qs) ==>
        count == i && Chain(QuestionIn(w.view), start, places, qs[..i], w.index)
      invariant w.complete && old(w.tidy) && AllTameQuestions(w.blank, qs) && w.Near() ==> w.tidy
      invariant old(w.complete) && old(w.tidy) && AllTameQuestions(w.blank, qs)
                && start + QuestionsSize(qs) < w.Limit() ==>
        w.complete && w.index + QuestionsSize(qs[i..]) <= start + QuestionsSize(qs)
    {
      QuestionsSizeNext(qs, i);
      ghost var p; var n;
      ghost var v, m := w.view, w.index;
      n, p := AppendQuestion(w, QuestionOf(questions[i]).name, questions[i].qtype, questions[i].unicast);
      if w.complete && w.safe && AllAsked(qs) {
        assert Ours(qs[i].name);
        ExtendQuestions(v, w.view, start, places, qs, i, p);
      }
      places := places + [p];
      if n > 0 {
        count := count + 1;
      }
    }
    assert qs[..|questions|] == qs;
  }

  lemma QuestionsSizeNext(qs: seq<Question>, i: nat)
    requires i < |qs|
    ensures QuestionsSize(qs[i..]) == QuestionSize(qs[i]) + QuestionsSize(qs[i + 1..])
  {
    assert qs[i..][1..] == qs[i + 1..];
  }

  lemma ExtendQuestions(a: seq<int>, v: seq<int>, start: nat, ps: seq<Place>, qs: seq<Question>, i: nat, p: Place)
    requires i < |qs| && a <= v && Chain(QuestionIn(a), start, ps, qs[..i], p.start) && QuestionIn(v)(p, qs[i])
    ensures Chain(QuestionIn(v), start, ps + [p], qs[..i + 1], p.end)
  {
    QuestionsStable(a, v, start, ps, qs[..i], p.start);
    ChainOne(QuestionIn(v), p, qs[i]);
    ChainJoin(QuestionIn(v), start, ps, qs[..i], p.start, [p], [qs[i]], p.end);
    assert qs[..i] + [qs[i]] == qs[..i + 1];
  }
}
