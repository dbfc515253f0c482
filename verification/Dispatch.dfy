/** The dispatch of a packet: header, questions, three record sections, and the counts patched in afterwards. */
module Dispatch {
  import opened Bytes
  import opened RoundTrip
  import opened Tidy
  import opened Encoder
  import opened Records
  import opened TidyRecords
  import opened RecordWriter
  import opened PacketWriter

  const FLAGS_OFFSET: nat := 2
  const QUESTIONS_OFFSET: nat := 4
  const ANSWERS_OFFSET: nat := 6
  const SERVERS_OFFSET: nat := 8
  const ADDITIONAL_OFFSET: nat := 10

  /** What a packet says. */
  datatype Message = Message(flags: nat, questions: seq<Question>, answers: seq<Record>, servers: seq<Record>,
                             additional: seq<Record>)

  /** Where its entries stand, and where its sections begin. */
  datatype Layout = Layout(questions: seq<Place>, answersAt: nat, answers: seq<Place>, serversAt: nat,
                           servers: seq<Place>, additionalAt: nat, additional: seq<Place>)

  /** The records stand from `i` to `j`, and their number at `at`. */
  function SectionIn(p: seq<int>): (nat, nat, seq<Place>, seq<Record>, nat) -> bool {
    (at: nat, i: nat, places, rs, j: nat) => U16At(p, at, |rs|) && Chain(RecordIn(p), i, places, rs, j)
  }

  function QuestionsIn(p: seq<int>): (nat, nat, seq<Place>, seq<Question>, nat) -> bool {
    (at: nat, i: nat, places, qs, j: nat) => U16At(p, at, |qs|) && Chain(QuestionIn(p), i, places, qs, j)
  }

  /** The packet is the message, laid out without a gap from the header to its last byte. */
  predicate PacketHolds(p: seq<int>, m: Message, l: Layout) {
    && U16At(p, 0, 0) && U16At(p, FLAGS_OFFSET, m.flags)
    && QuestionsIn(p)(QUESTIONS_OFFSET, HEAD_LEN, l.questions, m.questions, l.answersAt)
    && SectionIn(p)(ANSWERS_OFFSET, l.answersAt, l.answers, m.answers, l.serversAt)
    && SectionIn(p)(SERVERS_OFFSET, l.serversAt, l.servers, m.servers, l.additionalAt)
    && SectionIn(p)(ADDITIONAL_OFFSET, l.additionalAt, l.additional, m.additional, |p|)
  }

  function MessageOf(o: OutPacket, server: Server, addresses: Addresses): Message {
    Message(o.flags, QuestionsOf(o.questions), ExpectedAll(o.answers, server, addresses),
            ExpectedAll(o.servers, server, addresses), ExpectedAll(o.additional, server, addresses))
  }

  predicate Nameable(m: Message) {
    AllAsked(m.questions) && AllNamed(m.answers) && AllNamed(m.servers) && AllNamed(m.additional)
  }

  /**
   * A message that keeps every pointer safe: names of up to four different labels, each of 2 to 31 printable characters
   * without an equals sign and none of them `_sub`; SRV records of priority and weight zero; TXT and address data in
   * which nothing looks like a label. Unless the buffer is blank: labels of 2 to 11 characters, and no port or address
   * that ends like the length of such a label.
   */
  predicate TameMessage(blank: bool, m: Message) {
    && AllTameQuestions(blank, m.questions)
    && AllTame(blank, m.answers) && AllTame(blank, m.servers) && AllTame(blank, m.additional)
  }

  /** The size of the message without compression. */
  function MessageSize(m: Message): nat {
    HEAD_LEN + QuestionsSize(m.questions) + RecordsSize(m.answers) + RecordsSize(m.servers) + RecordsSize(m.additional)
  }

  /** There is room for the message: in a blank buffer all of it, otherwise less than 256 bytes. */
  predicate Fits(blank: bool, m: Message) {
    TameMessage(blank, m) && MessageSize(m) < LimitOf(blank)
  }

  // ---------------------------------------------------------------------------------------------------------
  // Room: the counts of what fits into a packet fit into a byte

  lemma {:induction false} EndBeyond(v: seq<int>, base: nat, i: nat, strings: seq<seq<int>>, full: bool)
    requires Reads(v, base, i, strings, full)
    ensures End(v, i) >= i + 1 && (strings != [] ==> End(v, i) >= i + 2)
    decreases |v| - i
  {
    if 0 < v[i] < 64 {
      EndBeyond(v, base, i + 1 + v[i], strings[1..], full);
    }
  }

  lemma {:induction false} QuestionsLong(v: seq<int>, i: nat, ps: seq<Place>, qs: seq<Question>, j: nat)
    requires Chain(QuestionIn(v), i, ps, qs, j) && AllAsked(qs)
    ensures j >= i + 6 * |qs|
    decreases |qs|
  {
    if qs == [] {
    } else {
      assert Ours(qs[0].name) && QuestionAt(v, ps[0], qs[0]);
      EndBeyond(v, i, i, qs[0].name, |qs[0].name| == 4);
      QuestionsLong(v, ps[0].end, ps[1..], qs[1..], j);
    }
  }

  lemma {:induction false} RecordsLong(v: seq<int>, i: nat, ps: seq<Place>, rs: seq<Record>, j: nat)
    requires Chain(RecordIn(v), i, ps, rs, j)
    ensures j >= i + 11 * |rs|
    decreases |rs|
  {
    if rs == [] {
    } else {
      assert RecordAt(v, ps[0], rs[0]);
      EndBeyond(v, i, i, rs[0].owner, |rs[0].owner| == 4);
      RecordsLong(v, ps[0].end, ps[1..], rs[1..], j);
    }
  }

  // ---------------------------------------------------------------------------------------------------------
  // Sections

  /** The counts in the header from `at` on are still to be patched. */
  predicate OpenFrom(v: seq<int>, at: nat) {
    HEAD_LEN <= |v| && forall k :: at <= k < HEAD_LEN ==> v[k] == HOLE
  }

  lemma SealCount(a: seq<int>, full: seq<int>, at: nat, x: nat)
    requires a <= full && OpenFrom(a, at) && at <= ADDITIONAL_OFFSET && x < 0x10000
    ensures var done := Patch(full, at, x);
      Agrees(a, done) && Agrees(full, done) && U16At(done, at, x) && OpenFrom(done, at + 2)
  {
    assert forall k :: at <= k < HEAD_LEN ==> full[k] == a[k];
  }

  lemma QuestionsSealed(a: seq<int>, full: seq<int>, places: seq<Place>, qs: seq<Question>)
    requires a <= full && OpenFrom(a, QUESTIONS_OFFSET) && |full| <= MAX_PACKET_SIZE && AllAsked(qs)
    requires Chain(QuestionIn(full), |a|, places, qs, |full|)
    ensures |qs| < 256
    ensures QuestionsIn(Patch(full, QUESTIONS_OFFSET, |qs|))(QUESTIONS_OFFSET, |a|, places, qs, |full|)
  {
    QuestionsLong(full, |a|, places, qs, |full|);
    SealCount(a, full, QUESTIONS_OFFSET, |qs|);
    QuestionsStable(full, Patch(full, QUESTIONS_OFFSET, |qs|), |a|, places, qs, |full|);
  }

  lemma SectionSealed(a: seq<int>, full: seq<int>, at: nat, places: seq<Place>, rs: seq<Record>)
    requires a <= full && OpenFrom(a, at) && at <= ADDITIONAL_OFFSET && |full| <= MAX_PACKET_SIZE
    requires Chain(RecordIn(full), |a|, places, rs, |full|)
    ensures |rs| < 256 && SectionIn(Patch(full, at, |rs|))(at, |a|, places, rs, |full|)
  {
    RecordsLong(full, |a|, places, rs, |full|);
    SealCount(a, full, at, |rs|);
    RecordsStable(full, Patch(full, at, |rs|), |a|, places, rs, |full|);
  }

  /** A count is filled in; `before` is the packet without what is counted. */
  method SetCount(w: Writer, at: nat, x: byte, ghost before: seq<int>)
    requires w.Valid() && before <= w.view && OpenFrom(before, at) && at <= ADDITIONAL_OFFSET
    modifies w`view, w`tidy, w`blank, w.packet
    ensures w.Valid() && w.blank == old(w.blank) && w.view == Patch(old(w.view), at, x)
    ensures w.StaysTidy(at < ADDITIONAL_OFFSET || w.index > HEAD_LEN)
  {
    CountTidy(w.blank, before, w.view, at, x);
    ghost var was := w.tidy;
    w.SetU16(at, x);
    w.tidy := was && w.Tidied();
  }

  lemma CountTidy(blank: bool, before: seq<int>, v: seq<int>, at: nat, x: byte)
    requires before <= v && OpenFrom(before, at) && at <= ADDITIONAL_OFFSET
    ensures TidyIn(v)(blank) && (at < ADDITIONAL_OFFSET || |v| > HEAD_LEN) ==> TidyIn(Patch(v, at, x))(blank)
  {
    if TidyIn(v)(blank) && (at < ADDITIONAL_OFFSET || |v| > HEAD_LEN) {
      assert forall k :: at <= k < HEAD_LEN ==> v[k] == before[k];
      TidyCount(blank, v, at, x);
    }
  }

  /** The questions and their number, which is kept in a single byte. */
  method AppendQuestionSection(w: Writer, questions: seq<OutQuestion>) returns (ghost places: seq<Place>)
    requires w.Valid() && OpenFrom(w.view, QUESTIONS_OFFSET)
    modifies w, w.packet
    ensures w.Valid() && (w.complete ==> old(w.complete)) && (w.safe ==> old(w.safe)) && w.blank == old(w.blank)
    ensures Agrees(old(w.view), w.view) && OpenFrom(w.view, ANSWERS_OFFSET)
    ensures w.complete && w.safe && AllAsked(QuestionsOf(questions)) ==>
      QuestionsIn(w.view)(QUESTIONS_OFFSET, old(w.index), places, QuestionsOf(questions), w.index)
    ensures var qs := QuestionsOf(questions);
      w.Keeps(AllTameQuestions(w.blank, qs), QuestionsSize(qs))
  {
    ghost var before := w.view;
    var count;
    count, places := AppendQuestions(w, questions);
    ghost var full := w.view;
    var low := LowByte(count);
    SetCount(w, QUESTIONS_OFFSET, low, before);
    SealCount(before, full, QUESTIONS_OFFSET, low);
    if w.complete && w.safe && AllAsked(QuestionsOf(questions)) {
      QuestionsSealed(before, full, places, QuestionsOf(questions));
      SmallByte(count);
    }
  }

  /** One record section and its number of records. */
  method AppendSection(w: Writer, answers: seq<Answer>, server: Server, addresses: Addresses, at: nat)
    returns (ghost places: seq<Place>)
    requires w.Valid() && addresses.Valid() && OpenFrom(w.view, at) && at <= ADDITIONAL_OFFSET
    modifies w, w.packet
    ensures w.Valid() && (w.complete ==> old(w.complete)) && (w.safe ==> old(w.safe)) && w.blank == old(w.blank)
    ensures Agrees(old(w.view), w.view) && OpenFrom(w.view, at + 2)
    ensures var rs := ExpectedAll(answers, server, addresses);
      w.complete && w.safe && AllNamed(rs) ==> SectionIn(w.view)(at, old(w.index), places, rs, w.index)
    ensures var rs := ExpectedAll(answers, server, addresses);
      && w.StaysTidy(AllTame(w.blank, rs) && (at < ADDITIONAL_OFFSET || w.index > HEAD_LEN))
      && w.StaysComplete(AllTame(w.blank, rs), RecordsSize(rs))
      && (w.complete && old(w.tidy) && AllTame(w.blank, rs) && w.Near() ==> w.safe)
  {
    ghost var before := w.view;
    ghost var rs := ExpectedAll(answers, server, addresses);
    var count;
    count, places := AppendAnswers(w, answers, server, addresses);
    ghost var full := w.view;
    var low := LowByte(count);
    SetCount(w, at, low, before);
    SealCount(before, full, at, low);
    if w.complete && w.safe && AllNamed(rs) {
      SectionSealed(before, full, at, places, rs);
      SmallByte(count);
    }
  }

  // ---------------------------------------------------------------------------------------------------------
  // The whole packet

  /** A header whose counts are still open. */
  function OpenHeader(flags: nat): (v: seq<int>)
    ensures |v| == HEAD_LEN
  {
    [0, 0] + U16(flags) + [HOLE, HOLE, HOLE, HOLE, HOLE, HOLE, HOLE, HOLE]
  }

  method WriteHeader(w: Writer, flags: u16)
    requires w.Valid() && w.index == 0
    modifies w, w.packet
    ensures w.Valid() && w.view == OpenHeader(flags) && w.complete == old(w.complete) && w.safe == old(w.safe)
    ensures w.blank == old(w.blank) && (w.safe ==> w.tidy)
  {
    w.Copy([0, 0, 0, 0, 0, 0, 0, 0, 0, 0, 0, 0]);
    w.SetU16(FLAGS_OFFSET, flags);
    HeaderFilled(flags, w.view, w.packet[..]);
    w.view := OpenHeader(flags);
    HeaderTidy(flags);
    w.tidy := w.Tidied();
  }

  /** The counts are open where zeros are written. */
  lemma HeaderFilled(flags: u16, h: seq<int>, p: seq<int>)
    requires h == Patch([0, 0, 0, 0, 0, 0, 0, 0, 0, 0, 0, 0], FLAGS_OFFSET, flags)
    ensures |h| == HEAD_LEN
    ensures OverIn(h)(p) ==> OverIn(OpenHeader(flags))(p)
    ensures AgreesIn(h)(p) ==> AgreesIn(OpenHeader(flags))(p)
  {
    var v := OpenHeader(flags);
    assert |v| == |h| == 12 && v[0] == h[0] && v[1] == h[1] && v[2] == h[2] && v[3] == h[3];
    assert forall k :: 4 <= k < 12 ==> v[k] == HOLE && h[k] == 0;
    HeaderOver(h, v, p);
  }

  lemma HeaderOver(h: seq<int>, v: seq<int>, p: seq<int>)
    requires |v| == |h| && forall k :: 0 <= k < |h| ==> v[k] == h[k] || (v[k] == HOLE && h[k] == 0)
    ensures OverIn(h)(p) ==> OverIn(v)(p)
    ensures AgreesIn(h)(p) ==> AgreesIn(v)(p)
  {
  }

  lemma HeaderTidy(flags: u16)
    ensures TidyIn(OpenHeader(flags))(false) && Quiet(OpenHeader(flags))
  {
    var v := OpenHeader(flags);
    assert v[0] == 0 && v[1] == 0 && v[|v| - 1] == HOLE;
    assert forall k :: 4 <= k < 12 ==> v[k] == HOLE;
    forall o | 0 <= o < |v|
      ensures !Looks(v, o)
    {
      assert o == 2 || o == 3 ==> !LabelByte(v[4]);
    }
    EndsSolid(v);
    assert IsTidy(v) && !Dangles(v);
    assert TidyIn(v)(false);
  }

  lemma SectionStable(a: seq<int>, p: seq<int>, at: nat, i: nat, places: seq<Place>, rs: seq<Record>, j: nat)
    requires Agrees(a, p) && SectionIn(a)(at, i, places, rs, j)
    ensures SectionIn(p)(at, i, places, rs, j)
  {
    U16Stable(a, p, at, |rs|);
    RecordsStable(a, p, i, places, rs, j);
  }

  lemma HeaderStable(p: seq<int>, flags: nat)
    requires Agrees(OpenHeader(flags), p) && flags < 0x10000
    ensures U16At(p, 0, 0) && U16At(p, FLAGS_OFFSET, flags)
  {
    U16Stable(OpenHeader(flags), p, 0, 0);
    U16Stable(OpenHeader(flags), p, FLAGS_OFFSET, flags);
  }

  /** The same as a function of the packet. */
  function Holds(p: seq<int>): (Message, Layout) -> bool {
    (m: Message, l: Layout) => PacketHolds(p, m, l)
  }

  lemma HoldsStable(a: seq<int>, p: seq<int>, m: Message, l: Layout)
    requires Holds(a)(m, l) && Agrees(a, p) && |a| == |p| && m.flags < 0x10000
    ensures PacketHolds(p, m, l)
  {
    U16Stable(a, p, 0, 0);
    U16Stable(a, p, FLAGS_OFFSET, m.flags);
    U16Stable(a, p, QUESTIONS_OFFSET, |m.questions|);
    QuestionsStable(a, p, HEAD_LEN, l.questions, m.questions, l.answersAt);
    SectionStable(a, p, ANSWERS_OFFSET, l.answersAt, l.answers, m.answers, l.serversAt);
    SectionStable(a, p, SERVERS_OFFSET, l.serversAt, l.servers, m.servers, l.additionalAt);
    SectionStable(a, p, ADDITIONAL_OFFSET, l.additionalAt, l.additional, m.additional, |p|);
  }

  /** What the four sections and the header, each in its own version of the packet, come to in the last one. */
  lemma Assemble(v0: seq<int>, v1: seq<int>, v2: seq<int>, v3: seq<int>, p: seq<int>, m: Message, l: Layout)
    requires Agrees(v0, v1) && Agrees(v1, v2) && Agrees(v2, v3) && Agrees(v3, p)
    requires v0 == OpenHeader(m.flags) && m.flags < 0x10000
    requires QuestionsIn(v1)(QUESTIONS_OFFSET, HEAD_LEN, l.questions, m.questions, l.answersAt)
    requires SectionIn(v2)(ANSWERS_OFFSET, l.answersAt, l.answers, m.answers, l.serversAt)
    requires SectionIn(v3)(SERVERS_OFFSET, l.serversAt, l.servers, m.servers, l.additionalAt)
    requires SectionIn(p)(ADDITIONAL_OFFSET, l.additionalAt, l.additional, m.additional, |p|)
    ensures Holds(p)(m, l)
  {
    AgreesChain(v1, v2, v3, p);
    AgreesChain(v0, v1, v2, p);
    HeaderStable(p, m.flags);
    U16Stable(v1, p, QUESTIONS_OFFSET, |m.questions|);
    QuestionsStable(v1, p, HEAD_LEN, l.questions, m.questions, l.answersAt);
    SectionStable(v2, p, ANSWERS_OFFSET, l.answersAt, l.answers, m.answers, l.serversAt);
    SectionStable(v3, p, SERVERS_OFFSET, l.serversAt, l.servers, m.servers, l.additionalAt);
  }

  lemma AgreesChain(a: seq<int>, b: seq<int>, c: seq<int>, p: seq<int>)
    requires Agrees(a, b) && Agrees(b, c) && Agrees(c, p)
    ensures Agrees(b, p) && Agrees(a, p)
  {
  }

  /** The questions and the three record sections. */
  method AppendSections(w: Writer, o: OutPacket, server: Server, addresses: Addresses) returns (ghost layout: Layout)
    requires w.Valid() && addresses.Valid() && w.view == OpenHeader(o.flags)
    modifies w, w.packet
    ensures w.Valid() && w.blank == old(w.blank) && (w.complete ==> old(w.complete)) && (w.safe ==> old(w.safe))
    ensures w.complete && w.safe && Nameable(MessageOf(o, server, addresses)) ==>
      Holds(w.view)(MessageOf(o, server, addresses), layout)
    ensures var m := MessageOf(o, server, addresses);
      && w.StaysComplete(TameMessage(w.blank, m), MessageSize(m) - HEAD_LEN)
      && (w.complete && old(w.tidy) && TameMessage(w.blank, m) && w.Near() ==> w.safe)
  {
    ghost var m := MessageOf(o, server, addresses);
    ghost var v0 := w.view;
    ghost var ps := AppendQuestionSection(w, o.questions);
    ghost var v1 := w.view;
    ghost var ps1 := AppendSection(w, o.answers, server, addresses, ANSWERS_OFFSET);
    ghost var v2 := w.view;
    ghost var ps2 := AppendSection(w, o.servers, server, addresses, SERVERS_OFFSET);
    ghost var v3 := w.view;
    ghost var ps3 := AppendSection(w, o.additional, server, addresses, ADDITIONAL_OFFSET);
    layout := Layout(ps, |v1|, ps1, |v2|, ps2, |v3|, ps3);
    if w.complete && w.safe && Nameable(m) {
      Assemble(v0, v1, v2, v3, w.view, m, layout);
    }
  }

  predicate IsZero(p: seq<byte>) {
    forall k :: 0 <= k < |p| ==> p[k] == 0
  }

  /**
   * Builds the packet in a buffer that still holds an earlier one. If nothing failed and every pointer had a
   * safe target, the bytes are the message. Nothing fails and every pointer has one if the message is tame and fits.
   */
  method DispatchTxPacket(stale: seq<byte>, o: OutPacket, server: Server, addresses: Addresses)
    returns (packet: seq<byte>, ghost complete: bool, ghost safe: bool, ghost layout: Layout)
    requires |stale| == MAX_PACKET_SIZE && addresses.Valid()
    ensures |packet| <= MAX_PACKET_SIZE
    ensures complete && safe && Nameable(MessageOf(o, server, addresses)) ==>
      PacketHolds(packet, MessageOf(o, server, addresses), layout)
    ensures complete && IsZero(stale) && TameMessage(true, MessageOf(o, server, addresses)) ==> safe
    ensures Fits(IsZero(stale), MessageOf(o, server, addresses)) ==>
      complete && safe && |packet| <= MessageSize(MessageOf(o, server, addresses))
  {
    var w := new Writer(stale);
    WriteHeader(w, o.flags);
    ghost var m := MessageOf(o, server, addresses);
    layout := AppendSections(w, o, server, addresses);
    packet, complete, safe := w.packet[..w.index], w.complete, w.safe;
    if complete && safe && Nameable(m) {
      HoldsStable(w.view, packet, m, layout);
    }
  }
}
