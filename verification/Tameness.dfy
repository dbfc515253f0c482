/** What is asked of services, host and addresses so that every packet about them is tame. */
module Tameness {
  import opened Bytes
  import opened Names
  import opened Tidy
  import opened Encoder
  import opened Records
  import opened TidyRecords
  import opened RecordWriter
  import opened PacketWriter
  import opened Dispatch

  predicate Printable(s: seq<byte>) {
    forall k :: 0 <= k < |s| ==> 32 <= s[k] <= 126
  }

  predicate PrintableItem(item: TxtItem) {
    Printable(item.key) && Printable(item.value) && |TxtString(item)| < 256
  }

  /** TXT items of printable characters, not more than 255 bytes in all. */
  predicate PrintableItems(items: seq<TxtItem>) {
    |TxtData(items)| < 256 && forall k :: 0 <= k < |items| ==> PrintableItem(items[k])
  }

  /** `blank` says that the buffer is blank; otherwise labels must be short, and ports and addresses steady. */
  predicate TameService(blank: bool, s: Service, server: Server) {
    && Tame(blank)(InstanceFqdn(InstanceName(s, server), s.service, s.proto))
    && s.priority == 0 && s.weight == 0 && (blank || SteadyPort(s.port)) && PrintableItems(s.txt)
  }

  predicate TameCustom(blank: bool, c: Custom) {
    c.Custom? ==> Tame(blank)(InstanceFqdn(c.instance, c.service, c.proto))
  }

  predicate TameAnswer(blank: bool, a: Answer, server: Server) {
    (a.service.Some? ==> TameService(blank, a.service.it, server)) && TameCustom(blank, a.custom)
  }

  predicate TameAddresses(blank: bool, addresses: Addresses) {
    && (forall k :: 0 <= k < |addresses.v4| ==> QuietBytes(blank)(addresses.v4[k]))
    && (forall k :: 0 <= k < |addresses.v6| ==> QuietBytes(blank)(addresses.v6[k]))
  }

  predicate TameAnswers(blank: bool, answers: seq<Answer>, server: Server) {
    forall k :: 0 <= k < |answers| ==> TameAnswer(blank, answers[k], server)
  }

  predicate TameAsked(blank: bool, q: OutQuestion) {
    Tame(blank)(QuestionOf(q).name) && q.qtype < 256
  }

  predicate TameHost(blank: bool, server: Server) {
    Tame(blank)([server.hostname, LOCAL_DOMAIN])
  }

  /** The condition on a packet, before it is built. */
  predicate TamePacket(blank: bool, o: OutPacket, server: Server, addresses: Addresses) {
    && (forall k :: 0 <= k < |o.questions| ==> TameAsked(blank, o.questions[k]))
    && TameAnswers(blank, o.answers, server) && TameAnswers(blank, o.servers, server)
    && TameAnswers(blank, o.additional, server)
    && TameHost(blank, server) && TameAddresses(blank, addresses)
  }

  /** And there is room for it. */
  predicate FittingPacket(blank: bool, o: OutPacket, server: Server, addresses: Addresses) {
    TamePacket(blank, o, server, addresses) && MessageSize(MessageOf(o, server, addresses)) < LimitOf(blank)
  }

  // ---------------------------------------------------------------------------------------------------------
  // TXT data

  lemma OneString(item: TxtItem)
    requires PrintableItem(item)
    ensures var s := CharacterString(TxtString(item)); s != [] && Quiet(s)
    ensures var s := CharacterString(TxtString(item)); s == [|TxtString(item)|] + TxtString(item)
    ensures forall k :: 0 <= k < |TxtString(item)| ==> 32 <= TxtString(item)[k] <= 126
  {
    var text := TxtString(item);
    var s := CharacterString(text);
    assert s == [|text|] + text;
    var k := |item.key|;
    assert text[k] == EQUALS && s[k + 1] == EQUALS;
    forall j | 0 <= j < |s|
      ensures !Looks(s, j)
    {
      assert j > 0 ==> s[j] == text[j - 1];
      assert j == 0 ==> !LabelByte(s[k + 1]);
    }
  }

  /** Nothing looks like a label across the end of a string, because its length or an equals sign comes in between. */
  lemma JoinStrings(item: TxtItem, rest: seq<byte>)
    requires PrintableItem(item) && Quiet(rest)
    ensures Quiet(CharacterString(TxtString(item)) + rest)
  {
    OneString(item);
    var text := TxtString(item);
    var s := [|text|] + text;
    var w := s + rest;
    forall j | 0 <= j < |w|
      ensures !Looks(w, j)
    {
      if j >= |s| {
        if Looks(w, j) {
          LooksSuffix(s, rest, j);
        }
      } else if j == 0 {
        var k := |item.key|;
        assert text[k] == EQUALS && w[k + 1] == EQUALS;
      } else {
        assert w[j] == text[j - 1];
      }
    }
  }

  lemma {:induction false} StringsQuiet(items: seq<TxtItem>)
    requires forall k :: 0 <= k < |items| ==> PrintableItem(items[k])
    ensures Quiet(TxtStrings(items))
  {
    if items == [] {
    } else {
      assert forall k :: 0 <= k < |items[1..]| ==> items[1..][k] == items[k + 1];
      StringsQuiet(items[1..]);
      JoinStrings(items[0], TxtStrings(items[1..]));
    }
  }

  lemma TextQuiet(items: seq<TxtItem>)
    requires PrintableItems(items)
    ensures QuietData(TxtData(items))
  {
    var d := TxtData(items);
    if items == [] {
      assert d == [0];
    } else {
      StringsQuiet(items);
      OneString(items[0]);
      assert d[0] == |TxtString(items[0])| < |d|;
      assert ([|d|] + d)[1] == d[0];
    }
  }

  /** A string does not seem to go on behind its end. */
  lemma JoinSolid(item: TxtItem, rest: seq<byte>)
    requires PrintableItem(item) && !Dangles(rest)
    ensures !Dangles(CharacterString(TxtString(item)) + rest)
  {
    OneString(item);
    var text := TxtString(item);
    var s := [|text|] + text;
    var w := s + rest;
    assert forall k :: 0 <= k < |rest| ==> w[|s| + k] == rest[k];
    forall j | 0 <= j < |w|
      ensures !Tail(w, j)
    {
      if j >= |s| {
        assert !Tail(rest, j - |s|);
      } else if j > 0 {
        assert w[j] == text[j - 1];
      }
    }
  }

  lemma {:induction false} StringsSolid(items: seq<TxtItem>)
    requires forall k :: 0 <= k < |items| ==> PrintableItem(items[k])
    ensures !Dangles(TxtStrings(items))
  {
    if items == [] {
    } else {
      assert forall k :: 0 <= k < |items[1..]| ==> items[1..][k] == items[k + 1];
      StringsSolid(items[1..]);
      JoinSolid(items[0], TxtStrings(items[1..]));
    }
  }

  lemma TextSolid(items: seq<TxtItem>)
    requires PrintableItems(items)
    ensures QuietBytes(false)(TxtData(items)) && QuietBytes(true)(TxtData(items))
  {
    TextQuiet(items);
    if items == [] {
      EndsSolid([0]);
    } else {
      StringsSolid(items);
    }
  }

  // ---------------------------------------------------------------------------------------------------------
  // Records

  lemma NameTail(blank: bool, a: seq<byte>, strings: seq<seq<byte>>)
    requires Tame(blank)([a] + strings)
    ensures Tame(blank)(strings)
  {
    assert forall k :: 0 <= k < |strings| ==> ([a] + strings)[k + 1] == strings[k];
  }

  lemma InstanceTame(blank: bool, instance: seq<byte>, service: seq<byte>, proto: seq<byte>)
    requires Tame(blank)(InstanceFqdn(instance, service, proto))
    ensures Tame(blank)(ServiceName(service, proto))
  {
    assert InstanceFqdn(instance, service, proto) == [instance] + ServiceName(service, proto);
    NameTail(blank, instance, ServiceName(service, proto));
  }

  lemma DiscoveryTame(blank: bool)
    ensures Tame(blank)([SERVICES, DNS_SD, UDP, LOCAL_DOMAIN])
  {
    assert Lower(UDP[1]) != Lower(SUB[1]);
    assert TameLabel(SERVICES) && TameLabel(DNS_SD) && TameLabel(UDP) && TameLabel(LOCAL_DOMAIN);
  }

  lemma ServiceTame(blank: bool, s: Service, server: Server, flush: bool, bye: bool)
    requires TameService(blank, s, server) && TameHost(blank, server)
    ensures TameRecord(blank, SrvRecord(s, server, flush, bye)) && TameRecord(blank, TxtRecord(s, server, flush, bye))
    ensures TameRecord(blank, SdPtrRecord(s, flush))
    ensures TameRecord(blank, PtrRecord(InstanceName(s, server), s.service, s.proto, bye))
  {
    InstanceTame(blank, InstanceName(s, server), s.service, s.proto);
    TextSolid(s.txt);
    DiscoveryTame(blank);
  }

  lemma AnswerTame(blank: bool, a: Answer, server: Server, addresses: Addresses)
    requires TameAnswer(blank, a, server) && TameHost(blank, server) && TameAddresses(blank, addresses)
    ensures AllTame(blank, Expected(a, server, addresses))
  {
    if a.service.Some? {
      ServiceTame(blank, a.service.it, server, a.flush, a.bye);
    }
    if a.custom.Custom? {
      InstanceTame(blank, a.custom.instance, a.custom.service, a.custom.proto);
    }
  }

  lemma {:induction false} AnswersTame(blank: bool, answers: seq<Answer>, server: Server, addresses: Addresses)
    requires TameAnswers(blank, answers, server) && TameHost(blank, server) && TameAddresses(blank, addresses)
    ensures AllTame(blank, ExpectedAll(answers, server, addresses))
    decreases |answers|
  {
    if answers == [] {
    } else {
      assert TameAnswer(blank, answers[0], server);
      AnswerTame(blank, answers[0], server, addresses);
      assert forall k :: 0 <= k < |answers[1..]| ==> answers[1..][k] == answers[k + 1];
      AnswersTame(blank, answers[1..], server, addresses);
    }
  }

  /** A tame packet is a tame message. */
  lemma PacketTame(blank: bool, o: OutPacket, server: Server, addresses: Addresses)
    requires TamePacket(blank, o, server, addresses)
    ensures TameMessage(blank, MessageOf(o, server, addresses))
  {
    AnswersTame(blank, o.answers, server, addresses);
    AnswersTame(blank, o.servers, server, addresses);
    AnswersTame(blank, o.additional, server, addresses);
    forall k | 0 <= k < |o.questions|
      ensures TameQuestion(blank, QuestionsOf(o.questions)[k])
    {
      assert TameAsked(blank, o.questions[k]);
    }
  }

  // ---------------------------------------------------------------------------------------------------------
  // An example

  const EXAMPLE_HOST: Server := Server([104, 104], [])
  const EXAMPLE_ADDRESSES: Addresses := Addresses([[192, 168, 4, 1]], [])

  /** The probe for a host name, with the address that it proposes. */
  const EXAMPLE: OutPacket :=
    OutPacket(0, [OutQuestion([104, 104], [], [], LOCAL_DOMAIN, 255, true)], [],
              [Answer(A, NoService, NoCustom, false, false)], [])

  lemma ExampleName()
    ensures Tame(false)([EXAMPLE_HOST.hostname, LOCAL_DOMAIN]) && WireSize([EXAMPLE_HOST.hostname, LOCAL_DOMAIN]) == 10
  {
    assert [EXAMPLE_HOST.hostname, LOCAL_DOMAIN][1..] == [LOCAL_DOMAIN] && [LOCAL_DOMAIN][1..] == [];
    assert |LOCAL_DOMAIN| == 5 && WireSize([LOCAL_DOMAIN]) == 7;
  }

  lemma ExampleAddress()
    ensures QuietBytes(false)([192, 168, 4, 1])
  {
    var b := [192, 168, 4, 1];
    assert !LabelByte(([|b|] + b)[1]);
    EndsSolid(b);
  }

  lemma ExampleQuestion()
    ensures QuestionOf(EXAMPLE.questions[0]) == Question([EXAMPLE_HOST.hostname, LOCAL_DOMAIN], 255, true)
    ensures QuestionsSize(QuestionsOf(EXAMPLE.questions)) == 14
  {
    ExampleName();
    var q := EXAMPLE.questions[0];
    assert Part(q.host) + Part(q.service) + Part(q.proto) + Part(q.domain) == [EXAMPLE_HOST.hostname, LOCAL_DOMAIN];
    var qs := QuestionsOf(EXAMPLE.questions);
    assert qs == [QuestionOf(q)] && qs[1..] == [];
  }

  lemma ExampleRecords()
    ensures RecordsSize(ExpectedAll(EXAMPLE.servers, EXAMPLE_HOST, EXAMPLE_ADDRESSES)) == 24
  {
    ExampleName();
    var r := AddressRecord(TYPE_A, [192, 168, 4, 1], EXAMPLE_HOST, false, false);
    var rs := ExpectedAll(EXAMPLE.servers, EXAMPLE_HOST, EXAMPLE_ADDRESSES);
    assert EXAMPLE.servers[1..] == [];
    assert rs == [r] && rs[1..] == [];
    assert RecordSize(r) == 24;
  }

  /** It is sent as a whole whatever the buffer held before. */
  lemma ExampleFits()
    ensures FittingPacket(false, EXAMPLE, EXAMPLE_HOST, EXAMPLE_ADDRESSES) && EXAMPLE_ADDRESSES.Valid()
  {
    ExampleName();
    ExampleAddress();
    ExampleQuestion();
    ExampleRecords();
    assert ExpectedAll([], EXAMPLE_HOST, EXAMPLE_ADDRESSES) == [];
  }
}
