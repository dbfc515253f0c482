/** From the questions of a received packet to the response. */
module Responses {
  import opened Bytes
  import RW = RecordWriter
  import opened Parser
  import opened TxQueue
  import opened Packets
  import opened Pcbs

  /** A registered service: its identity and its names. */
  datatype Registered = Registered(id: nat, it: RW.Service)

  datatype MaybeId = NoId | Id(id: nat)

  function ServicesOf(regs: seq<Registered>): (r: seq<RW.Service>)
    ensures |r| == |regs| && forall k :: 0 <= k < |regs| ==> r[k] == regs[k].it
  {
    seq(|regs|, k requires 0 <= k < |regs| => regs[k].it)
  }

  function IdsOf(regs: seq<Registered>): (r: seq<nat>)
    ensures |r| == |regs| && forall k :: 0 <= k < |regs| ==> r[k] == regs[k].id
  {
    seq(|regs|, k requires 0 <= k < |regs| => regs[k].id)
  }

  /** The first registered service of that type, up to case. */
  function Lookup(regs: seq<Registered>, service: seq<int>, proto: seq<int>): (r: MaybeId)
    ensures r.Id? ==> exists k :: 0 <= k < |regs| && regs[k].id == r.id && IsNamed(regs[k].it, service, proto)
    ensures r.NoId? <==> forall k :: 0 <= k < |regs| ==> !IsNamed(regs[k].it, service, proto)
  {
    if regs == [] then NoId
    else if IsNamed(regs[0].it, service, proto) then Id(regs[0].id)
    else
      var r := Lookup(regs[1..], service, proto);
      assert forall k :: 1 <= k < |regs| ==> regs[k] == regs[1..][k - 1];
      r
  }

  method GetServiceItem(regs: seq<Registered>, service: seq<int>, proto: seq<int>) returns (r: MaybeId)
    ensures r == Lookup(regs, service, proto)
  {
    for i := 0 to |regs|
      invariant Lookup(regs[i..], service, proto) == Lookup(regs, service, proto)
    {
      assert regs[i..][1..] == regs[i + 1..];
      if IsNamed(regs[i].it, service, proto) {
        return Id(regs[i].id);
      }
    }
    return NoId;
  }

  // ---------------------------------------------------------------------------------------------------------
  // Every question that the parser keeps can be answered

  /** The question names no service, or a registered one. */
  predicate Answerable(q: ParsedQuestion, regs: seq<Registered>) {
    q.service.Str? && q.proto.Str? ==> Lookup(regs, q.service.s, q.proto.s).Id?
  }

  predicate AllAnswerable(qs: seq<ParsedQuestion>, regs: seq<Registered>) {
    forall k :: 0 <= k < |qs| ==> Answerable(qs[k], regs)
  }

  lemma FoundBoth(regs: seq<Registered>, service: seq<int>, proto: seq<int>)
    ensures FindService(ServicesOf(regs), service, proto).Some? <==> Lookup(regs, service, proto).Id?
  {
  }

  predicate Known(s: RW.Service, regs: seq<Registered>) {
    exists k :: 0 <= k < |regs| && regs[k].it == s
  }

  lemma {:induction false} DiscoveredAnswerable(services: seq<RW.Service>, unicast: bool, regs: seq<Registered>)
    requires forall k :: 0 <= k < |services| ==> Known(services[k], regs)
    ensures AllAnswerable(Discovered(services, unicast), regs)
  {
    if services == [] {
    } else {
      assert forall k :: 0 <= k < |services[1..]| ==> services[1..][k] == services[k + 1];
      assert Known(services[0], regs);
      DiscoveredAnswerable(services[1..], unicast, regs);
      var s := services[0];
      var k :| 0 <= k < |regs| && regs[k].it == s;
      assert IsNamed(regs[k].it, s.service, s.proto);
    }
  }

  lemma RegisterAnswerable(r: Received, e: QuestionEntry, server: RW.Server, regs: seq<Registered>)
    requires AllAnswerable(r.questions, regs)
    ensures AllAnswerable(Register(r, e, server, ServicesOf(regs)).questions, regs)
  {
    var services := ServicesOf(regs);
    if e.clas == 1 && !e.name.invalid {
      if IsDiscovery(e.name, e.qtype) {
        forall k | 0 <= k < |services|
          ensures Known(services[k], regs)
        {
          assert regs[k].it == services[k];
        }
        DiscoveredAnswerable(services, e.unicast, regs);
      } else if !e.name.sub && IsOurs(e.name, server, services) {
        FoundBoth(regs, e.name.service, e.name.proto);
      }
    }
  }

  /** The ownership test and the discovery expansion let only answerable questions through. */
  lemma {:induction false} ParsedAnswerable(r: Received, es: seq<QuestionEntry>, server: RW.Server,
                                            regs: seq<Registered>)
    requires AllAnswerable(r.questions, regs)
    ensures AllAnswerable(RegisterAll(r, es, server, ServicesOf(regs)).questions, regs)
    decreases |es|
  {
    if es == [] {
    } else {
      RegisterAnswerable(r, es[0], server, regs);
      ParsedAnswerable(Register(r, es[0], server, ServicesOf(regs)), es[1..], server, regs);
    }
  }

  /** So it is for every received packet. */
  lemma ReceivedAnswerable(p: seq<byte>, srcPort: nat, server: RW.Server, regs: seq<Registered>)
    requires Understand(p, srcPort, server, ServicesOf(regs)).Reading?
    ensures AllAnswerable(Understand(p, srcPort, server, ServicesOf(regs)).received.questions, regs)
  {
    var r := Understand(p, srcPort, server, ServicesOf(regs));
    ParsedAnswerable(Received([], false, false), r.questions.entries, server, regs);
  }

  /** Where the builder's loop stands after some turns: it does not move past a question that it cannot answer. */
  function Position(qs: seq<ParsedQuestion>, regs: seq<Registered>, turns: nat): (i: nat)
    ensures i <= |qs|
  {
    if turns == 0 then 0
    else
      var i := Position(qs, regs, turns - 1);
      if i < |qs| && Answerable(qs[i], regs) then i + 1 else i
  }

  lemma {:induction false} PositionStuck(qs: seq<ParsedQuestion>, regs: seq<Registered>, turns: nat, k: nat)
    requires k < |qs| && !Answerable(qs[k], regs)
    ensures Position(qs, regs, turns) <= k
  {
    if turns == 0 {
    } else {
      PositionStuck(qs, regs, turns - 1, k);
    }
  }

  lemma {:induction false} PositionMoves(qs: seq<ParsedQuestion>, regs: seq<Registered>, turns: nat)
    requires AllAnswerable(qs, regs) && turns <= |qs|
    ensures Position(qs, regs, turns) == turns
  {
    if turns == 0 {
    } else {
      PositionMoves(qs, regs, turns - 1);
    }
  }

  /** The loop comes to its end if and only if every question can be answered. */
  lemma BuilderEnds(qs: seq<ParsedQuestion>, regs: seq<Registered>)
    ensures (exists turns :: Position(qs, regs, turns) == |qs|) <==> AllAnswerable(qs, regs)
  {
    if AllAnswerable(qs, regs) {
      PositionMoves(qs, regs, |qs|);
    } else {
      var k :| 0 <= k < |qs| && !Answerable(qs[k], regs);
      forall turns: nat
        ensures Position(qs, regs, turns) != |qs|
      {
        PositionStuck(qs, regs, turns, k);
      }
    }
  }

  // ---------------------------------------------------------------------------------------------------------
  // The response

  function KindOf(code: nat): Kind {
    if code == 12 then PTR else if code == 33 then SRV else if code == 16 then TXT else if code == TYPE_SDPTR then SDPTR
    else if code == 1 then A else if code == 28 then AAAA else Other(code)
  }

  /** The response while it is being built. */
  datatype Reply = Reply(answers: seq<Ans>, additional: seq<Ans>, unicast: bool, shared: bool)

  predicate Holds(r: Reply, kind: Kind, about: Ref) {
    Has(r.answers, kind, about) || Has(r.additional, kind, about)
  }

  function Put(r: Reply, extra: bool, kind: Kind, about: Ref, flush: bool): Reply {
    if extra then r.(additional := AddAnswer(r.additional, kind, about, flush))
    else r.(answers := AddAnswer(r.answers, kind, about, flush))
  }

  function PutAddresses(r: Reply, extra: bool, flush: bool): Reply {
    Put(Put(r, extra, A, Host, flush), extra, AAAA, Host, flush)
  }

  function ServiceOf(q: ParsedQuestion, regs: seq<Registered>): MaybeId {
    if q.service.Str? && q.proto.Str? then Lookup(regs, q.service.s, q.proto.s) else NoId
  }

  /** Everything about a service, and the addresses of the host. */
  function PutService(r: Reply, s: nat, flush: bool): Reply {
    var located := Put(Put(r, false, PTR, Service(s), false), false, SRV, Service(s), flush);
    PutAddresses(Put(located, false, TXT, Service(s), flush), r.shared, flush)
  }

  function AnsweredService(r: Reply, qtype: nat, s: nat, probe: bool, flush: bool): Reply {
    var kind := KindOf(qtype);
    if kind == PTR || qtype == TYPE_ANY then PutService(r.(shared := r.shared || kind == PTR || !probe), s, flush)
    else if kind == SRV then PutAddresses(Put(r, false, SRV, Service(s), flush), true, flush)
    else if kind == TXT then Put(r, false, TXT, Service(s), flush)
    else if kind == SDPTR then Put(r.(shared := true), false, SDPTR, Service(s), false)
    else r
  }

  function AnsweredHost(r: Reply, qtype: nat, flush: bool): Reply {
    var kind := KindOf(qtype);
    if qtype == TYPE_ANY || kind == A || kind == AAAA then PutAddresses(r, false, flush)
    else Put(r, false, kind, Host, flush)
  }

  /** What one question adds. `probe` says that the packet is a probe of another host. */
  function Answered(r: Reply, q: ParsedQuestion, svc: MaybeId, probe: bool, flush: bool): Reply {
    var r1 := r.(unicast := r.unicast || q.unicast);
    if svc.Id? then AnsweredService(r1, q.qtype, svc.id, probe, flush) else AnsweredHost(r1, q.qtype, flush)
  }

  function AnsweredAll(r: Reply, qs: seq<ParsedQuestion>, regs: seq<Registered>, probe: bool, flush: bool): Reply
    decreases |qs|
  {
    if qs == [] then r
    else AnsweredAll(Answered(r, qs[0], ServiceOf(qs[0], regs), probe, flush), qs[1..], regs, probe, flush)
  }

  /** What a question about a service asks for. */
  predicate WantsOf(qtype: nat, s: nat, kind: Kind, about: Ref) {
    var asked := KindOf(qtype);
    var all := asked == PTR || qtype == TYPE_ANY;
    if about == Host then (all || asked == SRV) && (kind == A || kind == AAAA)
    else
      && about.id == s
      && match kind
         case PTR => all
         case SRV => all || asked == SRV
         case TXT => all || asked == TXT
         case SDPTR => asked == SDPTR
         case _ => false
  }

  /** What a question about the host asks for. */
  predicate WantsHost(qtype: nat, kind: Kind, about: Ref) {
    var asked := KindOf(qtype);
    && about == Host
    && if qtype == TYPE_ANY || asked == A || asked == AAAA then kind == A || kind == AAAA else kind == asked
  }

  predicate Wants(q: ParsedQuestion, svc: MaybeId, kind: Kind, about: Ref) {
    if svc.Id? then WantsOf(q.qtype, svc.id, kind, about) else WantsHost(q.qtype, kind, about)
  }

  lemma PutHolds(r: Reply, extra: bool, kind: Kind, about: Ref, flush: bool, k: Kind, a: Ref)
    ensures Holds(Put(r, extra, kind, about, flush), k, a) <==> Holds(r, k, a) || (k == kind && a == about)
  {
    AddAnswerHas(r.additional, kind, about, flush, k, a);
    AddAnswerHas(r.answers, kind, about, flush, k, a);
  }

  lemma PutAddressesHolds(r: Reply, extra: bool, flush: bool, k: Kind, a: Ref)
    ensures Holds(PutAddresses(r, extra, flush), k, a) <==> Holds(r, k, a) || (a == Host && (k == A || k == AAAA))
  {
    PutHolds(r, extra, A, Host, flush, k, a);
    PutHolds(Put(r, extra, A, Host, flush), extra, AAAA, Host, flush, k, a);
  }

  lemma PutServiceHolds(r: Reply, s: nat, flush: bool, k: Kind, a: Ref)
    ensures Holds(PutService(r, s, flush), k, a) <==>
      || Holds(r, k, a) || (a == Host && (k == A || k == AAAA))
      || (a == Service(s) && (k == PTR || k == SRV || k == TXT))
  {
    var p1 := Put(r, false, PTR, Service(s), false);
    var p2 := Put(p1, false, SRV, Service(s), flush);
    PutHolds(r, false, PTR, Service(s), false, k, a);
    PutHolds(p1, false, SRV, Service(s), flush, k, a);
    PutHolds(p2, false, TXT, Service(s), flush, k, a);
    PutAddressesHolds(Put(p2, false, TXT, Service(s), flush), r.shared, flush, k, a);
  }

  lemma AnsweredServiceHolds(r: Reply, qtype: nat, s: nat, probe: bool, flush: bool, k: Kind, a: Ref)
    ensures Holds(AnsweredService(r, qtype, s, probe, flush), k, a) <==> Holds(r, k, a) || WantsOf(qtype, s, k, a)
  {
    var kind := KindOf(qtype);
    if kind == PTR || qtype == TYPE_ANY {
      PutServiceHolds(r.(shared := r.shared || kind == PTR || !probe), s, flush, k, a);
    } else if kind == SRV {
      PutHolds(r, false, SRV, Service(s), flush, k, a);
      PutAddressesHolds(Put(r, false, SRV, Service(s), flush), true, flush, k, a);
    } else if kind == TXT {
      PutHolds(r, false, TXT, Service(s), flush, k, a);
    } else if kind == SDPTR {
      PutHolds(r.(shared := true), false, SDPTR, Service(s), false, k, a);
    }
  }

  lemma AnsweredHostHolds(r: Reply, qtype: nat, flush: bool, k: Kind, a: Ref)
    ensures Holds(AnsweredHost(r, qtype, flush), k, a) <==> Holds(r, k, a) || WantsHost(qtype, k, a)
  {
    PutAddressesHolds(r, false, flush, k, a);
    PutHolds(r, false, KindOf(qtype), Host, flush, k, a);
  }

  lemma AnsweredHolds(r: Reply, q: ParsedQuestion, svc: MaybeId, probe: bool, flush: bool, k: Kind, a: Ref)
    ensures Holds(Answered(r, q, svc, probe, flush), k, a) <==> Holds(r, k, a) || Wants(q, svc, k, a)
  {
    var r1 := r.(unicast := r.unicast || q.unicast);
    assert Holds(r1, k, a) <==> Holds(r, k, a);
    if svc.Id? {
      AnsweredServiceHolds(r1, q.qtype, svc.id, probe, flush, k, a);
    } else {
      AnsweredHostHolds(r1, q.qtype, flush, k, a);
    }
  }

  predicate SomeWants(qs: seq<ParsedQuestion>, regs: seq<Registered>, kind: Kind, about: Ref) {
    exists k :: 0 <= k < |qs| && Wants(qs[k], ServiceOf(qs[k], regs), kind, about)
  }

  /** The response has a record if and only if some question asks for it. */
  lemma {:induction false} ResponseExact(r: Reply, qs: seq<ParsedQuestion>, regs: seq<Registered>, probe: bool,
                                         flush: bool,
                                         k: Kind, a: Ref)
    ensures Holds(AnsweredAll(r, qs, regs, probe, flush), k, a) <==> Holds(r, k, a) || SomeWants(qs, regs, k, a)
    decreases |qs|
  {
    if qs == [] {
    } else {
      var svc := ServiceOf(qs[0], regs);
      AnsweredHolds(r, qs[0], svc, probe, flush, k, a);
      ResponseExact(Answered(r, qs[0], svc, probe, flush), qs[1..], regs, probe, flush, k, a);
      assert forall i :: 0 <= i < |qs[1..]| ==> qs[1..][i] == qs[i + 1];
      if SomeWants(qs, regs, k, a) && !SomeWants(qs[1..], regs, k, a) {
        var i :| 0 <= i < |qs| && Wants(qs[i], ServiceOf(qs[i], regs), k, a);
        assert i > 0 ==> qs[i] == qs[1..][i - 1];
      }
      if SomeWants(qs[1..], regs, k, a) {
        var i :| 0 <= i < |qs[1..]| && Wants(qs[1..][i], ServiceOf(qs[1..][i], regs), k, a);
        assert qs[1..][i] == qs[i + 1];
      }
    }
  }

  // ---------------------------------------------------------------------------------------------------------
  // What is scheduled is fit for the queue

  predicate ReplyOk(r: Reply, ids: seq<nat>) {
    Sound(r.answers, ids) && Sound(r.additional, []) && (r.shared ==> r.answers != [])
  }

  lemma PutOk(r: Reply, extra: bool, kind: Kind, about: Ref, flush: bool, ids: seq<nat>)
    requires Sound(r.answers, ids) && Sound(r.additional, []) && (about == Host || (!extra && about.id in ids))
    ensures ReplyOk(Put(r, false, kind, about, flush), ids)
        && (about == Host ==> Sound(Put(r, true, kind, about, flush).additional, []))
    ensures ReplyOk(r, ids) && about == Host ==> ReplyOk(Put(r, true, kind, about, flush), ids)
  {
    AddAnswerSound(r.answers, kind, about, flush, ids);
    if about == Host {
      AddAnswerSound(r.additional, kind, about, flush, []);
    }
  }

  lemma PutAddressesOk(r: Reply, extra: bool, flush: bool, ids: seq<nat>)
    requires ReplyOk(r, ids)
    ensures ReplyOk(PutAddresses(r, extra, flush), ids)
  {
    PutOk(r, extra, A, Host, flush, ids);
    PutOk(Put(r, extra, A, Host, flush), extra, AAAA, Host, flush, ids);
  }

  lemma AnsweredServiceOk(r: Reply, qtype: nat, s: nat, probe: bool, flush: bool, ids: seq<nat>)
    requires ReplyOk(r, ids) && s in ids
    ensures ReplyOk(AnsweredService(r, qtype, s, probe, flush), ids)
  {
    var kind := KindOf(qtype);
    if kind == PTR || qtype == TYPE_ANY {
      var r1 := r.(shared := r.shared || kind == PTR || !probe);
      var p1 := Put(r1, false, PTR, Service(s), false);
      var p2 := Put(p1, false, SRV, Service(s), flush);
      PutOk(r1, false, PTR, Service(s), false, ids);
      PutOk(p1, false, SRV, Service(s), flush, ids);
      PutOk(p2, false, TXT, Service(s), flush, ids);
      PutAddressesOk(Put(p2, false, TXT, Service(s), flush), r1.shared, flush, ids);
    } else if kind == SRV {
      PutOk(r, false, SRV, Service(s), flush, ids);
      PutAddressesOk(Put(r, false, SRV, Service(s), flush), true, flush, ids);
    } else if kind == TXT {
      PutOk(r, false, TXT, Service(s), flush, ids);
    } else if kind == SDPTR {
      PutOk(r.(shared := true), false, SDPTR, Service(s), false, ids);
    }
  }

  lemma AnsweredOk(r: Reply, q: ParsedQuestion, regs: seq<Registered>, probe: bool, flush: bool)
    requires ReplyOk(r, IdsOf(regs))
    ensures ReplyOk(Answered(r, q, ServiceOf(q, regs), probe, flush), IdsOf(regs))
  {
    var svc, ids := ServiceOf(q, regs), IdsOf(regs);
    var r1 := r.(unicast := r.unicast || q.unicast);
    if svc.Id? {
      var k :| 0 <= k < |regs| && regs[k].id == svc.id;
      assert ids[k] == svc.id;
      AnsweredServiceOk(r1, q.qtype, svc.id, probe, flush, ids);
    } else if q.qtype == TYPE_ANY || KindOf(q.qtype) == A || KindOf(q.qtype) == AAAA {
      PutAddressesOk(r1, false, flush, ids);
    } else {
      PutOk(r1, false, KindOf(q.qtype), Host, flush, ids);
    }
  }

  lemma {:induction false} AnsweredAllOk(r: Reply, qs: seq<ParsedQuestion>, regs: seq<Registered>, probe: bool,
                                         flush: bool)
    requires ReplyOk(r, IdsOf(regs))
    ensures ReplyOk(AnsweredAll(r, qs, regs, probe, flush), IdsOf(regs))
    decreases |qs|
  {
    if qs == [] {
    } else {
      AnsweredOk(r, qs[0], regs, probe, flush);
      AnsweredAllOk(Answered(r, qs[0], ServiceOf(qs[0], regs), probe, flush), qs[1..], regs, probe, flush);
    }
  }

  /** The service that a question names; `stuck` if it names one that is not registered. */
  method FindFor(q: ParsedQuestion, regs: seq<Registered>) returns (svc: MaybeId, stuck: bool)
    ensures svc == ServiceOf(q, regs) && stuck == !Answerable(q, regs)
  {
    svc, stuck := NoId, false;
    if q.service.Str? && q.proto.Str? {
      svc := GetServiceItem(regs, q.service.s, q.proto.s);
      stuck := svc.NoId?;
    }
  }

  /** The loop of the response builder. It comes to its end because every question is answerable. */
  method AnswerQuestions(qs: seq<ParsedQuestion>, regs: seq<Registered>, probe: bool, flush: bool) returns (r: Reply)
    requires AllAnswerable(qs, regs)
    ensures r == AnsweredAll(Reply([], [], false, false), qs, regs, probe, flush)
  {
    r := Reply([], [], false, false);
    var i := 0;
    while i < |qs|
      invariant 0 <= i <= |qs|
      invariant AnsweredAll(r, qs[i..], regs, probe, flush)
             == AnsweredAll(Reply([], [], false, false), qs, regs, probe, flush)
      decreases |qs| - i
    {
      var svc, stuck := FindFor(qs[i], regs);
      if stuck {
        assert false;
        continue;
      }
      assert qs[i..][1..] == qs[i + 1..];
      r := Answered(r, qs[i], svc, probe, flush);
      i := i + 1;
    }
  }

  /** The response builder; what it schedules as a shared response is a packet that the queue can take. */
  method CreateAnswer(qs: seq<ParsedQuestion>, regs: seq<Registered>, c: Slot, probe: bool, flush: bool,
                      distributed: bool)
    returns (r: Reply, p: Packet)
    requires AllAnswerable(qs, regs)
    ensures r == AnsweredAll(Reply([], [], false, false), qs, regs, probe, flush)
    ensures r.shared ==>
      Response(p, IdsOf(regs)) && p.pcb == c && p.answers == r.answers && p.additional == r.additional
  {
    r := AnswerQuestions(qs, regs, probe, flush);
    AnsweredAllOk(Reply([], [], false, false), qs, regs, probe, flush);
    p := Packet(0, c, 0, false, distributed, [], r.answers, [], r.additional);
  }
}
