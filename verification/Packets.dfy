/** The contents of probes, announcements and responses. */
module Packets {
  import opened TxQueue

  predicate NoDup<T(==)>(s: seq<T>) {
    forall i, j :: 0 <= i < j < |s| ==> s[i] != s[j]
  }

  predicate AllIn<T(==)>(s: seq<T>, t: seq<T>) {
    forall k :: 0 <= k < |s| ==> s[k] in t
  }

  // ---------------------------------------------------------------------------------------------------------
  // Answer lists

  predicate Has(list: seq<Ans>, kind: Kind, about: Ref) {
    exists k :: 0 <= k < |list| && list[k].kind == kind && list[k].about == about
  }

  /** No two answers of a list are of the same type and about the same service. */
  predicate DupFree(list: seq<Ans>) {
    forall i, j :: 0 <= i < j < |list| ==> list[i].kind != list[j].kind || list[i].about != list[j].about
  }

  /** An answer goes to the end of the list, unless the list has one of its type and service. */
  function AddAnswer(list: seq<Ans>, kind: Kind, about: Ref, flush: bool): (r: seq<Ans>)
    ensures list <= r && r != []
  {
    if Has(list, kind, about) then list else list + [Ans(kind, about, flush)]
  }

  /** The four records that announce a service. */
  function AddService(list: seq<Ans>, s: nat): (r: seq<Ans>)
    ensures list <= r && r != []
  {
    AddAnswer(AddAnswer(AddAnswer(AddAnswer(list, SDPTR, Service(s), false), PTR, Service(s), false),
                        SRV, Service(s), true), TXT, Service(s), true)
  }

  function AddServices(list: seq<Ans>, svcs: seq<nat>): (r: seq<Ans>)
    ensures list <= r && (svcs != [] ==> r != [])
    decreases |svcs|
  {
    if svcs == [] then list else AddServices(AddService(list, svcs[0]), svcs[1..])
  }

  function AddAddresses(list: seq<Ans>): (r: seq<Ans>)
    ensures list <= r && r != []
  {
    AddAnswer(AddAnswer(list, A, Host, true), AAAA, Host, true)
  }

  /** The answers are about the host or about one of the services. */
  predicate RefsIn(list: seq<Ans>, services: seq<nat>) {
    forall k :: 0 <= k < |list| ==> list[k].about == Host || list[k].about.id in services
  }

  /** A list of answers without repetition about what there is. */
  predicate Sound(list: seq<Ans>, services: seq<nat>) {
    DupFree(list) && RefsIn(list, services)
  }

  lemma AddAnswerHas(list: seq<Ans>, kind: Kind, about: Ref, flush: bool, k: Kind, a: Ref)
    ensures Has(AddAnswer(list, kind, about, flush), k, a) <==> Has(list, k, a) || (k == kind && a == about)
  {
    var r := AddAnswer(list, kind, about, flush);
    assert !Has(list, kind, about) ==> r[|list|] == Ans(kind, about, flush);
    assert forall i :: 0 <= i < |list| ==> r[i] == list[i];
  }

  lemma AddAnswerSound(list: seq<Ans>, kind: Kind, about: Ref, flush: bool, services: seq<nat>)
    requires Sound(list, services) && (about == Host || about.id in services)
    ensures Sound(AddAnswer(list, kind, about, flush), services)
  {
  }

  lemma AddServiceSound(list: seq<Ans>, s: nat, services: seq<nat>)
    requires Sound(list, services) && s in services
    ensures Sound(AddService(list, s), services)
  {
    var l1 := AddAnswer(list, SDPTR, Service(s), false);
    AddAnswerSound(list, SDPTR, Service(s), false, services);
    var l2 := AddAnswer(l1, PTR, Service(s), false);
    AddAnswerSound(l1, PTR, Service(s), false, services);
    var l3 := AddAnswer(l2, SRV, Service(s), true);
    AddAnswerSound(l2, SRV, Service(s), true, services);
    AddAnswerSound(l3, TXT, Service(s), true, services);
  }

  lemma {:induction false} AddServicesSound(list: seq<Ans>, svcs: seq<nat>, services: seq<nat>)
    requires Sound(list, services) && AllIn(svcs, services)
    ensures Sound(AddServices(list, svcs), services)
    decreases |svcs|
  {
    if svcs == [] {
    } else {
      assert svcs[0] in services;
      AddServiceSound(list, svcs[0], services);
      AddServicesSound(AddService(list, svcs[0]), svcs[1..], services);
    }
  }

  lemma AddAddressesSound(list: seq<Ans>, services: seq<nat>)
    requires Sound(list, services)
    ensures Sound(AddAddresses(list), services)
  {
    AddAnswerSound(list, A, Host, true, services);
    AddAnswerSound(AddAnswer(list, A, Host, true), AAAA, Host, true, services);
  }

  /** The first answer of that type and service is taken out. */
  function DropAnswer(list: seq<Ans>, kind: Kind, about: Ref): seq<Ans> {
    if list == [] then []
    else if list[0].kind == kind && list[0].about == about then list[1..]
    else [list[0]] + DropAnswer(list[1..], kind, about)
  }

  /** All answers about a service are taken out; the others keep their order. */
  function Without(list: seq<Ans>, s: nat): seq<Ans> {
    if list == [] then []
    else if list[0].about == Service(s) then Without(list[1..], s)
    else [list[0]] + Without(list[1..], s)
  }

  lemma SoundTail(list: seq<Ans>, services: seq<nat>)
    requires Sound(list, services) && list != []
    ensures Sound(list[1..], services)
    ensures forall a :: a in list[1..] ==> a.kind != list[0].kind || a.about != list[0].about
  {
    assert forall k :: 0 <= k < |list[1..]| ==> list[1..][k] == list[k + 1];
  }

  lemma SoundCons(a: Ans, list: seq<Ans>, services: seq<nat>)
    requires Sound(list, services) && (a.about == Host || a.about.id in services)
    requires forall b :: b in list ==> b.kind != a.kind || b.about != a.about
    ensures Sound([a] + list, services)
  {
    assert forall k :: 0 <= k < |list| ==> list[k] in list;
  }

  lemma {:induction false} DropAnswerIn(list: seq<Ans>, kind: Kind, about: Ref)
    ensures forall a :: a in DropAnswer(list, kind, about) ==> a in list
  {
    if list == [] {
    } else {
      DropAnswerIn(list[1..], kind, about);
      assert forall a :: a in list[1..] ==> a in list;
    }
  }

  lemma {:induction false} WithoutIn(list: seq<Ans>, s: nat)
    ensures forall a :: a in Without(list, s) <==> a in list && a.about != Service(s)
  {
    if list == [] {
    } else {
      WithoutIn(list[1..], s);
      assert list == [list[0]] + list[1..];
    }
  }

  lemma {:induction false} DropAnswerSound(list: seq<Ans>, kind: Kind, about: Ref, services: seq<nat>)
    requires Sound(list, services)
    ensures Sound(DropAnswer(list, kind, about), services)
  {
    if list == [] {
    } else {
      SoundTail(list, services);
      if list[0].kind != kind || list[0].about != about {
        DropAnswerSound(list[1..], kind, about, services);
        DropAnswerIn(list[1..], kind, about);
        SoundCons(list[0], DropAnswer(list[1..], kind, about), services);
      }
    }
  }

  lemma {:induction false} WithoutSound(list: seq<Ans>, s: nat, services: seq<nat>, rest: seq<nat>)
    requires Sound(list, services) && forall x :: x in services && x != s ==> x in rest
    ensures Sound(Without(list, s), rest)
  {
    if list == [] {
    } else {
      SoundTail(list, services);
      WithoutSound(list[1..], s, services, rest);
      WithoutIn(list[1..], s);
      if list[0].about != Service(s) {
        SoundCons(list[0], Without(list[1..], s), rest);
      }
    }
  }

  lemma {:induction false} WithoutNothing(list: seq<Ans>, s: nat)
    requires forall k :: 0 <= k < |list| ==> list[k].about != Service(s)
    ensures Without(list, s) == list
  {
    if list == [] {
    } else {
      WithoutNothing(list[1..], s);
    }
  }

  lemma {:induction false} WithoutAppend(a: seq<Ans>, b: seq<Ans>, s: nat)
    ensures Without(a + b, s) == Without(a, s) + Without(b, s)
  {
    if a == [] {
      assert a + b == b;
    } else {
      assert (a + b)[1..] == a[1..] + b;
      WithoutAppend(a[1..], b, s);
    }
  }

  // ---------------------------------------------------------------------------------------------------------
  // Probes

  datatype Probe = Probe(asks: seq<Ask>, servers: seq<Ans>)

  predicate Asked(asks: seq<Ask>, about: Ref) {
    exists k :: 0 <= k < |asks| && asks[k].about == about
  }

  /** One service to probe for; one that is asked for already is passed over. */
  function AddProbe(p: Probe, s: nat, first: bool): Probe {
    if Asked(p.asks, Service(s)) then p
    else Probe(p.asks + [Ask(Service(s), first)], AddAnswer(p.servers, SRV, Service(s), false))
  }

  function AddProbes(p: Probe, svcs: seq<nat>, first: bool): Probe
    decreases |svcs|
  {
    if svcs == [] then p else AddProbes(AddProbe(p, svcs[0], first), svcs[1..], first)
  }

  /** The host name, with the address records of the protocols that are up on the interface. */
  function AddHost(p: Probe, first: bool, v4: bool, v6: bool): Probe {
    var asks := if Asked(p.asks, Host) then p.asks else p.asks + [Ask(Host, first)];
    var servers := if v4 then AddAnswer(p.servers, A, Host, false) else p.servers;
    Probe(asks, if v6 then AddAnswer(servers, AAAA, Host, false) else servers)
  }

  function ProbeFor(svcs: seq<nat>, ip: bool, first: bool, v4: bool, v6: bool): Probe {
    var p := AddProbes(Probe([], []), svcs, first);
    if ip then AddHost(p, first, v4, v6) else p
  }

  function AsksFor(svcs: seq<nat>, ip: bool, first: bool): (r: seq<Ask>)
    ensures |r| == |svcs| + (if ip then 1 else 0)
    ensures forall k :: 0 <= k < |svcs| ==> r[k] == Ask(Service(svcs[k]), first)
    ensures ip ==> r[|svcs|] == Ask(Host, first)
  {
    seq(|svcs|, k requires 0 <= k < |svcs| => Ask(Service(svcs[k]), first)) + (if ip then [Ask(Host, first)] else [])
  }

  function Srvs(svcs: seq<nat>): (r: seq<Ans>)
    ensures |r| == |svcs|
    ensures forall k :: 0 <= k < |svcs| ==> r[k] == Ans(SRV, Service(svcs[k]), false)
  {
    seq(|svcs|, k requires 0 <= k < |svcs| => Ans(SRV, Service(svcs[k]), false))
  }

  function HostAnswers(v4: bool, v6: bool, flush: bool): seq<Ans> {
    (if v4 then [Ans(A, Host, flush)] else []) + (if v6 then [Ans(AAAA, Host, flush)] else [])
  }

  lemma HostsSplit(list: seq<Ans>, v6: bool, flush: bool)
    ensures list + [Ans(A, Host, flush)] + HostAnswers(false, v6, flush) == list + HostAnswers(true, v6, flush)
    ensures list + [Ans(AAAA, Host, flush)] == list + HostAnswers(false, true, flush)
    ensures list == list + HostAnswers(false, false, flush)
  {
    assert [Ans(A, Host, flush)] + HostAnswers(false, v6, flush) == HostAnswers(true, v6, flush);
    assert HostAnswers(false, true, flush) == [Ans(AAAA, Host, flush)];
  }

  lemma AddNew(list: seq<Ans>, kind: Kind, about: Ref, flush: bool)
    requires forall k :: 0 <= k < |list| ==> list[k].about != about || list[k].kind != kind
    ensures AddAnswer(list, kind, about, flush) == list + [Ans(kind, about, flush)]
  {
  }

  lemma AddHostExact(asks: seq<Ask>, servers: seq<Ans>, first: bool, v4: bool, v6: bool)
    requires !Asked(asks, Host) && forall k :: 0 <= k < |servers| ==> servers[k].about != Host
    ensures AddHost(Probe(asks, servers), first, v4, v6)
         == Probe(asks + [Ask(Host, first)], servers + HostAnswers(v4, v6, false))
  {
    HostsSplit(servers, v6, false);
    var mid := if v4 then servers + [Ans(A, Host, false)] else servers;
    AddNew(servers, A, Host, false);
    AddNew(mid, AAAA, Host, false);
    HostsSplit(mid, v6, false);
  }

  lemma {:induction false} AddProbesExact(done: seq<nat>, svcs: seq<nat>, first: bool)
    requires NoDup(done + svcs)
    ensures AddProbes(Probe(AsksFor(done, false, first), Srvs(done)), svcs, first)
         == Probe(AsksFor(done + svcs, false, first), Srvs(done + svcs))
    decreases |svcs|
  {
    if svcs == [] {
      assert done + svcs == done;
    } else {
      var s := svcs[0];
      assert done + svcs == done + [s] + svcs[1..] && (done + svcs)[|done|] == s;
      assert forall k :: 0 <= k < |done| ==> done[k] == (done + svcs)[k];
      assert AsksFor(done, false, first) + [Ask(Service(s), first)] == AsksFor(done + [s], false, first);
      assert Srvs(done) + [Ans(SRV, Service(s), false)] == Srvs(done + [s]);
      AddProbesExact(done + [s], svcs[1..], first);
    }
  }

  /** A probe asks exactly once for each service and for the host, and proposes one SRV record for each service. */
  lemma ProbeExact(svcs: seq<nat>, ip: bool, first: bool, v4: bool, v6: bool)
    requires NoDup(svcs)
    ensures ProbeFor(svcs, ip, first, v4, v6)
         == Probe(AsksFor(svcs, ip, first), Srvs(svcs) + (if ip then HostAnswers(v4, v6, false) else []))
  {
    assert [] + svcs == svcs;
    AddProbesExact([], svcs, first);
    assert AsksFor([], false, first) == [] && Srvs([]) == [];
    assert AsksFor(svcs, false, first) + [Ask(Host, first)] == AsksFor(svcs, true, first);
    AddHostExact(AsksFor(svcs, false, first), Srvs(svcs), first, v4, v6);
    assert Srvs(svcs) + [] == Srvs(svcs);
  }

  // ---------------------------------------------------------------------------------------------------------
  // Announcements

  function FromProbe(list: seq<Ans>, server: Ans): seq<Ans> {
    match server.kind
    case SRV => if server.about.Service? then AddService(list, server.about.id) else list
    case A => AddAnswer(list, A, Host, true)
    case AAAA => AddAnswer(list, AAAA, Host, true)
    case _ => list
  }

  /** The announcement that a probe turns into. */
  function AnnounceFromProbe(list: seq<Ans>, servers: seq<Ans>): seq<Ans>
    decreases |servers|
  {
    if servers == [] then list else AnnounceFromProbe(FromProbe(list, servers[0]), servers[1..])
  }

  function Four(s: nat): seq<Ans> {
    [Ans(SDPTR, Service(s), false), Ans(PTR, Service(s), false), Ans(SRV, Service(s), true), Ans(TXT, Service(s), true)]
  }

  function FourEach(svcs: seq<nat>): seq<Ans> {
    if svcs == [] then [] else Four(svcs[0]) + FourEach(svcs[1..])
  }

  lemma AddServiceExact(list: seq<Ans>, s: nat)
    requires forall k :: 0 <= k < |list| ==> list[k].about != Service(s)
    ensures AddService(list, s) == list + Four(s)
  {
    var l1 := AddAnswer(list, SDPTR, Service(s), false);
    assert l1 == list + [Ans(SDPTR, Service(s), false)];
    var l2 := AddAnswer(l1, PTR, Service(s), false);
    assert l2 == l1 + [Ans(PTR, Service(s), false)];
    var l3 := AddAnswer(l2, SRV, Service(s), true);
    assert l3 == l2 + [Ans(SRV, Service(s), true)];
    assert AddAnswer(l3, TXT, Service(s), true) == l3 + [Ans(TXT, Service(s), true)];
  }

  predicate Apart(list: seq<Ans>, svcs: seq<nat>) {
    forall k :: 0 <= k < |list| ==> list[k].about == Host || list[k].about.id !in svcs
  }

  lemma ApartStep(list: seq<Ans>, svcs: seq<nat>)
    requires svcs != [] && NoDup(svcs) && Apart(list, svcs)
    ensures Apart(list + Four(svcs[0]), svcs[1..]) && NoDup(svcs[1..])
    ensures AddService(list, svcs[0]) == list + Four(svcs[0])
  {
    assert forall k :: 0 <= k < |svcs[1..]| ==> svcs[1..][k] == svcs[k + 1];
    assert forall k :: 0 <= k < 4 ==> Four(svcs[0])[k].about == Service(svcs[0]);
    AddServiceExact(list, svcs[0]);
  }

  lemma AnnounceStep(list: seq<Ans>, a: Ans, rest: seq<Ans>)
    ensures AnnounceFromProbe(list, [a] + rest) == AnnounceFromProbe(FromProbe(list, a), rest)
  {
    assert ([a] + rest)[1..] == rest;
  }

  lemma {:induction false} AnnounceServices(list: seq<Ans>, svcs: seq<nat>, hosts: seq<Ans>)
    requires NoDup(svcs) && Apart(list, svcs)
    ensures AnnounceFromProbe(list, Srvs(svcs) + hosts) == AnnounceFromProbe(list + FourEach(svcs), hosts)
    decreases |svcs|
  {
    if svcs == [] {
      assert Srvs(svcs) + hosts == hosts && list + FourEach(svcs) == list;
    } else {
      ApartStep(list, svcs);
      assert Srvs(svcs) + hosts == [Ans(SRV, Service(svcs[0]), false)] + (Srvs(svcs[1..]) + hosts);
      AnnounceStep(list, Ans(SRV, Service(svcs[0]), false), Srvs(svcs[1..]) + hosts);
      AnnounceServices(list + Four(svcs[0]), svcs[1..], hosts);
      FourStep(list, svcs);
    }
  }

  lemma FourStep(list: seq<Ans>, svcs: seq<nat>)
    requires svcs != []
    ensures list + Four(svcs[0]) + FourEach(svcs[1..]) == list + FourEach(svcs)
  {
    var f := Four(svcs[0]);
    assert FourEach(svcs) == f + FourEach(svcs[1..]);
  }

  lemma {:induction false} FourEachAbout(svcs: seq<nat>, k: nat)
    requires k < |FourEach(svcs)|
    ensures FourEach(svcs)[k].about.Service? && FourEach(svcs)[k].about.id in svcs
  {
    if k < 4 {
    } else {
      FourEachAbout(svcs[1..], k - 4);
    }
  }

  lemma AnnounceAAAA(list: seq<Ans>, v6: bool)
    requires forall k :: 0 <= k < |list| ==> list[k].about != Host || list[k].kind != AAAA
    ensures AnnounceFromProbe(list, HostAnswers(false, v6, false)) == list + HostAnswers(false, v6, true)
  {
    if v6 {
      AddNew(list, AAAA, Host, true);
      AnnounceStep(list, Ans(AAAA, Host, false), []);
    }
  }

  lemma AnnounceHosts(list: seq<Ans>, v4: bool, v6: bool)
    requires forall k :: 0 <= k < |list| ==> list[k].about != Host
    ensures AnnounceFromProbe(list, HostAnswers(v4, v6, false)) == list + HostAnswers(v4, v6, true)
  {
    if v4 {
      AddNew(list, A, Host, true);
      AnnounceStep(list, Ans(A, Host, false), HostAnswers(false, v6, false));
      HostsSplit([], v6, false);
      HostsSplit(list, v6, true);
      assert [] + [Ans(A, Host, false)] == [Ans(A, Host, false)];
      assert [] + HostAnswers(true, v6, false) == HostAnswers(true, v6, false);
      AnnounceAAAA(list + [Ans(A, Host, true)], v6);
    } else {
      AnnounceAAAA(list, v6);
    }
  }

  /**
   * The announcement made from a probe has SDPTR, PTR, SRV and TXT once for each probed service, in order, and
   * then the addresses as they were probed for.
   */
  lemma AnnounceExact(svcs: seq<nat>, v4: bool, v6: bool)
    requires NoDup(svcs)
    ensures AnnounceFromProbe([], Srvs(svcs) + HostAnswers(v4, v6, false)) == FourEach(svcs) + HostAnswers(v4, v6, true)
    ensures DupFree(AnnounceFromProbe([], Srvs(svcs) + HostAnswers(v4, v6, false)))
  {
    AnnounceServices([], svcs, HostAnswers(v4, v6, false));
    assert [] + FourEach(svcs) == FourEach(svcs);
    forall k | 0 <= k < |FourEach(svcs)|
      ensures FourEach(svcs)[k].about != Host
    {
      FourEachAbout(svcs, k);
    }
    AnnounceHosts(FourEach(svcs), v4, v6);
    AnnounceDupFree([], Srvs(svcs) + HostAnswers(v4, v6, false));
  }

  lemma {:induction false} AnnounceDupFree(list: seq<Ans>, servers: seq<Ans>)
    requires DupFree(list)
    ensures DupFree(AnnounceFromProbe(list, servers))
    decreases |servers|
  {
    if servers == [] {
    } else {
      AnnounceDupFree(FromProbe(list, servers[0]), servers[1..]);
    }
  }

  // ---------------------------------------------------------------------------------------------------------
  // Services to probe for

  function NewOnes(svcs: seq<nat>, probed: seq<nat>): (r: seq<nat>)
    ensures forall s :: s in r <==> s in svcs && s !in probed
    ensures NoDup(svcs) ==> NoDup(r)
  {
    if svcs == [] then []
    else
      var t := svcs[1..];
      assert forall k :: 0 <= k < |t| ==> t[k] == svcs[k + 1];
      var r := NewOnes(t, probed);
      assert forall k :: 0 <= k < |r| ==> r[k] in t;
      if svcs[0] in probed then r else [svcs[0]] + r
  }

  /** Restarting while probing goes for the union of the new and the old services, each once, the new ones first. */
  lemma UnionNoDup(svcs: seq<nat>, probed: seq<nat>)
    requires NoDup(svcs) && NoDup(probed)
    ensures var r := NewOnes(svcs, probed) + probed; NoDup(r) && forall s :: s in r <==> s in svcs || s in probed
  {
    var n := NewOnes(svcs, probed);
    var r := n + probed;
    forall i, j | 0 <= i < j < |r|
      ensures r[i] != r[j]
    {
      if i < |n| <= j {
        assert n[i] !in probed && r[j] == probed[j - |n|];
      }
    }
  }

  /** A service is taken out of a list that has it at most once. */
  function Minus(svcs: seq<nat>, s: nat): seq<nat> {
    if svcs == [] then [] else if svcs[0] == s then svcs[1..] else [svcs[0]] + Minus(svcs[1..], s)
  }

  lemma {:induction false} MinusOk(svcs: seq<nat>, s: nat)
    requires NoDup(svcs)
    ensures NoDup(Minus(svcs, s)) && forall x :: x in Minus(svcs, s) <==> x in svcs && x != s
  {
    if svcs == [] {
    } else {
      NoDupTail(svcs);
      if svcs[0] != s {
        MinusOk(svcs[1..], s);
        NoDupCons(svcs[0], Minus(svcs[1..], s));
      }
      assert svcs == [svcs[0]] + svcs[1..];
    }
  }

  lemma {:induction false} MinusLength(svcs: seq<nat>, s: nat)
    ensures s in svcs ==> |Minus(svcs, s)| == |svcs| - 1
    ensures s !in svcs ==> Minus(svcs, s) == svcs
  {
    if svcs == [] {
    } else {
      MinusLength(svcs[1..], s);
    }
  }

  lemma NoDupTail(svcs: seq<nat>)
    requires svcs != [] && NoDup(svcs)
    ensures NoDup(svcs[1..]) && svcs[0] !in svcs[1..]
  {
    assert forall k :: 0 <= k < |svcs[1..]| ==> svcs[1..][k] == svcs[k + 1];
  }

  lemma NoDupCons(s: nat, svcs: seq<nat>)
    requires NoDup(svcs) && s !in svcs
    ensures NoDup([s] + svcs)
  {
  }
}
