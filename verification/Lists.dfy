/** The loops over answer and question lists. */
module Lists {
  import opened TxQueue
  import opened Packets
  import opened Pcbs

  /** Adds an answer unless the list has one of its type and service. */
  method AllocAnswer(list: seq<Ans>, kind: Kind, about: Ref, flush: bool) returns (r: seq<Ans>)
    ensures r == AddAnswer(list, kind, about, flush)
  {
    for i := 0 to |list|
      invariant forall k :: 0 <= k < i ==> list[k].kind != kind || list[k].about != about
    {
      if list[i].kind == kind && list[i].about == about {
        return list;
      }
    }
    return list + [Ans(kind, about, flush)];
  }

  method AllocService(list: seq<Ans>, s: nat) returns (r: seq<Ans>)
    ensures r == AddService(list, s)
  {
    r := AllocAnswer(list, SDPTR, Service(s), false);
    r := AllocAnswer(r, PTR, Service(s), false);
    r := AllocAnswer(r, SRV, Service(s), true);
    r := AllocAnswer(r, TXT, Service(s), true);
  }

  method AllocServices(list: seq<Ans>, svcs: seq<nat>) returns (r: seq<Ans>)
    ensures r == AddServices(list, svcs)
  {
    r := list;
    for i := 0 to |svcs|
      invariant AddServices(r, svcs[i..]) == AddServices(list, svcs)
    {
      assert svcs[i..][1..] == svcs[i + 1..];
      r := AllocService(r, svcs[i]);
    }
  }

  method AllocAddresses(list: seq<Ans>) returns (r: seq<Ans>)
    ensures r == AddAddresses(list)
  {
    r := AllocAnswer(list, A, Host, true);
    r := AllocAnswer(r, AAAA, Host, true);
  }

  /** Takes the first answer of that type and service out: at the head, or behind the element before it. */
  method DeallocAnswer(list: seq<Ans>, kind: Kind, about: Ref) returns (r: seq<Ans>)
    ensures r == DropAnswer(list, kind, about)
  {
    if |list| == 0 {
      return list;
    }
    if list[0].kind == kind && list[0].about == about {
      return list[1..];
    }
    var done, rest := list[..1], list[1..];
    while |rest| > 0
      invariant list == done + rest && done + DropAnswer(rest, kind, about) == DropAnswer(list, kind, about)
      decreases |rest|
    {
      if rest[0].kind == kind && rest[0].about == about {
        return done + rest[1..];
      }
      KeepOne(done, rest, DropAnswer(rest[1..], kind, about));
      done, rest := done + [rest[0]], rest[1..];
    }
    return list;
  }

  /** The cursor of a list moves on by one element. */
  lemma KeepOne(done: seq<Ans>, rest: seq<Ans>, tail: seq<Ans>)
    requires rest != []
    ensures done + [rest[0]] + rest[1..] == done + rest
    ensures done + [rest[0]] + tail == done + ([rest[0]] + tail)
  {
  }

  /** Takes all answers about a service out: first those at the head, then those behind another element. */
  method DeallocServiceAnswers(list: seq<Ans>, s: nat) returns (r: seq<Ans>)
    ensures r == Without(list, s)
  {
    r := list;
    while |r| > 0 && r[0].about == Service(s)
      invariant Without(r, s) == Without(list, s)
      decreases |r|
    {
      r := r[1..];
    }
    if |r| > 0 {
      r := DeallocBehind(r, s);
    }
  }

  /** The rest of the list, behind a first element that stays. */
  method DeallocBehind(list: seq<Ans>, s: nat) returns (r: seq<Ans>)
    requires |list| > 0 && list[0].about != Service(s)
    ensures r == Without(list, s)
  {
    var done, rest := list[..1], list[1..];
    while |rest| > 0
      invariant done + Without(rest, s) == Without(list, s)
      decreases |rest|
    {
      if rest[0].about != Service(s) {
        KeepOne(done, rest, Without(rest[1..], s));
        done := done + [rest[0]];
      }
      rest := rest[1..];
    }
    return done;
  }

  method QuestionExists(about: Ref, asks: seq<Ask>) returns (found: bool)
    ensures found == Asked(asks, about)
  {
    for i := 0 to |asks|
      invariant forall k :: 0 <= k < i ==> asks[k].about != about
    {
      if asks[i].about == about {
        return true;
      }
    }
    return false;
  }

  /** The first probe packet of a PCB. */
  method CreateProbePacket(id: nat, c: Slot, at: nat, svcs: seq<nat>, ip: bool, v4: bool, v6: bool) returns (p: Packet)
    ensures p == ProbePacket(id, c, at, svcs, ip, v4, v6)
  {
    var asks: seq<Ask>, servers: seq<Ans> := [], [];
    for i := 0 to |svcs|
      invariant AddProbes(Probe(asks, servers), svcs[i..], true) == AddProbes(Probe([], []), svcs, true)
    {
      assert svcs[i..][1..] == svcs[i + 1..];
      var found := QuestionExists(Service(svcs[i]), asks);
      if !found {
        asks := asks + [Ask(Service(svcs[i]), true)];
        servers := AllocAnswer(servers, SRV, Service(svcs[i]), false);
      }
    }
    if ip {
      var found := QuestionExists(Host, asks);
      if !found {
        asks := asks + [Ask(Host, true)];
      }
      if v4 {
        servers := AllocAnswer(servers, A, Host, false);
      }
      if v6 {
        servers := AllocAnswer(servers, AAAA, Host, false);
      }
    }
    return Packet(id, c, at, false, false, asks, [], servers, []);
  }

  /** The answers of the announcement that follows a probe. */
  method CreateAnnounceFromProbe(servers: seq<Ans>) returns (r: seq<Ans>)
    ensures r == AnnounceFromProbe([], servers)
  {
    r := [];
    for i := 0 to |servers|
      invariant AnnounceFromProbe(r, servers[i..]) == AnnounceFromProbe([], servers)
    {
      assert servers[i..][1..] == servers[i + 1..];
      var s := servers[i];
      if s.kind == SRV {
        if s.about.Service? {
          r := AllocService(r, s.about.id);
        }
      } else if s.kind == A || s.kind == AAAA {
        r := AllocAnswer(r, s.kind, Host, true);
      }
    }
  }

  method Contains(list: seq<nat>, s: nat) returns (found: bool)
    ensures found <==> s in list
  {
    for i := 0 to |list|
      invariant s !in list[..i]
    {
      if list[i] == s {
        return true;
      }
    }
    return false;
  }

  /** The services that are not probed for yet. */
  method NewServices(svcs: seq<nat>, probed: seq<nat>) returns (r: seq<nat>)
    ensures r == NewOnes(svcs, probed)
  {
    r := [];
    for j := 0 to |svcs|
      invariant r + NewOnes(svcs[j..], probed) == NewOnes(svcs, probed)
    {
      assert svcs[j..][1..] == svcs[j + 1..];
      var found := Contains(probed, svcs[j]);
      if !found {
        r := r + [svcs[j]];
      }
    }
  }
}
