/** The steps that users, received packets and interfaces cause. */
module Events {
  import opened TxQueue
  import opened Packets
  import opened Pcbs
  import opened Responder
  import opened Steps
  import opened Sending

  // ---------------------------------------------------------------------------------------------------------
  // Announcing

  /** Announces services, and with `ip` the addresses, on one PCB; a probing PCB starts over with them instead. */
  function AnnouncePcb(s: State, c: Slot, svcs: seq<nat>, ip: bool, o: Oracle): (t: State)
    requires |s.pcbs| == 6
    ensures |t.pcbs| == 6
  {
    var pcb := s.pcbs[c];
    if !pcb.sock then s
    else if IsProbing(pcb.state) then InitProbe(s, c, svcs, ip, o)
    else if IsAnnouncing(pcb.state) then
      var k := First(s.queue, c);
      if k == |s.queue| then s
      else
        s.(pcbs := s.pcbs[c := pcb.(state := ANNOUNCE_1)], queue := s.queue[k := AnnounceIn(s.queue[k], svcs, ip)])
    else if pcb.state == RUNNING then
      s.(pcbs := s.pcbs[c := pcb.(state := ANNOUNCE_1)],
         queue := Insert(s.queue, NewAnnouncement(s, c, svcs, ip, o)))
    else s
  }

  function NewAnnouncement(s: State, c: Slot, svcs: seq<nat>, ip: bool, o: Oracle): (p: Packet)
    ensures p.pcb == c && !p.queued && p.sendAt == s.now && p.id !in Ids(s.queue)
  {
    AnnouncePacket(Unused(o.Id(c), s.queue), c, s.now, svcs, ip)
  }

  lemma {:induction false} ReplaceThins(q: seq<Packet>, k: nat, p: Packet)
    requires k < |q| && SameTag(p, q[k])
    ensures Thins(q[k := p], q)
  {
    var r := q[k := p];
    if k == 0 {
      assert r[1..] == q[1..];
      SelfThins(q[1..]);
    } else {
      assert r[1..] == q[1..][k - 1 := p];
      ReplaceThins(q[1..], k - 1, p);
    }
  }

  lemma {:induction false} SelfThins(q: seq<Packet>)
    ensures Thins(q, q)
  {
    if q == [] {
    } else {
      SelfThins(q[1..]);
    }
  }

  lemma ThinQueue(s: State, q: seq<Packet>)
    requires QueueOk(s) && Thins(q, s.queue)
    ensures QueueOk(s.(queue := q))
  {
    ThinsGood(q, s.queue, s.now);
    SubTrans(QueuedIds(q), QueuedIds(s.queue), s.actions);
  }

  lemma {:induction false} FirstMine(q: seq<Packet>, c: Slot)
    ensures Mine(q, c) == [] <==> First(q, c) == |q|
    ensures First(q, c) < |q| ==> Mine(q, c)[0] == q[First(q, c)]
  {
    if q == [] || q[0].pcb == c {
    } else {
      FirstMine(q[1..], c);
    }
  }

  lemma ChangeFirst(s: State, c: Slot, p: Packet)
    requires QueueOk(s) && First(s.queue, c) < |s.queue| && SameTag(p, s.queue[First(s.queue, c)])
    ensures var q := s.queue[First(s.queue, c) := p];
      && QueueOk(s.(queue := q))
      && Mine(s.queue, c) != [] && Mine(s.queue, c)[0] == s.queue[First(s.queue, c)]
      && Mine(q, c) == Mine(s.queue, c)[0 := p]
      && forall d: Slot :: d != c ==> Mine(q, d) == Mine(s.queue, d)
  {
    var k := First(s.queue, c);
    FirstMine(s.queue, c);
    ReplaceThins(s.queue, k, p);
    ThinQueue(s, s.queue[k := p]);
    var j := MineUpdate(s.queue, k, p, c);
    forall d: Slot | d != c
      ensures Mine(s.queue[k := p], d) == Mine(s.queue, d)
    {
      var i := MineUpdate(s.queue, k, p, d);
    }
  }

  lemma AnnounceMore(s: State, c: Slot, svcs: seq<nat>, ip: bool, o: Oracle)
    requires Inv(s) && AllIn(svcs, s.services) && IsAnnouncing(s.pcbs[c].state)
    ensures Inv(AnnouncePcb(s, c, svcs, ip, o))
  {
    assert SlotOk(s, c);
    FirstMine(s.queue, c);
    AnnounceMoreOk(s.pcbs[c], Mine(s.queue, c), svcs, ip, s.services, Episode(s.log, c));
    ChangeFirst(s, c, AnnounceIn(s.queue[First(s.queue, c)], svcs, ip));
    Assembled(s, AnnouncePcb(s, c, svcs, ip, o), c);
  }

  /** A new packet of one PCB is scheduled. */
  lemma Scheduled(s: State, p: Packet)
    requires QueueOk(s) && !p.queued && p.sendAt >= s.now && p.id !in Ids(s.queue)
    ensures QueueOk(s.(queue := Insert(s.queue, p)))
    ensures forall d: Slot ::
      Mine(Insert(s.queue, p), d) == if d == p.pcb then Insert(Mine(s.queue, d), p) else Mine(s.queue, d)
  {
    InsertGood(s.queue, p, s.now);
    forall d: Slot
      ensures Mine(Insert(s.queue, p), d) == if d == p.pcb then Insert(Mine(s.queue, d), p) else Mine(s.queue, d)
    {
      InsertMine(s.queue, p, s.now, d);
    }
  }

  lemma AnnounceNew(s: State, c: Slot, svcs: seq<nat>, ip: bool, o: Oracle)
    requires Inv(s) && AllIn(svcs, s.services) && (svcs != [] || ip) && s.pcbs[c].state == RUNNING && s.pcbs[c].sock
    ensures Inv(AnnouncePcb(s, c, svcs, ip, o))
  {
    assert SlotOk(s, c);
    AnnounceNewOk(s.pcbs[c], Mine(s.queue, c), Unused(o.Id(c), s.queue), c, s.now, svcs, ip, s.services,
                  Episode(s.log, c));
    Scheduled(s, NewAnnouncement(s, c, svcs, ip, o));
    Assembled(s, AnnouncePcb(s, c, svcs, ip, o), c);
  }

  lemma AnnounceKeepsSocks(s: State, c: Slot, svcs: seq<nat>, ip: bool, o: Oracle)
    requires |s.pcbs| == 6
    ensures var t := AnnouncePcb(s, c, svcs, ip, o);
      t.services == s.services && t.main == s.main && forall d: Slot :: t.pcbs[d].sock == s.pcbs[d].sock
  {
  }

  lemma InitProbeInv(s: State, c: Slot, svcs: seq<nat>, ip: bool, o: Oracle)
    requires Inv(s) && Probeable(s, svcs, ip) && s.pcbs[c].sock
    ensures Inv(InitProbe(s, c, svcs, ip, o))
  {
    assert SlotOk(s, c);
    InitProbeOk(s, c, svcs, ip, o);
    Assembled(s, InitProbe(s, c, svcs, ip, o), c);
  }

  lemma AnnouncePcbOk(s: State, c: Slot, svcs: seq<nat>, ip: bool, o: Oracle)
    requires Inv(s) && Probeable(s, svcs, ip)
    ensures Inv(AnnouncePcb(s, c, svcs, ip, o))
  {
    if s.pcbs[c].sock {
      if IsProbing(s.pcbs[c].state) {
        InitProbeInv(s, c, svcs, ip, o);
      } else if IsAnnouncing(s.pcbs[c].state) {
        AnnounceMore(s, c, svcs, ip, o);
      } else if s.pcbs[c].state == RUNNING {
        AnnounceNew(s, c, svcs, ip, o);
      }
    }
  }

  function AnnounceFrom(s: State, c: nat, svcs: seq<nat>, ip: bool, o: Oracle): (t: State)
    requires |s.pcbs| == 6 && c <= 6
    ensures |t.pcbs| == 6
    decreases 6 - c
  {
    if c == 6 then s else AnnounceFrom(AnnouncePcb(s, c, svcs, ip, o), c + 1, svcs, ip, o)
  }

  lemma {:induction false} AnnounceFromOk(s: State, c: nat, svcs: seq<nat>, ip: bool, o: Oracle)
    requires Inv(s) && c <= 6 && Probeable(s, svcs, ip)
    ensures Inv(AnnounceFrom(s, c, svcs, ip, o))
    decreases 6 - c
  {
    if c == 6 {
    } else {
      AnnouncePcbOk(s, c, svcs, ip, o);
      AnnounceKeepsSocks(s, c, svcs, ip, o);
      AnnounceFromOk(AnnouncePcb(s, c, svcs, ip, o), c + 1, svcs, ip, o);
    }
  }

  // ---------------------------------------------------------------------------------------------------------
  // Received packets

  /** The packet as it goes into the queue. */
  function Outgoing(s: State, p: Packet, hint: nat, ms: nat): (q: Packet)
    ensures !q.queued && q.sendAt >= s.now && q.id !in Ids(s.queue) && q.pcb == p.pcb
    ensures forall services :: Response(p, services) ==> Response(q, services)
  {
    p.(id := Unused(hint, s.queue), sendAt := s.now + ms, queued := false)
  }

  /** A shared response is scheduled, which happens only on a PCB that is past probing. */
  function Respond(s: State, p: Packet, hint: nat, ms: nat): State {
    s.(queue := Insert(s.queue, Outgoing(s, p, hint, ms)))
  }

  lemma RespondInv(s: State, p: Packet, hint: nat, ms: nat)
    requires Inv(s) && Rank(s.pcbs[p.pcb].state) > Rank(PROBE_3) && Response(p, s.services)
    ensures Inv(Respond(s, p, hint, ms))
  {
    var c, q := p.pcb, Outgoing(s, p, hint, ms);
    assert SlotOk(s, c);
    RespondOk(s.pcbs[c], Mine(s.queue, c), q, s.services, Episode(s.log, c));
    Scheduled(s, q);
    Assembled(s, Respond(s, p, hint, ms), c);
  }

  function Suppress(s: State, c: Slot, kind: Kind, about: Ref): State {
    s.(queue := Suppressed(s.queue, c, kind, about))
  }

  lemma {:induction false} SuppressThins(q: seq<Packet>, c: Slot, kind: Kind, about: Ref)
    ensures Thins(Suppressed(q, c, kind, about), q)
  {
    if q == [] {
    } else {
      assert Suppressed(q, c, kind, about)[1..] == Suppressed(q[1..], c, kind, about);
      SuppressThins(q[1..], c, kind, about);
    }
  }

  lemma SuppressCons(p: Packet, q: seq<Packet>, c: Slot, kind: Kind, about: Ref)
    ensures Suppressed([p] + q, c, kind, about) == [SuppressIn(p, c, kind, about)] + Suppressed(q, c, kind, about)
  {
  }

  lemma {:induction false} SuppressMine(q: seq<Packet>, c: Slot, kind: Kind, about: Ref, d: Slot)
    ensures Mine(Suppressed(q, c, kind, about), d) == Suppressed(Mine(q, d), c, kind, about)
  {
    if q == [] {
    } else {
      assert Suppressed(q, c, kind, about)[1..] == Suppressed(q[1..], c, kind, about);
      SuppressMine(q[1..], c, kind, about, d);
      if q[0].pcb == d {
        SuppressCons(q[0], Mine(q[1..], d), c, kind, about);
      }
    }
  }

  lemma SuppressInv(s: State, c: Slot, kind: Kind, about: Ref)
    requires Inv(s)
    ensures Inv(Suppress(s, c, kind, about))
  {
    var t := Suppress(s, c, kind, about);
    SuppressThins(s.queue, c, kind, about);
    ThinQueue(s, t.queue);
    forall d: Slot
      ensures SlotOk(t, d)
    {
      assert SlotOk(s, d);
      SuppressMine(s.queue, c, kind, about, d);
      SuppressOk(s.pcbs[d], Mine(s.queue, d), c, kind, about, s.services, Episode(s.log, d));
    }
    LifeKept(s, t);
  }

  /** A lost probe is counted. */
  function Lost(s: State, c: Slot): State
    requires |s.pcbs| == 6
  {
    s.(pcbs := s.pcbs[c := s.pcbs[c].(failed := s.pcbs[c].failed + 1)])
  }

  lemma LostSlice(pcb: Pcb, mine: seq<Packet>, services: seq<nat>, episode: seq<nat>, n: nat)
    requires SliceOk(pcb, mine, services, episode)
    ensures SliceIn(services)(pcb.(failed := n), mine, episode)
  {
  }

  lemma LostInv(s: State, c: Slot)
    requires Inv(s)
    ensures Inv(Lost(s, c))
  {
    var t := Lost(s, c);
    assert SlotOk(s, c);
    LostSlice(s.pcbs[c], Mine(s.queue, c), s.services, Episode(s.log, c), s.pcbs[c].failed + 1);
    Assembled(s, t, c);
  }
}
