/** The steps of the responder, each with what it keeps. */
module Steps {
  import opened TxQueue
  import opened Packets
  import opened Pcbs
  import opened Responder

  lemma LifeKept(s: State, t: State)
    requires |s.pcbs| == |t.pcbs| == 6 && Lifecycle(s) && SameLife(s, t)
    ensures Lifecycle(t)
  {
    if InUse(s.pcbs) {
      var k :| 0 <= k < |s.pcbs| && s.pcbs[k].sock;
      assert t.pcbs[k].sock;
    }
    if InUse(t.pcbs) {
      var k :| 0 <= k < |t.pcbs| && t.pcbs[k].sock;
      assert s.pcbs[k].sock;
    }
  }

  // ---------------------------------------------------------------------------------------------------------
  // Probing on all PCBs

  function Forget(s: State, c: Slot): State
    requires |s.pcbs| == 6
  {
    s.(pcbs := s.pcbs[c := s.pcbs[c].(services := [], running := false)])
  }

  function ProbeOne(s: State, c: Slot, svcs: seq<nat>, ip: bool, clear: bool, o: Oracle): (t: State)
    requires |s.pcbs| == 6
    ensures |t.pcbs| == 6
  {
    if !s.pcbs[c].sock then s
    else InitProbe(if clear then Forget(s, c) else s, c, svcs, ip, o)
  }

  function ProbeFrom(s: State, c: nat, svcs: seq<nat>, ip: bool, clear: bool, o: Oracle): (t: State)
    requires |s.pcbs| == 6 && c <= 6
    ensures |t.pcbs| == 6
    decreases 6 - c
  {
    if c == 6 then s else ProbeFrom(ProbeOne(s, c, svcs, ip, clear, o), c + 1, svcs, ip, clear, o)
  }

  /** Probing for some services on every PCB that has a socket. */
  function ProbeAll(s: State, svcs: seq<nat>, ip: bool, clear: bool, o: Oracle): (t: State)
    requires |s.pcbs| == 6
    ensures |t.pcbs| == 6
  {
    ProbeFrom(s, 0, svcs, ip, clear, o)
  }

  /** The PCB is as it should be, or is about to start over. */
  predicate Ready(s: State, d: Slot, c: nat)
    requires |s.pcbs| == 6
  {
    SlotOk(s, d) || (d >= c && s.pcbs[d].sock && NoDup(s.pcbs[d].services) && AllIn(s.pcbs[d].services, s.services))
  }

  predicate Probeable(s: State, svcs: seq<nat>, ip: bool) {
    NoDup(svcs) && AllIn(svcs, s.services) && (svcs != [] || ip)
  }

  lemma ReadyStarts(s: State, c: Slot, svcs: seq<nat>, ip: bool)
    requires |s.pcbs| == 6 && Ready(s, c, c) && s.pcbs[c].sock && Probeable(s, svcs, ip)
    ensures Startable(s, c, svcs, ip) && Startable(Forget(s, c), c, svcs, ip)
  {
  }

  lemma ForgetCore(s: State, c: Slot)
    requires Core(s)
    ensures Core(Forget(s, c)) && Others(s, Forget(s, c), c) && SameLife(s, Forget(s, c))
  {
  }

  lemma OthersTrans(s: State, t: State, u: State, c: Slot)
    requires |s.pcbs| == |t.pcbs| == |u.pcbs| == 6 && Others(s, t, c) && Others(t, u, c)
    requires SameLife(s, t) && SameLife(t, u)
    ensures Others(s, u, c) && SameLife(s, u)
  {
    forall d: Slot | d != c
      ensures Untouched(s, u, d)
    {
      assert Untouched(s, t, d) && Untouched(t, u, d);
    }
  }

  lemma ProbeOneOk(s: State, c: Slot, svcs: seq<nat>, ip: bool, clear: bool, o: Oracle)
    requires Core(s) && Ready(s, c, c) && Probeable(s, svcs, ip)
    ensures var t := ProbeOne(s, c, svcs, ip, clear, o);
      Core(t) && t.services == s.services && SlotOk(t, c) && Others(s, t, c) && SameLife(s, t)
  {
    if s.pcbs[c].sock {
      ReadyStarts(s, c, svcs, ip);
      if clear {
        ForgetCore(s, c);
        InitProbeOk(Forget(s, c), c, svcs, ip, o);
        OthersTrans(s, Forget(s, c), InitProbe(Forget(s, c), c, svcs, ip, o), c);
      } else {
        InitProbeOk(s, c, svcs, ip, o);
      }
    }
  }

  predicate AllReady(s: State, c: nat)
    requires |s.pcbs| == 6
  {
    forall d: Slot :: Ready(s, d, c)
  }

  lemma ReadyNext(s: State, t: State, c: Slot)
    requires |s.pcbs| == |t.pcbs| == 6 && AllReady(s, c) && Others(s, t, c) && t.services == s.services && SlotOk(t, c)
    ensures AllReady(t, c + 1)
  {
    var next := c + 1;
    forall d: Slot
      ensures Ready(t, d, next)
    {
      assert Ready(s, d, c);
      if d != c {
        OtherSlot(s, t, c, d);
      }
    }
  }

  lemma ReadyEnd(s: State)
    requires |s.pcbs| == 6 && AllReady(s, 6)
    ensures AllSlots(s)
  {
    forall d: Slot
      ensures SlotOk(s, d)
    {
      assert Ready(s, d, 6);
    }
  }

  lemma {:induction false} ProbeFromOk(s: State, c: nat, svcs: seq<nat>, ip: bool, clear: bool, o: Oracle)
    requires Core(s) && c <= 6 && AllReady(s, c) && Probeable(s, svcs, ip)
    ensures var t := ProbeFrom(s, c, svcs, ip, clear, o);
      Core(t) && AllSlots(t) && t.services == s.services && SameLife(s, t)
    decreases 6 - c
  {
    if c == 6 {
      ReadyEnd(s);
    } else {
      assert Ready(s, c, c);
      ProbeOneOk(s, c, svcs, ip, clear, o);
      ReadyNext(s, ProbeOne(s, c, svcs, ip, clear, o), c);
      ProbeFromOk(ProbeOne(s, c, svcs, ip, clear, o), c + 1, svcs, ip, clear, o);
    }
  }

  lemma ProbeAllOk(s: State, svcs: seq<nat>, ip: bool, clear: bool, o: Oracle)
    requires Inv(s) && Probeable(s, svcs, ip)
    ensures Inv(ProbeAll(s, svcs, ip, clear, o)) && ProbeAll(s, svcs, ip, clear, o).services == s.services
  {
    assert forall d: Slot :: SlotOk(s, d) ==> Ready(s, d, 0);
    assert AllReady(s, 0);
    ProbeFromOk(s, 0, svcs, ip, clear, o);
    LifeKept(s, ProbeAll(s, svcs, ip, clear, o));
  }

  /** All packets are dropped, and every PCB starts over with all services and the host name. */
  function RestartAll(s: State, o: Oracle): State
    requires |s.pcbs| == 6
  {
    ProbeAll(s.(queue := []), s.services, true, true, o)
  }

  lemma AllInSelf(svcs: seq<nat>)
    ensures AllIn(svcs, svcs)
  {
  }

  lemma RestartAllOk(s: State, o: Oracle)
    requires Inv(s)
    ensures Inv(RestartAll(s, o))
  {
    var s0 := s.(queue := []);
    AllInSelf(s.services);
    forall d: Slot
      ensures Ready(s0, d, 0)
    {
      assert SlotOk(s, d);
    }
    ProbeFromOk(s0, 0, s.services, true, true, o);
    LifeKept(s0, RestartAll(s, o));
  }

  /** A new service goes to the front of the list, and every PCB probes for it. */
  function AddNewService(s: State, id: nat, o: Oracle): State
    requires |s.pcbs| == 6
  {
    ProbeAll(s.(services := [id] + s.services), [id], false, false, o)
  }

  lemma SoundMore(list: seq<Ans>, services: seq<nat>, more: seq<nat>)
    requires Sound(list, services) && forall x :: x in services ==> x in more
    ensures Sound(list, more)
  {
  }

  lemma SliceMore(pcb: Pcb, mine: seq<Packet>, services: seq<nat>, more: seq<nat>, episode: seq<nat>)
    requires SliceOk(pcb, mine, services, episode) && forall x :: x in services ==> x in more
    ensures SliceIn(more)(pcb, mine, episode)
  {
    if pcb.sock && !Probing(pcb.state) {
      forall p | p in mine
        ensures Plain(p, more)
      {
        SoundMore(p.answers, services, more);
      }
    }
  }

  lemma AddNewServiceOk(s: State, id: nat, o: Oracle)
    requires Inv(s) && id !in s.services
    ensures Inv(AddNewService(s, id, o))
  {
    var s0 := s.(services := [id] + s.services);
    NoDupCons(id, s.services);
    forall c: Slot
      ensures SlotOk(s0, c)
    {
      assert SlotOk(s, c);
      SliceMore(s.pcbs[c], Mine(s.queue, c), s.services, s0.services, Episode(s.log, c));
    }
    ProbeAllOk(s0, [id], false, false, o);
  }
}
