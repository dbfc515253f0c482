/** PCBs coming up and going down: interface events and interfaces on the same subnet. */
module Interfaces {
  import opened TxQueue
  import opened Pcbs
  import opened Responder
  import opened Steps
  import opened Sending
  import opened Events

  /** A scan of all PCBs for one with a socket. */
  method IsInUse(pcbs: seq<Pcb>) returns (r: bool)
    ensures r == InUse(pcbs)
  {
    for i := 0 to |pcbs|
      invariant forall k :: 0 <= k < i ==> !pcbs[k].sock
    {
      if pcbs[i].sock {
        return true;
      }
    }
    return false;
  }

  /** The PCB gets the main socket, which is created if it does not exist. */
  function PcbInit(s: State, c: Slot): (t: State)
    requires |s.pcbs| == 6
    ensures |t.pcbs| == 6
  {
    s.(pcbs := s.pcbs[c := s.pcbs[c].(sock := true, failed := 0)], main := true)
  }

  /** A PCB comes up (unless it cannot get a socket) and starts to probe for all services and the host name. */
  function Enable(s: State, c: Slot, up: bool, o: Oracle): (t: State)
    requires |s.pcbs| == 6
    ensures |t.pcbs| == 6
  {
    if s.pcbs[c].sock then InitProbe(s, c, s.services, true, o)
    else if !up then s
    else InitProbe(PcbInit(s, c), c, s.services, true, o)
  }

  lemma EnabledLife(s: State, t: State, c: Slot)
    requires Inv(s) && |t.pcbs| == 6 && t.main && t.pcbs[c].sock && t.pcbs[c].state != DUP
    requires forall d: Slot :: d != c ==> t.pcbs[d] == s.pcbs[d]
    ensures Lifecycle(t)
  {
    assert InUse(t.pcbs);
    forall d: Slot | t.pcbs[d].state == DUP
      ensures Sibling(d) < 6 && t.pcbs[Sibling(d)].sock && !t.pcbs[d].sock
    {
      assert s.pcbs[d].state == DUP;
    }
  }

  lemma EnableNew(s: State, c: Slot, o: Oracle)
    requires Inv(s) && !s.pcbs[c].sock
    ensures Inv(InitProbe(PcbInit(s, c), c, s.services, true, o))
  {
    var s1 := PcbInit(s, c);
    var t := InitProbe(s1, c, s.services, true, o);
    assert SlotOk(s, c);
    AllInSelf(s.services);
    InitProbeOk(s1, c, s.services, true, o);
    forall d: Slot | d != c
      ensures Untouched(s, t, d)
    {
      assert Untouched(s1, t, d);
    }
    OneSlot(s, t, c);
    forall d: Slot | d != c
      ensures t.pcbs[d] == s.pcbs[d]
    {
      assert Untouched(s, t, d);
    }
    EnabledLife(s, t, c);
  }

  lemma EnableOk(s: State, c: Slot, up: bool, o: Oracle)
    requires Inv(s)
    ensures Inv(Enable(s, c, up, o))
  {
    AllInSelf(s.services);
    if s.pcbs[c].sock {
      InitProbeInv(s, c, s.services, true, o);
    } else if up {
      EnableNew(s, c, o);
    }
  }

  // ---------------------------------------------------------------------------------------------------------
  // Going down

  const DOWN := Pcb(OFF, false, [], false, false, 0)

  /** The packets of the PCB are dropped and its socket is given back; the last one closes the main socket. */
  function Deinit(s: State, c: Slot): (t: State)
    requires |s.pcbs| == 6
    ensures |t.pcbs| == 6
  {
    var pcbs := s.pcbs[c := DOWN];
    s.(pcbs := pcbs, queue := Cleared(s.queue, c), main := s.main && InUse(pcbs))
  }

  function SetState(s: State, c: Slot, state: PcbState): (t: State)
    requires |s.pcbs| == 6
    ensures |t.pcbs| == 6
  {
    s.(pcbs := s.pcbs[c := s.pcbs[c].(state := state)])
  }

  lemma DownSlice(pcb: Pcb, services: seq<nat>, episode: seq<nat>, state: PcbState)
    requires !pcb.sock && pcb.services == [] && !pcb.ip && !pcb.running && (state == OFF || state == DUP)
    ensures SliceIn(services)(pcb.(state := state), [], episode)
  {
  }

  /** A PCB without a socket, its packets dropped, in state OFF or DUP. */
  lemma DownSlots(s: State, c: Slot, state: PcbState)
    requires Inv(s) && (state == OFF || state == DUP)
    ensures var t := SetState(Deinit(s, c), c, state); Core(t) && AllSlots(t)
  {
    var t := SetState(Deinit(s, c), c, state);
    ClearedThins(s.queue, c);
    ThinQueue(s, Cleared(s.queue, c));
    ClearedMine(s.queue, c, c);
    forall d: Slot | d != c
      ensures Untouched(s, t, d)
    {
      ClearedMine(s.queue, c, d);
    }
    DownSlice(DOWN, s.services, Episode(s.log, c), state);
    OneSlot(s, t, c);
  }

  lemma DeinitLife(s: State, c: Slot)
    requires Inv(s)
    ensures Deinit(s, c).main <==> InUse(Deinit(s, c).pcbs)
  {
    var t := Deinit(s, c);
    if InUse(t.pcbs) {
      var k :| 0 <= k < |t.pcbs| && t.pcbs[k].sock;
      assert s.pcbs[k].sock;
    }
  }

  /** Once a PCB is down, only its sibling may still be marked as a duplicate of it. */
  function Released(s: State, c: Slot): (t: State)
    requires |s.pcbs| == 6
    ensures |t.pcbs| == 6
  {
    var t := Deinit(s, c);
    var d := Sibling(c);
    if d < 6 && t.pcbs[d].state == DUP then SetState(t, d, OFF) else t
  }

  lemma ReleasedOk(s: State, c: Slot)
    requires Inv(s)
    ensures Inv(Released(s, c))
  {
    var t, u := Deinit(s, c), Released(s, c);
    var d := Sibling(c);
    DownSlots(s, c, OFF);
    assert SetState(t, c, OFF) == t;
    DeinitLife(s, c);
    if d < 6 && t.pcbs[d].state == DUP {
      assert SlotOk(t, d);
      DownSlice(t.pcbs[d], t.services, Episode(t.log, d), OFF);
      forall e: Slot | e != d
        ensures Untouched(t, u, e)
      {
      }
      OneSlot(t, u, d);
      SameSockets(t, u);
    }
    forall e: Slot | u.pcbs[e].state == DUP
      ensures Sibling(e) < 6 && u.pcbs[Sibling(e)].sock && !u.pcbs[e].sock
    {
      assert s.pcbs[e].state == DUP;
    }
  }

  lemma SameSockets(s: State, t: State)
    requires |s.pcbs| == |t.pcbs| == 6 && forall c: Slot :: t.pcbs[c].sock == s.pcbs[c].sock
    ensures InUse(s.pcbs) == InUse(t.pcbs)
  {
    if InUse(s.pcbs) {
      var k :| 0 <= k < |s.pcbs| && s.pcbs[k].sock;
      assert t.pcbs[k].sock;
    }
    if InUse(t.pcbs) {
      var k :| 0 <= k < |t.pcbs| && t.pcbs[k].sock;
      assert s.pcbs[k].sock;
    }
  }

  /** A PCB goes down; a sibling that was its duplicate comes up in its place. */
  function Disable(s: State, c: Slot, up: bool, o: Oracle): (t: State)
    requires |s.pcbs| == 6
    ensures |t.pcbs| == 6
  {
    if !s.pcbs[c].sock then SetState(s, c, OFF)
    else
      var d := Sibling(c);
      var r := Released(s, c);
      if d < 6 && s.pcbs[d].state == DUP then SetState(Enable(r, d, up, o), c, OFF) else SetState(r, c, OFF)
  }

  lemma SetOff(s: State, c: Slot)
    requires Inv(s) && !s.pcbs[c].sock
    ensures Inv(SetState(s, c, OFF))
  {
    var t := SetState(s, c, OFF);
    assert SlotOk(s, c);
    DownSlice(s.pcbs[c], s.services, Episode(s.log, c), OFF);
    forall d: Slot | d != c
      ensures Untouched(s, t, d)
    {
    }
    Assembled(s, t, c);
  }

  lemma EnableElsewhere(s: State, c: Slot, d: Slot, up: bool, o: Oracle)
    requires |s.pcbs| == 6 && c != d
    ensures Enable(s, d, up, o).pcbs[c] == s.pcbs[c]
  {
  }

  lemma DisableOk(s: State, c: Slot, up: bool, o: Oracle)
    requires Inv(s)
    ensures Inv(Disable(s, c, up, o))
  {
    var d := Sibling(c);
    if !s.pcbs[c].sock {
      SetOff(s, c);
    } else {
      var r := Released(s, c);
      ReleasedOk(s, c);
      if d < 6 && s.pcbs[d].state == DUP {
        EnableOk(r, d, up, o);
        EnableElsewhere(r, c, d, up, o);
        SetOff(Enable(r, d, up, o), c);
      } else {
        SetOff(r, c);
      }
    }
  }

  // ---------------------------------------------------------------------------------------------------------
  // Two interfaces on the same subnet

  /** The PCB gives way to its sibling, if that has a socket, and the sibling announces the addresses of both. */
  function DupOne(s: State, c: Slot, o: Oracle): (t: State)
    requires |s.pcbs| == 6
    ensures |t.pcbs| == 6
  {
    var d := Sibling(c);
    if d == 6 || !s.pcbs[d].sock then s
    else AnnouncePcb(SetState(if s.pcbs[c].sock then Deinit(s, c) else s, c, DUP), d, [], true, o)
  }

  lemma GivenWay(s: State, c: Slot)
    requires Inv(s) && Sibling(c) < 6 && s.pcbs[Sibling(c)].sock
    ensures Inv(SetState(if s.pcbs[c].sock then Deinit(s, c) else s, c, DUP))
  {
    var d := Sibling(c);
    var s1 := if s.pcbs[c].sock then Deinit(s, c) else s;
    var t := SetState(s1, c, DUP);
    assert SlotOk(s, d);
    if s.pcbs[c].sock {
      DownSlots(s, c, DUP);
      DeinitLife(s, c);
    } else {
      assert SlotOk(s, c);
      DownSlice(s.pcbs[c], s.services, Episode(s.log, c), DUP);
      forall e: Slot | e != c
        ensures Untouched(s, t, e)
      {
      }
      OneSlot(s, t, c);
    }
    SameSockets(s1, t);
    forall e: Slot | t.pcbs[e].state == DUP
      ensures Sibling(e) < 6 && t.pcbs[Sibling(e)].sock && !t.pcbs[e].sock
    {
      if e != c {
        assert s.pcbs[e].state == DUP;
      }
    }
  }

  lemma DupOneOk(s: State, c: Slot, o: Oracle)
    requires Inv(s)
    ensures Inv(DupOne(s, c, o))
  {
    var d := Sibling(c);
    if d < 6 && s.pcbs[d].sock {
      GivenWay(s, c);
      var t := SetState(if s.pcbs[c].sock then Deinit(s, c) else s, c, DUP);
      AnnouncePcbOk(t, d, [], true, o);
    }
  }

  /** Both protocols of the interface give way. */
  function Duplicate(s: State, c: Slot, o: Oracle, o': Oracle): State
    requires |s.pcbs| == 6
  {
    DupOne(DupOne(s, V4Of(c), o), V6Of(c), o')
  }

  lemma DuplicateOk(s: State, c: Slot, o: Oracle, o': Oracle)
    requires Inv(s)
    ensures Inv(Duplicate(s, c, o, o'))
  {
    DupOneOk(s, V4Of(c), o);
    DupOneOk(DupOne(s, V4Of(c), o), V6Of(c), o');
  }
}
