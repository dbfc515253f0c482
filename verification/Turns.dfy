/** A PCB turns from probing to announcing in one way only: by sending its last probe. */
module Turns {
  import opened TxQueue
  import opened Pcbs
  import opened Responder
  import opened Steps
  import opened Sending
  import opened Events
  import opened Deletion
  import opened Interfaces
  import opened Runs

  /** Off, a duplicate, or probing. */
  predicate Low(pcb: Pcb) {
    Rank(pcb.state) <= Rank(PROBE_3)
  }

  /** No PCB has come out of probing. */
  predicate StaysLow(s: State, t: State)
    requires |s.pcbs| == |t.pcbs| == 6
  {
    forall c: Slot :: Low(s.pcbs[c]) ==> Low(t.pcbs[c])
  }

  lemma InitProbeLow(s: State, c: Slot, svcs: seq<nat>, ip: bool, o: Oracle)
    requires |s.pcbs| == 6
    ensures StaysLow(s, InitProbe(s, c, svcs, ip, o))
  {
  }

  lemma {:induction false} ProbeFromLow(s: State, c: nat, svcs: seq<nat>, ip: bool, clear: bool, o: Oracle)
    requires |s.pcbs| == 6 && c <= 6
    ensures StaysLow(s, ProbeFrom(s, c, svcs, ip, clear, o))
    decreases 6 - c
  {
    if c == 6 {
    } else {
      ProbeFromLow(ProbeOne(s, c, svcs, ip, clear, o), c + 1, svcs, ip, clear, o);
    }
  }

  lemma AnnouncePcbLow(s: State, c: Slot, svcs: seq<nat>, ip: bool, o: Oracle)
    requires |s.pcbs| == 6
    ensures StaysLow(s, AnnouncePcb(s, c, svcs, ip, o))
  {
  }

  lemma {:induction false} AnnounceFromLow(s: State, c: nat, svcs: seq<nat>, ip: bool, o: Oracle)
    requires |s.pcbs| == 6 && c <= 6
    ensures StaysLow(s, AnnounceFrom(s, c, svcs, ip, o))
    decreases 6 - c
  {
    if c == 6 {
    } else {
      AnnouncePcbLow(s, c, svcs, ip, o);
      AnnounceFromLow(AnnouncePcb(s, c, svcs, ip, o), c + 1, svcs, ip, o);
    }
  }

  lemma LowTrans(s: State, t: State, u: State)
    requires |s.pcbs| == |t.pcbs| == |u.pcbs| == 6 && StaysLow(s, t) && StaysLow(t, u)
    ensures StaysLow(s, u)
  {
  }

  lemma EnableLow(s: State, c: Slot, up: bool, o: Oracle)
    requires |s.pcbs| == 6
    ensures StaysLow(s, Enable(s, c, up, o))
  {
  }

  lemma SetOffLow(s: State, t: State, c: Slot)
    requires |s.pcbs| == |t.pcbs| == 6 && StaysLow(s, t)
    ensures StaysLow(s, SetState(t, c, OFF))
  {
  }

  lemma DisableLow(s: State, c: Slot, up: bool, o: Oracle)
    requires |s.pcbs| == 6
    ensures StaysLow(s, Disable(s, c, up, o))
  {
    var d, r := Sibling(c), Released(s, c);
    if !s.pcbs[c].sock {
      SetOffLow(s, s, c);
    } else if d < 6 && s.pcbs[d].state == DUP {
      EnableLow(r, d, up, o);
      LowTrans(s, r, Enable(r, d, up, o));
      SetOffLow(s, Enable(r, d, up, o), c);
    } else {
      SetOffLow(s, r, c);
    }
  }

  lemma DupOneLow(s: State, c: Slot, o: Oracle)
    requires |s.pcbs| == 6
    ensures StaysLow(s, DupOne(s, c, o))
  {
    var d := Sibling(c);
    if d < 6 && s.pcbs[d].sock {
      var t := SetState(if s.pcbs[c].sock then Deinit(s, c) else s, c, DUP);
      assert StaysLow(s, t);
      AnnouncePcbLow(t, d, [], true, o);
    }
  }

  // ---------------------------------------------------------------------------------------------------------
  // Deleting services may end probing, but does not lead to announcing

  predicate NoneStarts(s: State, t: State)
    requires |s.pcbs| == |t.pcbs| == 6
  {
    forall c: Slot :: IsAnnouncing(t.pcbs[c].state) ==> IsAnnouncing(s.pcbs[c].state)
  }

  lemma {:induction false} PurgeNoneStarts(pcb: Pcb, mine: seq<Packet>, id: nat)
    ensures IsAnnouncing(PurgeMine(pcb, mine, id).pcb.state) ==> IsAnnouncing(pcb.state)
    decreases |mine|
  {
    if mine == [] {
    } else {
      PurgeNoneStarts(PurgeOne(pcb, mine[0], id).pcb, mine[1..], id);
    }
  }

  lemma DeleteNoneStarts(s: State, id: nat)
    requires |s.pcbs| == 6
    ensures NoneStarts(s, DeleteService(s, id))
  {
    forall c: Slot
      ensures IsAnnouncing(DeleteService(s, id).pcbs[c].state) ==> IsAnnouncing(s.pcbs[c].state)
    {
      PurgeSlices(s.pcbs, s.queue, id, c);
      PurgeNoneStarts(s.pcbs[c], Mine(s.queue, c), id);
    }
  }

  lemma {:induction false} ClearNoneStarts(s: State)
    requires |s.pcbs| == 6
    ensures NoneStarts(s, ClearServices(s))
    decreases |s.services|
  {
    if s.services == [] {
    } else {
      DeleteNoneStarts(s, s.services[0]);
      ClearNoneStarts(DeleteService(s, s.services[0]));
    }
  }

  // ---------------------------------------------------------------------------------------------------------
  // All steps

  predicate IsAction(step: Step) {
    || step.ServiceAdd? || step.ServiceInstanceSet? || step.ServiceChanged? || step.ServiceDel? || step.ServicesClear?
    || step.HostnameSet? || step.InstanceSet?
  }

  lemma AddLow(s: State, id: nat, o: Oracle)
    requires |s.pcbs| == 6
    ensures StaysLow(s, Apply(s, ServiceAdd(id, o)))
  {
    ProbeFromLow(s.(services := [id] + s.services), 0, [id], false, false, o);
  }

  lemma RenameLow(s: State, id: nat, o: Oracle)
    requires |s.pcbs| == 6
    ensures StaysLow(s, Apply(s, ServiceInstanceSet(id, o)))
  {
    ProbeFromLow(s, 0, [id], false, false, o);
  }

  lemma ChangeLow(s: State, id: nat, ip: bool, o: Oracle)
    requires |s.pcbs| == 6
    ensures StaysLow(s, Apply(s, ServiceChanged(id, ip, o)))
  {
    AnnounceFromLow(s, 0, [id], ip, o);
  }

  lemma HostnameLow(s: State, o: Oracle)
    requires |s.pcbs| == 6
    ensures StaysLow(s, Apply(s, HostnameSet(o)))
  {
    ProbeFromLow(s.(queue := []), 0, s.services, true, true, o);
  }

  lemma InstanceLow(s: State, svcs: seq<nat>, o: Oracle)
    requires |s.pcbs| == 6
    ensures StaysLow(s, Apply(s, InstanceSet(svcs, o)))
  {
    ProbeFromLow(s, 0, svcs, false, true, o);
  }

  lemma DeleteSteps(s: State, step: Step)
    requires |s.pcbs| == 6 && (step.ServiceDel? || step.ServicesClear?)
    ensures NoneStarts(s, Apply(s, step))
  {
    if step.ServiceDel? {
      DeleteNoneStarts(s, step.id);
    } else {
      ClearNoneStarts(s);
    }
  }

  lemma ActionSteps(s: State, step: Step)
    requires |s.pcbs| == 6 && IsAction(step)
    ensures StaysLow(s, Apply(s, step)) || NoneStarts(s, Apply(s, step))
  {
    match step
    case ServiceAdd(id, o) => AddLow(s, id, o);
    case ServiceInstanceSet(id, o) => RenameLow(s, id, o);
    case ServiceChanged(id, ip, o) => ChangeLow(s, id, ip, o);
    case ServiceDel(id) => DeleteSteps(s, step);
    case ServicesClear => DeleteSteps(s, step);
    case HostnameSet(o) => HostnameLow(s, o);
    case InstanceSet(svcs, o) => InstanceLow(s, svcs, o);
  }

  lemma RestSteps(s: State, step: Step)
    requires |s.pcbs| == 6 && !step.TxAction? && !IsAction(step)
    ensures StaysLow(s, Apply(s, step))
  {
    match step
    case EnablePcb(c, up, o) => EnableLow(s, c, up, o);
    case DisablePcb(c, up, o) => DisableLow(s, c, up, o);
    case AddressChanged(c, o) => AnnouncePcbLow(s, c, [], true, o);
    case RxCollision(c, svcs, ip, o) => InitProbeLow(s, c, svcs, ip, o);
    case RxDuplicate(c, o, o') =>
      DupOneLow(s, V4Of(c), o);
      DupOneLow(DupOne(s, V4Of(c), o), V6Of(c), o');
      LowTrans(s, DupOne(s, V4Of(c), o), Duplicate(s, c, o, o'));
    case _ =>
  }

  /**
   * Whatever the step: if it takes a PCB out of probing into announcing, it is the service task sending a packet of
   * that PCB, and the history notes it. Together with `Runs.ThreeProbesFirst` this makes probing come first always.
   */
  lemma TurnIsNoted(s: State, step: Step, c: Slot)
    requires |s.pcbs| == 6 && Low(s.pcbs[c]) && IsAnnouncing(Apply(s, step).pcbs[c].state)
    ensures step.TxAction? && Meets(s) && s.queue[0].pcb == c && s.pcbs[c].state == PROBE_3
    ensures var log := Apply(s, step).log; log == s.log + [Sent(c, PROBE_3, s.queue[0], s.now), Announcing(c)]
  {
    if IsAction(step) {
      ActionSteps(s, step);
    } else if !step.TxAction? {
      RestSteps(s, step);
    }
  }
}
