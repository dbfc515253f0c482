/** Whole runs: every interleaving of user actions, received packets, interface events and the two tasks. */
module Runs {
  import opened TxQueue
  import opened Packets
  import opened Pcbs
  import opened Responder
  import opened Steps
  import opened Sending
  import opened Events
  import opened Deletion
  import opened Interfaces

  datatype Step =
    | Wait(ms: nat)
    | TimerTask(posted: bool)
    | TxAction(hint: nat, memory: bool)
    | ServiceAdd(id: nat, o: Oracle)
    | ServiceInstanceSet(id: nat, o: Oracle)
    | ServiceChanged(id: nat, ip: bool, o: Oracle)
    | ServiceDel(id: nat)
    | ServicesClear
    | HostnameSet(o: Oracle)
    | InstanceSet(svcs: seq<nat>, o: Oracle)
    | EnablePcb(c: Slot, up: bool, o: Oracle)
    | DisablePcb(c: Slot, up: bool, o: Oracle)
    | AddressChanged(c: Slot, o: Oracle)
    | RxCollision(c: Slot, svcs: seq<nat>, ip: bool, o: Oracle)
    | RxLost(c: Slot)
    | RxDuplicate(c: Slot, o: Oracle, o': Oracle)
    | RxRespond(p: Packet, hint: nat, ms: nat)
    | RxSuppress(c: Slot, kind: Kind, about: Ref)

  /**
   * What is taken for granted of a step: services are unique, actions name registered ones, packets are received on
   * PCBs that are up, and a response is made only past probing and only about what there is.
   */
  predicate Allowed(s: State, step: Step)
    requires |s.pcbs| == 6
  {
    match step
    case ServiceAdd(id, _) => id !in s.services
    case ServiceInstanceSet(id, _) => id in s.services
    case ServiceChanged(id, _, _) => id in s.services
    case InstanceSet(svcs, _) => NoDup(svcs) && AllIn(svcs, s.services)
    case RxCollision(c, svcs, ip, _) => s.pcbs[c].sock && Probeable(s, svcs, ip)
    case RxRespond(p, _, _) => Rank(s.pcbs[p.pcb].state) > Rank(PROBE_3) && Response(p, s.services)
    case _ => true
  }

  function Apply(s: State, step: Step): (t: State)
    requires |s.pcbs| == 6
    ensures |t.pcbs| == 6
  {
    match step
    case Wait(ms) => Tick(s, ms)
    case TimerTask(posted) => Timer(s, posted)
    case TxAction(hint, memory) => Tx(s, hint, memory)
    case ServiceAdd(id, o) => AddNewService(s, id, o)
    case ServiceInstanceSet(id, o) => ProbeAll(s, [id], false, false, o)
    case ServiceChanged(id, ip, o) => AnnounceFrom(s, 0, [id], ip, o)
    case ServiceDel(id) => DeleteService(s, id)
    case ServicesClear => ClearServices(s)
    case HostnameSet(o) => RestartAll(s, o)
    case InstanceSet(svcs, o) => if svcs == [] then s else ProbeAll(s, svcs, false, true, o)
    case EnablePcb(c, up, o) => Enable(s, c, up, o)
    case DisablePcb(c, up, o) => Disable(s, c, up, o)
    case AddressChanged(c, o) => AnnouncePcb(s, c, [], true, o)
    case RxCollision(c, svcs, ip, o) => InitProbe(s, c, svcs, ip, o)
    case RxLost(c) => Lost(s, c)
    case RxDuplicate(c, o, o') => Duplicate(s, c, o, o')
    case RxRespond(p, hint, ms) => Respond(s, p, hint, ms)
    case RxSuppress(c, kind, about) => Suppress(s, c, kind, about)
  }

  lemma OneProbeable(s: State, id: nat)
    requires id in s.services
    ensures Probeable(s, [id], false) && Probeable(s, [id], true)
  {
  }

  lemma ActionKeeps(s: State, step: Step)
    requires Inv(s) && Allowed(s, step)
    requires step.ServiceAdd? || step.ServiceInstanceSet? || step.ServiceChanged? || step.ServiceDel?
      || step.ServicesClear? || step.HostnameSet? || step.InstanceSet?
    ensures Inv(Apply(s, step))
  {
    match step
    case ServiceAdd(id, o) => AddNewServiceOk(s, id, o);
    case ServiceInstanceSet(id, o) =>
      OneProbeable(s, id);
      ProbeAllOk(s, [id], false, false, o);
    case ServiceChanged(id, ip, o) =>
      OneProbeable(s, id);
      AnnounceFromOk(s, 0, [id], ip, o);
    case ServiceDel(id) => DeleteServiceOk(s, id);
    case ServicesClear => ClearServicesOk(s);
    case HostnameSet(o) => RestartAllOk(s, o);
    case InstanceSet(svcs, o) =>
      if svcs != [] {
        ProbeAllOk(s, svcs, false, true, o);
      }
  }

  /** Every step keeps the invariant. */
  lemma StepKeeps(s: State, step: Step)
    requires Inv(s) && Allowed(s, step)
    ensures Inv(Apply(s, step))
  {
    match step
    case Wait(ms) => TickOk(s, ms);
    case TimerTask(posted) => TimerOk(s, posted);
    case TxAction(hint, memory) => TxOk(s, hint, memory);
    case EnablePcb(c, up, o) => EnableOk(s, c, up, o);
    case DisablePcb(c, up, o) => DisableOk(s, c, up, o);
    case AddressChanged(c, o) => AnnouncePcbOk(s, c, [], true, o);
    case RxCollision(c, svcs, ip, o) => InitProbeInv(s, c, svcs, ip, o);
    case RxLost(c) => LostInv(s, c);
    case RxDuplicate(c, o, o') => DuplicateOk(s, c, o, o');
    case RxRespond(p, hint, ms) => RespondInv(s, p, hint, ms);
    case RxSuppress(c, kind, about) => SuppressInv(s, c, kind, about);
    case _ => ActionKeeps(s, step);
  }

  const START: State := State([DOWN, DOWN, DOWN, DOWN, DOWN, DOWN], [], [], [], 0, false, [])

  /** The states that a run of steps leads to. */
  predicate Reaches(s: State, steps: seq<Step>, t: State)
    requires |s.pcbs| == 6
    decreases |steps|
  {
    if steps == [] then s == t
    else Allowed(s, steps[0]) && Reaches(Apply(s, steps[0]), steps[1..], t)
  }

  lemma {:induction false} RunKeeps(s: State, steps: seq<Step>, t: State)
    requires Inv(s) && Reaches(s, steps, t)
    ensures Inv(t)
    decreases |steps|
  {
    if steps == [] {
    } else {
      StepKeeps(s, steps[0]);
      RunKeeps(Apply(s, steps[0]), steps[1..], t);
    }
  }

  lemma StartOk()
    ensures Inv(START)
  {
    forall c: Slot
      ensures SlotOk(START, c)
    {
      DownSlice(DOWN, [], [], OFF);
    }
  }

  predicate Reachable(t: State, steps: seq<Step>) {
    Reaches(START, steps, t)
  }

  lemma ReachableInv(t: State, steps: seq<Step>)
    requires Reachable(t, steps)
    ensures Inv(t)
  {
    StartOk();
    RunKeeps(START, steps, t);
  }

  // ---------------------------------------------------------------------------------------------------------
  // Safety over whole runs

  /** A probing PCB has exactly one packet in the queue: the probe for exactly what it is probing for. */
  lemma ProbingExclusive(t: State, steps: seq<Step>, c: Slot)
    requires Reachable(t, steps)
    ensures |t.pcbs| == 6 && (t.pcbs[c].running <==> Probing(t.pcbs[c].state))
    ensures Probing(t.pcbs[c].state) ==>
      && |Mine(t.queue, c)| == 1
      && Mine(t.queue, c)[0].questions == AsksFor(t.pcbs[c].services, t.pcbs[c].ip, t.pcbs[c].state == PROBE_1)
      && Mine(t.queue, c)[0].answers == []
      && NoDup(t.pcbs[c].services)
  {
    ReachableInv(t, steps);
    assert SlotOk(t, c);
  }

  /** A probing or announcing PCB always has a packet to wait for. */
  lemma NeverStranded(t: State, steps: seq<Step>, c: Slot)
    requires Reachable(t, steps)
    ensures |t.pcbs| == 6
    ensures Probing(t.pcbs[c].state) || IsAnnouncing(t.pcbs[c].state) ==> exists p :: p in t.queue && p.pcb == c
  {
    ReachableInv(t, steps);
    assert SlotOk(t, c);
    if Probing(t.pcbs[c].state) || IsAnnouncing(t.pcbs[c].state) {
      assert Mine(t.queue, c) != [];
      var p := Mine(t.queue, c)[0];
      assert p in t.queue && p.pcb == c;
    }
  }

  /** No reference to a service that is not registered. */
  lemma ReferencesHold(t: State, steps: seq<Step>, id: nat)
    requires Reachable(t, steps) && id !in t.services
    ensures |t.pcbs| == 6 && (forall p :: p in t.queue ==> !Mentions(p, id))
    ensures forall c: Slot :: id !in t.pcbs[c].services
  {
    ReachableInv(t, steps);
    NoDangling(t, id);
  }

  /** The main socket exists exactly when a PCB is up; a duplicate is down while its sibling is up. */
  lemma SocketsShared(t: State, steps: seq<Step>)
    requires Reachable(t, steps)
    ensures |t.pcbs| == 6 && (t.main <==> exists k :: 0 <= k < 6 && t.pcbs[k].sock)
    ensures forall c: Slot :: t.pcbs[c].sock <==> Rank(t.pcbs[c].state) >= Rank(PROBE_1)
    ensures forall c: Slot :: t.pcbs[c].state == DUP ==> Sibling(c) < 6 && t.pcbs[Sibling(c)].sock
  {
    ReachableInv(t, steps);
    forall c: Slot
      ensures t.pcbs[c].sock <==> Rank(t.pcbs[c].state) >= Rank(PROBE_1)
    {
      assert SlotOk(t, c);
    }
  }

  // ---------------------------------------------------------------------------------------------------------
  // Probes before announcements

  lemma {:induction false} LogAt(log: seq<Event>, k: nat)
    requires LogOk(log) && k < |log|
    ensures EventOk(log[..k], log[k])
  {
    var last := |log| - 1;
    if k >= last {
    } else {
      LogAt(log[..last], k);
      assert log[..last][..k] == log[..k];
    }
  }

  /** The event is a probe of that PCB. */
  predicate IsProbe(e: Event, c: Slot) {
    e.Sent? && e.c == c && Probing(e.state)
  }

  /** The last probe of the episode, and what came before it. */
  lemma {:induction false} LastProbe(log: seq<Event>, c: Slot) returns (i: nat)
    requires Episode(log, c) != []
    ensures i < |log| && IsProbe(log[i], c) && Episode(log, c) == Episode(log[..i], c) + [log[i].at]
    ensures forall k :: i < k < |log| ==> log[k] != Began(c)
  {
    var last := |log| - 1;
    if IsProbe(log[last], c) {
      i := last;
    } else {
      i := LastProbe(log[..last], c);
      assert log[..last][..i] == log[..i];
      assert forall k :: i < k < last ==> log[..last][k] == log[k];
    }
  }

  /**
   * Probe before announce: wherever a run turns from probing to announcing on a PCB, it has sent at least three
   * probes on that PCB since it last began to probe there, each 250 ms or more after the one before.
   */
  lemma ThreeProbesFirst(t: State, steps: seq<Step>, k: nat) returns (a: nat, b: nat, d: nat)
    requires Reachable(t, steps) && k < |t.log| && t.log[k].Announcing?
    ensures a < b < d < k
    ensures var c := t.log[k].c; IsProbe(t.log[a], c) && IsProbe(t.log[b], c) && IsProbe(t.log[d], c)
    ensures t.log[b].at >= t.log[a].at + 250 && t.log[d].at >= t.log[b].at + 250
    ensures forall i :: a < i < k ==> t.log[i] != Began(t.log[k].c)
  {
    ReachableInv(t, steps);
    LogAt(t.log, k);
    a, b, d := LastThree(t.log[..k], t.log[k].c);
    assert forall i :: 0 <= i < k ==> t.log[..k][i] == t.log[i];
  }

  lemma LastThree(log: seq<Event>, c: Slot) returns (a: nat, b: nat, d: nat)
    requires |Episode(log, c)| >= 3 && Spaced(Episode(log, c))
    ensures a < b < d < |log| && IsProbe(log[a], c) && IsProbe(log[b], c) && IsProbe(log[d], c)
    ensures log[b].at >= log[a].at + 250 && log[d].at >= log[b].at + 250
    ensures forall i :: a < i < |log| ==> log[i] != Began(c)
  {
    var e := Episode(log, c);
    d := LastProbe(log, c);
    b := LastProbe(log[..d], c);
    assert log[..d][..b] == log[..b];
    a := LastProbe(log[..b], c);
    assert log[..b][..a] == log[..a];
    assert forall i :: 0 <= i < d ==> log[..d][i] == log[i];
    assert forall i :: 0 <= i < b ==> log[..b][i] == log[i];
    assert e == Episode(log[..a], c) + [log[a].at] + [log[b].at] + [log[d].at];
    var n := |e|;
    assert e[n - 1] == log[d].at && e[n - 2] == log[b].at && e[n - 3] == log[a].at;
  }

  /** Nothing leaves through the queue before its time, and no response leaves on a probing PCB. */
  lemma NothingEarly(t: State, steps: seq<Step>, k: nat)
    requires Reachable(t, steps) && k < |t.log| && t.log[k].Sent?
    ensures var e := t.log[k];
      && e.packet.sendAt < e.at
      && (Probing(e.state) ==> e.packet.questions != [] && e.packet.answers == [])
      && (!Probing(e.state) ==> e.packet.questions == [] && e.packet.servers == [])
  {
    ReachableInv(t, steps);
    LogAt(t.log, k);
  }
}
