/** The responder's state and its steps: user actions, received packets, interface events and the two tasks. */
module Responder {
  import opened TxQueue
  import opened Packets
  import opened Pcbs

  // ---------------------------------------------------------------------------------------------------------
  // History

  /** What is remembered of a run: where probing began, what left through the queue, where announcing began. */
  datatype Event =
    | Began(c: Slot)
    | Sent(c: Slot, state: PcbState, packet: Packet, at: nat)
    | Announcing(c: Slot)

  /** The times at which the PCB sent probes since it last began to probe. */
  function Episode(log: seq<Event>, c: Slot): seq<nat> {
    if log == [] then []
    else
      var before, e := log[..|log| - 1], log[|log| - 1];
      if e == Began(c) then []
      else if e.Sent? && e.c == c && Probing(e.state) then Episode(before, c) + [e.at]
      else Episode(before, c)
  }

  lemma EpisodeSnoc(log: seq<Event>, e: Event, c: Slot)
    ensures Episode(log + [e], c)
         == if e == Began(c) then []
            else if e.Sent? && e.c == c && Probing(e.state) then Episode(log, c) + [e.at]
            else Episode(log, c)
  {
    assert (log + [e])[..|log|] == log;
  }

  /** Nothing is sent early; what a probing PCB sends is a probe, what another sends is not; see also `Announcing`. */
  predicate EventOk(before: seq<Event>, e: Event) {
    match e
    case Began(_) => true
    case Sent(c, state, p, at) =>
      && p.pcb == c && p.sendAt < at
      && (Probing(state) ==> p.questions != [] && p.answers == [])
      && (!Probing(state) ==> p.questions == [] && p.servers == [])
    case Announcing(c) => |Episode(before, c)| >= 3 && Spaced(Episode(before, c))
  }

  predicate LogOk(log: seq<Event>) {
    log == [] || (LogOk(log[..|log| - 1]) && EventOk(log[..|log| - 1], log[|log| - 1]))
  }

  lemma LogSnoc(log: seq<Event>, e: Event)
    requires LogOk(log) && EventOk(log, e)
    ensures LogOk(log + [e])
  {
    assert (log + [e])[..|log|] == log;
  }

  // ---------------------------------------------------------------------------------------------------------
  // State

  /** `actions` are the packet addresses that the timer task has posted; `main` is the one shared socket. */
  datatype State = State(pcbs: seq<Pcb>, queue: seq<Packet>, services: seq<nat>, actions: seq<nat>, now: nat,
                         main: bool, log: seq<Event>)

  predicate SlotOk(s: State, c: Slot)
    requires |s.pcbs| == 6
  {
    SliceIn(s.services)(s.pcbs[c], Mine(s.queue, c), Episode(s.log, c))
  }

  predicate QueueOk(s: State) {
    Good(s.queue, s.now) && Sub(QueuedIds(s.queue), s.actions)
  }

  predicate Core(s: State) {
    |s.pcbs| == 6 && NoDup(s.services) && QueueOk(s) && LogOk(s.log)
  }

  predicate AllSlots(s: State)
    requires |s.pcbs| == 6
  {
    forall c: Slot :: SlotOk(s, c)
  }

  /** The PCB of the same protocol on the other of STA and ETH; AP has none. */
  function Sibling(c: Slot): nat {
    if c < 2 then c + 4 else if c >= 4 then c - 4 else 6
  }

  predicate InUse(pcbs: seq<Pcb>) {
    exists k :: 0 <= k < |pcbs| && pcbs[k].sock
  }

  /** A duplicate PCB has no socket while its sibling has one; the main socket exists exactly when it is in use. */
  predicate Lifecycle(s: State)
    requires |s.pcbs| == 6
  {
    && (s.main <==> InUse(s.pcbs))
    && (forall c: Slot :: s.pcbs[c].state == DUP ==> Sibling(c) < 6 && s.pcbs[Sibling(c)].sock && !s.pcbs[c].sock)
  }

  predicate Inv(s: State) {
    Core(s) && AllSlots(s) && Lifecycle(s)
  }

  /** Nothing has changed for that PCB. */
  predicate Untouched(s: State, t: State, c: Slot)
    requires |s.pcbs| == |t.pcbs| == 6
  {
    t.pcbs[c] == s.pcbs[c] && Mine(t.queue, c) == Mine(s.queue, c) && Episode(t.log, c) == Episode(s.log, c)
  }

  /** Nothing has changed for any other PCB. */
  predicate Others(s: State, t: State, c: Slot)
    requires |s.pcbs| == |t.pcbs| == 6
  {
    forall d: Slot :: d != c ==> Untouched(s, t, d)
  }

  /** The sockets are the same, and no PCB has become a duplicate. */
  predicate SameLife(s: State, t: State)
    requires |s.pcbs| == |t.pcbs| == 6
  {
    && t.main == s.main
    && forall c: Slot :: t.pcbs[c].sock == s.pcbs[c].sock && (t.pcbs[c].state == DUP ==> s.pcbs[c].state == DUP)
  }

  lemma OtherSlot(s: State, t: State, c: Slot, d: Slot)
    requires |s.pcbs| == |t.pcbs| == 6 && t.services == s.services && Others(s, t, c) && d != c
    ensures t.pcbs[d] == s.pcbs[d] && (SlotOk(s, d) ==> SlotOk(t, d))
  {
    assert Untouched(s, t, d);
  }

  lemma OthersLife(s: State, t: State, c: Slot)
    requires |s.pcbs| == |t.pcbs| == 6 && Others(s, t, c) && t.main == s.main
    requires t.pcbs[c].sock == s.pcbs[c].sock && (t.pcbs[c].state == DUP ==> s.pcbs[c].state == DUP)
    ensures SameLife(s, t)
  {
    forall d: Slot
      ensures t.pcbs[d].sock == s.pcbs[d].sock && (t.pcbs[d].state == DUP ==> s.pcbs[d].state == DUP)
    {
      assert d != c ==> Untouched(s, t, d);
    }
  }

  /** Only that PCB has changed; its own condition is given. */
  lemma OneSlot(s: State, t: State, c: Slot)
    requires |s.pcbs| == |t.pcbs| == 6 && t.services == s.services
    requires SlotOk(t, c) && AllSlots(s) && Others(s, t, c)
    ensures AllSlots(t)
  {
    forall d: Slot
      ensures SlotOk(t, d)
    {
      assert SlotOk(s, d);
      if d != c {
        OtherSlot(s, t, c, d);
      }
    }
  }

  // ---------------------------------------------------------------------------------------------------------
  // Addresses

  function Above(q: seq<Packet>): nat {
    if q == [] then 0
    else
      var r := Above(q[1..]);
      if q[0].id >= r then q[0].id + 1 else r
  }

  lemma {:induction false} AboveAll(q: seq<Packet>, k: nat)
    requires k < |q|
    ensures q[k].id < Above(q)
  {
    if k == 0 {
    } else {
      AboveAll(q[1..], k - 1);
    }
  }

  /** The address of a new packet: any one, old addresses included, that is not in use. */
  function Unused(hint: nat, q: seq<Packet>): (id: nat)
    ensures id !in Ids(q)
  {
    if hint !in Ids(q) then hint
    else
      assert Above(q) !in Ids(q) by {
        forall k | 0 <= k < |q|
          ensures q[k].id != Above(q)
        {
          AboveAll(q, k);
        }
      }
      Above(q)
  }

  /** Addresses and random delays for the packets that a step creates. */
  datatype Oracle = Oracle(ids: seq<nat>, delays: seq<nat>) {
    function Id(c: Slot): nat {
      if c < |ids| then ids[c] else 0
    }

    function Delay(c: Slot): nat {
      if c < |delays| then delays[c] % 128 else 0
    }
  }

  // ---------------------------------------------------------------------------------------------------------
  // Probing

  function V4Of(c: Slot): Slot {
    if c < 2 then 0 else if c < 4 then 2 else 4
  }

  function V6Of(c: Slot): Slot {
    if c < 2 then 1 else if c < 4 then 3 else 5
  }

  /** The first probe of a PCB, due after a random delay. */
  function NewProbe(s: State, c: Slot, b: Pcb, o: Oracle): (p: Packet)
    requires |s.pcbs| == 6
    ensures p.pcb == c && !p.queued && p.sendAt >= s.now && p.id !in Ids(Cleared(s.queue, c))
  {
    ProbePacket(Unused(o.Id(c), Cleared(s.queue, c)), c, s.now + (if b.failed > 5 then 1000 else 120) + o.Delay(c),
                b.services, b.ip, s.pcbs[V4Of(c)].sock, s.pcbs[V6Of(c)].sock)
  }

  function InitProbe(s: State, c: Slot, svcs: seq<nat>, ip: bool, o: Oracle): State
    requires |s.pcbs| == 6
  {
    var b := BeginPcb(s.pcbs[c], svcs, ip);
    s.(pcbs := s.pcbs[c := b], queue := Insert(Cleared(s.queue, c), NewProbe(s, c, b, o)), log := s.log + [Began(c)])
  }

  /** The probe replaces the packets of its PCB and leaves those of the others. */
  lemma Replace(s: State, c: Slot, p: Packet)
    requires QueueOk(s) && p.pcb == c && !p.queued && p.sendAt >= s.now && p.id !in Ids(Cleared(s.queue, c))
    ensures var q := Insert(Cleared(s.queue, c), p);
      Good(q, s.now) && Sub(QueuedIds(q), s.actions) && Mine(q, c) == [p]
      && forall d: Slot :: d != c ==> Mine(q, d) == Mine(s.queue, d)
  {
    var r := Cleared(s.queue, c);
    ClearedThins(s.queue, c);
    ThinsGood(r, s.queue, s.now);
    SubTrans(QueuedIds(r), QueuedIds(s.queue), s.actions);
    InsertGood(r, p, s.now);
    forall d: Slot
      ensures Mine(Insert(r, p), d) == if d == c then [p] else Mine(s.queue, d)
    {
      ClearedMine(s.queue, c, d);
      InsertMine(r, p, s.now, d);
    }
  }

  /** What starting to probe needs of the PCB and of the services. */
  predicate Startable(s: State, c: Slot, svcs: seq<nat>, ip: bool)
    requires |s.pcbs| == 6
  {
    && s.pcbs[c].sock && NoDup(s.pcbs[c].services) && AllIn(s.pcbs[c].services, s.services)
    && NoDup(svcs) && AllIn(svcs, s.services) && (svcs != [] || ip)
  }

  lemma BeganLog(log: seq<Event>, c: Slot)
    requires LogOk(log)
    ensures LogOk(log + [Began(c)])
    ensures forall d: Slot :: Episode(log + [Began(c)], d) == if d == c then [] else Episode(log, d)
  {
    LogSnoc(log, Began(c));
    forall d: Slot
      ensures Episode(log + [Began(c)], d) == if d == c then [] else Episode(log, d)
    {
      EpisodeSnoc(log, Began(c), d);
    }
  }

  lemma NewProbeOk(s: State, c: Slot, svcs: seq<nat>, ip: bool, o: Oracle)
    requires |s.pcbs| == 6 && Startable(s, c, svcs, ip)
    ensures var b := BeginPcb(s.pcbs[c], svcs, ip); SliceIn(s.services)(b, [NewProbe(s, c, b, o)], [])
  {
    var b := BeginPcb(s.pcbs[c], svcs, ip);
    var p := NewProbe(s, c, b, o);
    var v4, v6 := s.pcbs[V4Of(c)].sock, s.pcbs[V6Of(c)].sock;
    assert V4Of(c) == c || V6Of(c) == c;
    BeginOk(s.pcbs[c], svcs, ip, s.services, p.id, c, p.sendAt, v4, v6);
  }

  lemma InitProbeOk(s: State, c: Slot, svcs: seq<nat>, ip: bool, o: Oracle)
    requires Core(s) && Startable(s, c, svcs, ip)
    ensures var t := InitProbe(s, c, svcs, ip, o);
      Core(t) && SlotOk(t, c) && Others(s, t, c) && SameLife(s, t)
  {
    var b := BeginPcb(s.pcbs[c], svcs, ip);
    Replace(s, c, NewProbe(s, c, b, o));
    BeganLog(s.log, c);
    NewProbeOk(s, c, svcs, ip, o);
    OthersLife(s, InitProbe(s, c, svcs, ip, o), c);
  }
}
