/** How often an announcement leaves, and at what distance (section 8.3 of RFC 6762). */
module Repeats {
  import opened TxQueue
  import opened Pcbs
  import opened Responder
  import opened Sending
  import opened Events
  import opened Runs
  import opened Progress
  import opened HandOver

  const ANNOUNCE_SPACING: nat := 1000

  /** The two tasks, the time that passes, and shared responses that are scheduled in between. */
  predicate Calm(step: Step) {
    TaskStep(step) || step.RxRespond?
  }

  predicate AllCalm(steps: seq<Step>) {
    forall k :: 0 <= k < |steps| ==> Calm(steps[k])
  }

  /** The step sends that packet. */
  predicate Sends(s: State, step: Step, id: nat) {
    step.TxAction? && Meets(s) && s.queue[0].id == id
  }

  /** The times at which a packet leaves, until it leaves for good. */
  function Departures(s: State, steps: seq<Step>, id: nat): seq<nat>
    requires |s.pcbs| == 6
    decreases |steps|
  {
    if steps == [] || id !in Ids(s.queue) then []
    else (if Sends(s, steps[0], id) then [s.now] else []) + Departures(Apply(s, steps[0]), steps[1..], id)
  }

  /** The state of the PCB when the packet first leaves. */
  function LeavesIn(s: State, steps: seq<Step>, id: nat, c: Slot): PcbState
    requires |s.pcbs| == 6
    decreases |steps|
  {
    if steps == [] || Sends(s, steps[0], id) then s.pcbs[c].state else LeavesIn(Apply(s, steps[0]), steps[1..], id, c)
  }

  predicate Distant(times: seq<nat>) {
    forall k :: 0 < k < |times| ==> times[k] >= times[k - 1] + ANNOUNCE_SPACING
  }

  // ---------------------------------------------------------------------------------------------------------
  // A packet in the queue

  predicate Is(p: Packet, id: nat, c: Slot, at: nat) {
    p.id == id && p.pcb == c && p.sendAt >= at
  }

  /** The packet is in the queue and not due before that time. */
  predicate Waits(q: seq<Packet>, id: nat, c: Slot, at: nat) {
    exists k :: 0 <= k < |q| && Is(q[k], id, c, at)
  }

  lemma WaitsIn(q: seq<Packet>, p: Packet, id: nat, c: Slot, at: nat)
    requires p in q && Is(p, id, c, at)
    ensures Waits(q, id, c, at)
  {
    var k :| 0 <= k < |q| && q[k] == p;
    assert Is(q[k], id, c, at);
  }

  lemma WaitsInsert(q: seq<Packet>, p: Packet, id: nat, c: Slot, at: nat)
    ensures Waits(q, id, c, at) || Is(p, id, c, at) ==> Waits(Insert(q, p), id, c, at)
  {
    InsertIn(q, p);
    if Waits(q, id, c, at) {
      var k :| 0 <= k < |q| && Is(q[k], id, c, at);
      WaitsIn(Insert(q, p), q[k], id, c, at);
    } else if Is(p, id, c, at) {
      WaitsIn(Insert(q, p), p, id, c, at);
    }
  }

  lemma WaitsMarked(q: seq<Packet>, k: nat, id: nat, c: Slot, at: nat)
    requires k < |q| && Waits(q, id, c, at)
    ensures Waits(Marked(q, k), id, c, at)
  {
    var j :| 0 <= j < |q| && Is(q[j], id, c, at);
    assert Is(Marked(q, k)[j], id, c, at);
  }

  lemma WaitsTail(q: seq<Packet>, id: nat, c: Slot, at: nat)
    requires q != [] && Waits(q, id, c, at) && q[0].id != id
    ensures Waits(q[1..], id, c, at)
  {
    var j :| 0 <= j < |q| && Is(q[j], id, c, at);
    assert q[1..][j - 1] == q[j];
  }

  /** As long as another packet is sent, or none, the packet stays where it is. */
  lemma CalmKeeps(s: State, step: Step, id: nat, c: Slot, at: nat)
    requires |s.pcbs| == 6 && Calm(step) && Waits(s.queue, id, c, at) && !Sends(s, step, id)
    ensures Waits(Apply(s, step).queue, id, c, at)
  {
    match step
    case Wait(ms) =>
    case TimerTask(posted) =>
      var k := Unqueued(s.queue);
      if k < |s.queue| {
        WaitsMarked(s.queue, k, id, c, at);
      }
    case TxAction(hint, memory) =>
      if Meets(s) {
        var p := s.queue[0];
        var h := HandlePacket(s.pcbs[p.pcb], p, s.now, Unused(hint, s.queue), memory);
        WaitsTail(s.queue, id, c, at);
        if h.again != [] {
          WaitsInsert(s.queue[1..], h.again[0], id, c, at);
        }
      }
    case RxRespond(p, hint, ms) => WaitsInsert(s.queue, Outgoing(s, p, hint, ms), id, c, at);
  }

  predicate Past(s: State, c: Slot)
    requires |s.pcbs| == 6
  {
    Rank(s.pcbs[c].state) > Rank(PROBE_3)
  }

  lemma CalmPast(s: State, step: Step, c: Slot)
    requires |s.pcbs| == 6 && Calm(step) && Past(s, c)
    ensures Past(Apply(s, step), c)
  {
    if step.TxAction? && Meets(s) && s.queue[0].pcb == c {
      Repeated(s.pcbs[c], s.queue[0], s.now, Unused(step.hint, s.queue), step.memory);
    }
  }

  lemma OnlyOne(q: seq<Packet>, now: nat, id: nat, c: Slot, at: nat)
    requires Good(q, now) && q != [] && q[0].id == id && Waits(q, id, c, at)
    ensures Is(q[0], id, c, at) && id !in Ids(q[1..])
  {
    var j :| 0 <= j < |q| && Is(q[j], id, c, at);
    if j > 0 {
      GoodPairs(q, now, 0, j);
    }
    GoodHead(q, now);
  }

  /** When it is sent, it comes back a second later if and only if the PCB has announcements to go. */
  lemma SentOut(s: State, step: Step, id: nat, c: Slot, at: nat)
    requires Inv(s) && Past(s, c) && Waits(s.queue, id, c, at) && Sends(s, step, id)
    ensures s.now > at
    ensures var t := Apply(s, step);
      if s.pcbs[c].state == ANNOUNCE_1 || s.pcbs[c].state == ANNOUNCE_2
      then Waits(t.queue, id, c, s.now + ANNOUNCE_SPACING) else id !in Ids(t.queue)
  {
    var p := s.queue[0];
    OnlyOne(s.queue, s.now, id, c, at);
    GoodDue(s.queue, s.now, 0);
    if s.pcbs[c].state == ANNOUNCE_1 || s.pcbs[c].state == ANNOUNCE_2 {
      WaitsInsert(s.queue[1..], Later(p, s.now + ANNOUNCE_SPACING), id, c, s.now + ANNOUNCE_SPACING);
    }
  }

  lemma WaitsId(q: seq<Packet>, id: nat, c: Slot, at: nat)
    requires Waits(q, id, c, at)
    ensures id in Ids(q) && Waits(q, id, c, 0)
  {
    var k :| 0 <= k < |q| && Is(q[k], id, c, at);
    assert Is(q[k], id, c, 0);
  }

  // ---------------------------------------------------------------------------------------------------------
  // Over runs

  lemma DistantCons(at: nat, times: seq<nat>)
    requires Distant(times) && (times != [] ==> times[0] >= at + ANNOUNCE_SPACING)
    ensures Distant([at] + times)
  {
  }

  /**
   * In a calm run a packet of a PCB past probing never leaves twice within a second. If it leaves for good, it has left
   * at least twice if and only if the PCB was in ANNOUNCE_1 or ANNOUNCE_2 when it first left.
   */
  lemma {:induction false} RepeatsExact(s: State, steps: seq<Step>, t: State, id: nat, c: Slot, at: nat)
    requires Inv(s) && Reaches(s, steps, t) && AllCalm(steps) && Past(s, c) && Waits(s.queue, id, c, at)
    ensures var times := Departures(s, steps, id);
      && Distant(times) && (times != [] ==> times[0] > at)
      && (!Waits(t.queue, id, c, 0) ==>
            && times != []
            && (|times| >= 2 <==> var st := LeavesIn(s, steps, id, c); st == ANNOUNCE_1 || st == ANNOUNCE_2))
    decreases |steps|
  {
    WaitsId(s.queue, id, c, at);
    if steps == [] {
    } else {
      var step, rest := steps[0], steps[1..];
      var next := Apply(s, step);
      StepKeeps(s, step);
      CalmPast(s, step, c);
      assert AllCalm(rest);
      if !Sends(s, step, id) {
        CalmKeeps(s, step, id, c, at);
        RepeatsExact(next, rest, t, id, c, at);
        assert Departures(s, steps, id) == Departures(next, rest, id);
      } else {
        SentOut(s, step, id, c, at);
        if s.pcbs[c].state == ANNOUNCE_1 || s.pcbs[c].state == ANNOUNCE_2 {
          RepeatsExact(next, rest, t, id, c, s.now + ANNOUNCE_SPACING);
          DistantCons(s.now, Departures(next, rest, id));
        } else {
          assert Departures(next, rest, id) == [];
        }
      }
    }
  }

  // ---------------------------------------------------------------------------------------------------------
  // From the first state on

  /** The step sends a packet of that PCB. */
  predicate SendsOf(s: State, step: Step, c: Slot) {
    step.TxAction? && Meets(s) && s.queue[0].pcb == c
  }

  /** How many other packets of the PCB leave before the packet first leaves. */
  function OthersBefore(s: State, steps: seq<Step>, id: nat, c: Slot): nat
    requires |s.pcbs| == 6
    decreases |steps|
  {
    if steps == [] || Sends(s, steps[0], id) then 0
    else (if SendsOf(s, steps[0], c) then 1 else 0) + OthersBefore(Apply(s, steps[0]), steps[1..], id, c)
  }

  /** So many steps further the machine of a PCB past probing. */
  function Onward(rank: nat, n: nat): nat {
    if rank + n <= Rank(RUNNING) then rank + n else Rank(RUNNING)
  }

  lemma CalmRank(s: State, step: Step, c: Slot)
    requires |s.pcbs| == 6 && Calm(step) && Past(s, c)
    ensures Rank(Apply(s, step).pcbs[c].state) == Onward(Rank(s.pcbs[c].state), if SendsOf(s, step, c) then 1 else 0)
  {
    if SendsOf(s, step, c) {
      Repeated(s.pcbs[c], s.queue[0], s.now, Unused(step.hint, s.queue), step.memory);
    }
  }

  lemma {:induction false} LeavesAfter(s: State, steps: seq<Step>, id: nat, c: Slot)
    requires |s.pcbs| == 6 && AllCalm(steps) && Past(s, c)
    ensures Rank(LeavesIn(s, steps, id, c)) == Onward(Rank(s.pcbs[c].state), OthersBefore(s, steps, id, c))
    decreases |steps|
  {
    if steps == [] || Sends(s, steps[0], id) {
    } else {
      CalmRank(s, steps[0], c);
      CalmPast(s, steps[0], c);
      assert AllCalm(steps[1..]);
      LeavesAfter(Apply(s, steps[0]), steps[1..], id, c);
    }
  }

  lemma RankTells(st: PcbState, n: nat)
    requires Rank(st) == Onward(Rank(ANNOUNCE_1), n)
    ensures st == ANNOUNCE_1 || st == ANNOUNCE_2 <==> n <= 1
  {
  }

  /**
   * An announcement leaves at least twice, a second or more apart, if and only if at most one other packet of its PCB
   * leaves before it, counted from where the PCB begins to announce.
   */
  lemma AnnouncedTwice(s: State, steps: seq<Step>, t: State, id: nat, c: Slot)
    requires Inv(s) && Reaches(s, steps, t) && AllCalm(steps) && s.pcbs[c].state == ANNOUNCE_1
    requires Waits(s.queue, id, c, 0) && !Waits(t.queue, id, c, 0)
    ensures Distant(Departures(s, steps, id))
    ensures |Departures(s, steps, id)| >= 2 <==> OthersBefore(s, steps, id, c) <= 1
  {
    RepeatsExact(s, steps, t, id, c, 0);
    LeavesAfter(s, steps, id, c);
    RankTells(LeavesIn(s, steps, id, c), OthersBefore(s, steps, id, c));
  }

  // ---------------------------------------------------------------------------------------------------------
  // With nothing else to send

  /** Nothing is scheduled on that PCB. */
  predicate Spares(step: Step, c: Slot) {
    TaskStep(step) || (step.RxRespond? && step.p.pcb != c)
  }

  predicate AllSpare(steps: seq<Step>, c: Slot) {
    forall k :: 0 <= k < |steps| ==> Spares(steps[k], c)
  }

  predicate Alone(s: State, id: nat, c: Slot) {
    |Mine(s.queue, c)| == 1 && Mine(s.queue, c)[0].id == id
  }

  lemma NoneMine(q: seq<Packet>, c: Slot)
    requires Mine(q, c) == []
    ensures forall k :: 0 <= k < |q| ==> q[k].pcb != c
  {
    FirstMine(q, c);
  }

  lemma {:induction false} AloneIs(q: seq<Packet>, id: nat, c: Slot)
    requires |Mine(q, c)| == 1 && Mine(q, c)[0].id == id
    ensures Waits(q, id, c, 0)
    ensures forall k :: 0 <= k < |q| && q[k].pcb == c ==> q[k].id == id
  {
    if q[0].pcb == c {
      assert Is(q[0], id, c, 0);
      NoneMine(q[1..], c);
      assert forall k :: 0 < k < |q| ==> q[k] == q[1..][k - 1];
    } else {
      AloneIs(q[1..], id, c);
      var k :| 0 <= k < |q[1..]| && Is(q[1..][k], id, c, 0);
      assert Is(q[k + 1], id, c, 0);
      assert forall k :: 0 < k < |q| ==> q[k] == q[1..][k - 1];
    }
  }

  lemma SparesKeeps(s: State, step: Step, id: nat, c: Slot)
    requires Inv(s) && Spares(step, c) && Alone(s, id, c) && !Sends(s, step, id)
    ensures Alone(Apply(s, step), id, c) && Apply(s, step).pcbs[c] == s.pcbs[c]
  {
    match step
    case Wait(ms) =>
    case TimerTask(posted) =>
      var k := Unqueued(s.queue);
      if k < |s.queue| {
        var j := MineUpdate(s.queue, k, s.queue[k].(queued := true), c);
      }
    case TxAction(hint, memory) =>
      if Meets(s) {
        AloneIs(s.queue, id, c);
        HeadQueue(s, hint, memory);
      }
    case RxRespond(p, hint, ms) => InsertMine(s.queue, Outgoing(s, p, hint, ms), s.now, c);
  }

  lemma AloneHead(s: State, id: nat, c: Slot)
    requires Inv(s) && Alone(s, id, c) && s.queue != [] && s.queue[0].id == id
    ensures s.queue[0].pcb == c && Mine(s.queue[1..], c) == []
  {
    AloneIs(s.queue, id, c);
    OnlyOne(s.queue, s.now, id, c, 0);
    assert Mine(s.queue, c) == [s.queue[0]] + Mine(s.queue[1..], c);
  }

  lemma SparesSent(s: State, step: Step, id: nat, c: Slot)
    requires Inv(s) && Alone(s, id, c) && Sends(s, step, id) && IsAnnouncing(s.pcbs[c].state)
    ensures var t := Apply(s, step);
      Rank(t.pcbs[c].state) == Rank(s.pcbs[c].state) + 1
      && if s.pcbs[c].state == ANNOUNCE_3 then Mine(t.queue, c) == [] else Alone(t, id, c)
  {
    AloneHead(s, id, c);
    HeadQueue(s, step.hint, step.memory);
    Repeated(s.pcbs[c], s.queue[0], s.now, Unused(step.hint, s.queue), step.memory);
  }

  /** What is left to send: as many announcements as there are steps of the machine. */
  function Left(s: State, c: Slot): int
    requires |s.pcbs| == 6
  {
    Rank(RUNNING) - Rank(s.pcbs[c].state)
  }

  predicate Lonely(s: State, id: nat, c: Slot) {
    Inv(s) && IsAnnouncing(s.pcbs[c].state) && Alone(s, id, c)
  }

  lemma LonelyKept(s: State, step: Step, id: nat, c: Slot)
    requires Lonely(s, id, c) && Allowed(s, step) && Spares(step, c) && !Sends(s, step, id)
    ensures Lonely(Apply(s, step), id, c) && Left(Apply(s, step), c) == Left(s, c)
  {
    StepKeeps(s, step);
    SparesKeeps(s, step, id, c);
  }

  lemma LonelySent(s: State, step: Step, id: nat, c: Slot)
    requires Lonely(s, id, c) && Allowed(s, step) && Sends(s, step, id) && Left(s, c) > 1
    ensures Lonely(Apply(s, step), id, c) && Left(Apply(s, step), c) == Left(s, c) - 1
  {
    StepKeeps(s, step);
    SparesSent(s, step, id, c);
  }

  lemma LonelyGone(s: State, step: Step, id: nat, c: Slot)
    requires Lonely(s, id, c) && Sends(s, step, id) && Left(s, c) == 1
    ensures id !in Ids(Apply(s, step).queue)
  {
    AloneIs(s.queue, id, c);
    SentOut(s, step, id, c, 0);
  }

  lemma LonelyThere(s: State, id: nat, c: Slot)
    requires Lonely(s, id, c)
    ensures id in Ids(s.queue) && Left(s, c) >= 1 && Mine(s.queue, c) != [] && Waits(s.queue, id, c, 0) && Past(s, c)
  {
    AloneIs(s.queue, id, c);
    WaitsId(s.queue, id, c, 0);
  }

  lemma {:induction false} CountDepartures(s: State, steps: seq<Step>, t: State, id: nat, c: Slot)
    requires Lonely(s, id, c) && Reaches(s, steps, t) && AllSpare(steps, c) && Mine(t.queue, c) == []
    ensures |Departures(s, steps, id)| == Left(s, c)
    decreases |steps|
  {
    LonelyThere(s, id, c);
    if steps == [] {
    } else {
      var step, rest := steps[0], steps[1..];
      assert AllSpare(rest, c);
      if !Sends(s, step, id) {
        LonelyKept(s, step, id, c);
        CountDepartures(Apply(s, step), rest, t, id, c);
      } else {
        if Left(s, c) == 1 {
          LonelyGone(s, step, id, c);
        } else {
          LonelySent(s, step, id, c);
          CountDepartures(Apply(s, step), rest, t, id, c);
        }
      }
    }
  }

  /** An announcement that is all its PCB has to send leaves three times, each a second or more after the one before. */
  lemma ThreeAnnouncements(s: State, steps: seq<Step>, t: State, id: nat, c: Slot)
    requires Inv(s) && Reaches(s, steps, t) && AllSpare(steps, c) && s.pcbs[c].state == ANNOUNCE_1 && Alone(s, id, c)
    requires Mine(t.queue, c) == []
    ensures Distant(Departures(s, steps, id)) && |Departures(s, steps, id)| == 3
  {
    SpareDistant(s, steps, t, id, c);
    CountDepartures(s, steps, t, id, c);
  }

  lemma SpareDistant(s: State, steps: seq<Step>, t: State, id: nat, c: Slot)
    requires Lonely(s, id, c) && Reaches(s, steps, t) && AllSpare(steps, c)
    ensures Distant(Departures(s, steps, id))
  {
    LonelyThere(s, id, c);
    SpareIsCalm(steps, c);
    RepeatsExact(s, steps, t, id, c, 0);
  }

  lemma SpareIsCalm(steps: seq<Step>, c: Slot)
    requires AllSpare(steps, c)
    ensures AllCalm(steps)
  {
  }
}
