/** Runs of the responder in which it does less than it should. */
module Mishaps {
  import opened TxQueue
  import opened Pcbs
  import opened Responder
  import opened Sending
  import opened Events
  import opened Interfaces
  import opened Runs
  import opened HandOver
  import opened Repeats

  lemma Before(s: State, step: Step, next: State, rest: seq<Step>, u: State)
    requires |s.pcbs| == |next.pcbs| == 6 && Allowed(s, step) && next == Apply(s, step) && Reaches(next, rest, u)
    ensures Reaches(s, [step] + rest, u)
  {
    assert ([step] + rest)[1..] == rest;
  }

  lemma {:induction false} Joined(s: State, one: seq<Step>, t: State, two: seq<Step>, u: State)
    requires |s.pcbs| == |t.pcbs| == 6 && Reaches(s, one, t) && Reaches(t, two, u)
    ensures Reaches(s, one + two, u)
    decreases |one|
  {
    if one == [] {
      assert one + two == two;
    } else {
      var next := Apply(s, one[0]);
      Joined(next, one[1..], t, two, u);
      Before(s, one[0], next, one[1..] + two, u);
      assert one + two == [one[0]] + (one[1..] + two);
    }
  }

  lemma OneMore(s: State, steps: seq<Step>, t: State, step: Step)
    requires |s.pcbs| == |t.pcbs| == 6 && Reaches(s, steps, t) && Allowed(t, step)
    ensures Reaches(s, steps + [step], Apply(t, step))
  {
    assert [step][1..] == [];
    Joined(s, steps, t, [step], Apply(t, step));
  }

  // ---------------------------------------------------------------------------------------------------------
  // The first announcement of a host

  /** The queue has one packet, of the first PCB, and nothing is pending. */
  predicate Single(s: State, state: PcbState) {
    && |s.pcbs| == 6 && s.pcbs[0].state == state && s.actions == []
    && |s.queue| == 1 && s.queue[0].pcb == 0 && !s.queue[0].queued
  }

  /** It is sent when it is due. */
  lemma SendOnly(past: seq<Step>, s: State, state: PcbState) returns (steps: seq<Step>, t: State)
    requires Reachable(s, past) && Single(s, state) && (Probing(state) || state == ANNOUNCE_1)
    ensures Reachable(t, steps) && |t.pcbs| == 6
    ensures var h := HandlePacket(s.pcbs[0], s.queue[0].(queued := true), t.now, Unused(0, Marked(s.queue, 0)), true);
      t.pcbs == s.pcbs[0 := h.pcb] && t.queue == h.again && t.actions == []
  {
    var wait, post, send := Wait(s.queue[0].sendAt + 1), TimerTask(true), TxAction(0, true);
    var w := Apply(s, wait);
    var u := Apply(w, post);
    t := Apply(u, send);
    OneMore(START, past, s, wait);
    OneMore(START, past + [wait], w, post);
    OneMore(START, past + [wait] + [post], u, send);
    steps := past + [wait] + [post] + [send];
    assert Unqueued(w.queue) == 0;
    assert u.queue == [s.queue[0].(queued := true)] && u.actions == [s.queue[0].id];
    assert Meets(u) && u.queue[1..] == [];
  }

  lemma FirstProbe() returns (steps: seq<Step>, t: State)
    ensures Reachable(t, steps) && Single(t, PROBE_1)
  {
    var up := EnablePcb(0, true, Oracle([], []));
    t := Apply(START, up);
    OneMore(START, [], START, up);
    steps := [] + [up];
    assert Cleared(PcbInit(START, 0).queue, 0) == [];
  }

  /** Three probes later the PCB is about to announce. */
  lemma FirstAnnouncing() returns (steps: seq<Step>, t: State)
    ensures Reachable(t, steps) && Single(t, ANNOUNCE_1) && t.queue[0].sendAt == t.now + 250 && !t.queue[0].distributed
  {
    steps, t := FirstProbe();
    steps, t := SendOnly(steps, t, PROBE_1);
    steps, t := SendOnly(steps, t, PROBE_2);
    steps, t := SendOnly(steps, t, PROBE_3);
  }

  // ---------------------------------------------------------------------------------------------------------
  // An announcement that leaves once

  /** A shared response with the address of the host. */
  const ANSWER: Packet := Packet(0, 0, 0, false, true, [], [Ans(A, Host, false)], [], [])

  lemma AnswerIsResponse(services: seq<nat>)
    ensures Response(ANSWER, services)
  {
  }

  /** Three packets of the first PCB are due, the last of them the announcement. */
  predicate ThreeDue(s: State) {
    && |s.pcbs| == 6 && s.pcbs[0].state == ANNOUNCE_1 && s.actions == [] && |s.queue| == 3
    && forall k :: 0 <= k < 3 ==> s.queue[k].pcb == 0 && !s.queue[k].queued && s.queue[k].sendAt < s.now
  }

  /** Two shared responses come before the announcement. */
  lemma TwoResponses() returns (past: seq<Step>, s: State)
    ensures Reachable(s, past) && ThreeDue(s) && !s.queue[2].distributed
  {
    var t;
    past, t := FirstAnnouncing();
    var a := t.queue[0];
    var respond, wait := RxRespond(ANSWER, 0, 0), Wait(251);
    AnswerIsResponse(t.services);
    var one := Apply(t, respond);
    var x := Outgoing(t, ANSWER, 0, 0);
    assert one.queue == [x] + [a];
    OneMore(START, past, t, respond);
    var two := Apply(one, respond);
    var y := Outgoing(one, ANSWER, 0, 0);
    assert ([x] + [a])[1..] == [a] && Insert([a], y) == [y] + [a];
    assert two.queue == [x] + ([y] + [a]);
    OneMore(START, past + [respond], one, respond);
    s := Apply(two, wait);
    OneMore(START, past + [respond] + [respond], two, wait);
    past := past + [respond] + [respond] + [wait];
  }

  lemma UnqueuedIs(q: seq<Packet>, k: nat)
    requires k < |q| && !q[k].queued && forall i :: 0 <= i < k ==> q[i].queued
    ensures Unqueued(q) == k
  {
    var u := Unqueued(q);
  }

  /** The timer task posts one after the other. */
  lemma PostThree(s: State)
    requires ThreeDue(s)
    ensures var t := Apply(Apply(Apply(s, TimerTask(true)), TimerTask(true)), TimerTask(true));
      && t == s.(queue := t.queue, actions := [s.queue[0].id, s.queue[1].id, s.queue[2].id])
      && |t.queue| == 3 && forall k :: 0 <= k < 3 ==> t.queue[k] == s.queue[k].(queued := true)
  {
    var a := Apply(s, TimerTask(true));
    UnqueuedIs(s.queue, 0);
    var b := Apply(a, TimerTask(true));
    UnqueuedIs(a.queue, 1);
    var t := Apply(b, TimerTask(true));
    UnqueuedIs(b.queue, 2);
    assert t.actions == [s.queue[0].id] + [s.queue[1].id] + [s.queue[2].id];
  }

  /** A packet that is not the last of an announcement goes to the end of the queue. */
  lemma SendFirst(s: State, p: Packet, q: seq<Packet>)
    requires |s.pcbs| == 6 && s.queue == [p] + q && Meets(s) && p.pcb == 0
    requires s.pcbs[0].state == ANNOUNCE_1 || s.pcbs[0].state == ANNOUNCE_2
    requires forall k :: 0 <= k < |q| ==> q[k].sendAt <= s.now + 1000
    ensures var t := Apply(s, TxAction(0, true));
      && t.queue == q + [Later(p, s.now + 1000)] && t.actions == s.actions[1..] && t.now == s.now
      && Rank(t.pcbs[0].state) == Rank(s.pcbs[0].state) + 1
  {
    InsertLast(q, Later(p, s.now + 1000));
  }

  lemma {:induction false} InsertLast(q: seq<Packet>, p: Packet)
    requires forall k :: 0 <= k < |q| ==> q[k].sendAt <= p.sendAt
    ensures Insert(q, p) == q + [p]
  {
    if q == [] {
    } else {
      InsertLast(q[1..], p);
      assert q == [q[0]] + q[1..];
    }
  }

  predicate Ripe(p: Packet, now: nat) {
    p.pcb == 0 && p.queued && p.sendAt < now
  }

  /** Then the service task sends them: the responses use up the repetitions. */
  lemma SendTwo(s: State, x: Packet, y: Packet, a: Packet) returns (x': Packet, y': Packet)
    requires |s.pcbs| == 6 && s.pcbs[0].state == ANNOUNCE_1 && s.queue == [x] + ([y] + [a])
    requires s.actions == [x.id] + ([y.id] + [a.id])
    requires Ripe(x, s.now) && Ripe(y, s.now) && Ripe(a, s.now)
    requires x.id != a.id && y.id != a.id
    ensures var one := Apply(s, TxAction(0, true));
      var u := Apply(one, TxAction(0, true));
      && !Sends(s, TxAction(0, true), a.id) && !Sends(one, TxAction(0, true), a.id)
      && u.queue == [a] + ([x'] + [y']) && u.actions == [a.id] && u.pcbs[0].state == ANNOUNCE_3 && u.now == s.now
    ensures x'.id == x.id && y'.id == y.id
  {
    x', y' := Later(x, s.now + 1000), Later(y, s.now + 1000);
    SendFirst(s, x, [y] + [a]);
    assert [y] + [a] + [x'] == [y] + ([a] + [x']) && s.actions[1..] == [y.id] + [a.id];
    SendFirst(Apply(s, TxAction(0, true)), y, [a] + [x']);
    assert [a] + [x'] + [y'] == [a] + ([x'] + [y']) && ([y.id] + [a.id])[1..] == [a.id];
  }

  /** The announcement leaves once. */
  lemma SendThree(s: State, x: Packet, y: Packet, a: Packet)
    requires |s.pcbs| == 6 && s.pcbs[0].state == ANNOUNCE_1 && s.queue == [x] + ([y] + [a])
    requires s.actions == [x.id] + ([y.id] + [a.id])
    requires Ripe(x, s.now) && Ripe(y, s.now) && Ripe(a, s.now)
    requires x.id != a.id && y.id != a.id
    ensures var send := TxAction(0, true);
      var u := Apply(Apply(s, send), send);
      && !Sends(s, send, a.id) && !Sends(Apply(s, send), send, a.id)
      && Sends(u, send, a.id) && u.pcbs[0].state == ANNOUNCE_3 && u.now == s.now
      && a.id !in Ids(Apply(u, send).queue)
  {
    var x', y' := SendTwo(s, x, y, a);
    LastSent(Apply(Apply(s, TxAction(0, true)), TxAction(0, true)), a, [x'] + [y']);
  }

  lemma LastSent(s: State, a: Packet, rest: seq<Packet>)
    requires |s.pcbs| == 6 && s.pcbs[0].state == ANNOUNCE_3 && s.queue == [a] + rest && a.pcb == 0 && Meets(s)
    requires forall k :: 0 <= k < |rest| ==> rest[k].id != a.id
    ensures Sends(s, TxAction(0, true), a.id) && a.id !in Ids(Apply(s, TxAction(0, true)).queue)
  {
    assert s.queue[1..] == rest;
  }

  /** A step that does not send the packet. */
  lemma Passed(s: State, step: Step, rest: seq<Step>, id: nat, t: State)
    requires |s.pcbs| == 6 && Allowed(s, step) && !Sends(s, step, id) && Reaches(Apply(s, step), rest, t)
    ensures Reaches(s, [step] + rest, t)
    ensures LeavesIn(s, [step] + rest, id, 0) == LeavesIn(Apply(s, step), rest, id, 0)
  {
    assert ([step] + rest)[1..] == rest;
  }

  const POST: Step := TimerTask(true)
  const SEND: Step := TxAction(0, true)

  /** All three are posted, then all three are sent. */
  const ONCE: seq<Step> := [POST] + ([POST] + ([POST] + ([SEND] + ([SEND] + [SEND]))))

  lemma AfterSends(s: State, x: Packet, y: Packet, a: Packet) returns (t: State)
    requires |s.pcbs| == 6 && s.pcbs[0].state == ANNOUNCE_1 && s.queue == [x] + ([y] + [a])
    requires s.actions == [x.id] + ([y.id] + [a.id])
    requires Ripe(x, s.now) && Ripe(y, s.now) && Ripe(a, s.now)
    requires x.id != a.id && y.id != a.id
    ensures Reaches(s, [SEND] + ([SEND] + [SEND]), t) && a.id !in Ids(t.queue)
    ensures LeavesIn(s, [SEND] + ([SEND] + [SEND]), a.id, 0) == ANNOUNCE_3
  {
    SendThree(s, x, y, a);
    var one := Apply(s, SEND);
    var two := Apply(one, SEND);
    t := Apply(two, SEND);
    assert [SEND][1..] == [] && Reaches(two, [SEND], t);
    Passed(one, SEND, [SEND], a.id, t);
    Passed(s, SEND, [SEND] + [SEND], a.id, t);
  }

  lemma AfterOnce(s: State) returns (t: State)
    requires ThreeDue(s) && s.queue[0].id != s.queue[2].id && s.queue[1].id != s.queue[2].id
    ensures Reaches(s, ONCE, t) && s.queue[2].id !in Ids(t.queue)
    ensures LeavesIn(s, ONCE, s.queue[2].id, 0) == ANNOUNCE_3
  {
    var id := s.queue[2].id;
    var a := Apply(s, POST);
    var b := Apply(a, POST);
    var u := Apply(b, POST);
    PostThree(s);
    assert u.queue == [u.queue[0]] + ([u.queue[1]] + [u.queue[2]]);
    t := AfterSends(u, u.queue[0], u.queue[1], u.queue[2]);
    Passed(b, POST, [SEND] + ([SEND] + [SEND]), id, t);
    Passed(a, POST, [POST] + ([SEND] + ([SEND] + [SEND])), id, t);
    Passed(s, POST, [POST] + ([POST] + ([SEND] + ([SEND] + [SEND]))), id, t);
  }

  /** A run from the start in which two shared responses come first, and the announcement leaves only once. */
  lemma LeavesOnce() returns (past: seq<Step>, s: State, id: nat, t: State)
    ensures Reachable(s, past) && |s.pcbs| == 6 && s.pcbs[0].state == ANNOUNCE_1 && Reaches(s, ONCE, t)
    ensures Waits(s.queue, id, 0, 0) && !Waits(t.queue, id, 0, 0) && |Departures(s, ONCE, id)| == 1
    ensures LeavesIn(s, ONCE, id, 0) == ANNOUNCE_3
  {
    past, s := TwoResponses();
    ReachableInv(s, past);
    GoodPairs(s.queue, s.now, 0, 2);
    GoodPairs(s.queue, s.now, 1, 2);
    id := s.queue[2].id;
    t := AfterOnce(s);
    assert Is(s.queue[2], id, 0, 0);
    RepeatsExact(s, ONCE, t, id, 0, 0);
  }

  // ---------------------------------------------------------------------------------------------------------
  // A response that is left without answers

  /** Looking for an answer to suppress on that PCB, the code follows a null pointer. */
  predicate FollowsNull(q: seq<Packet>, c: Slot) {
    exists p :: p in q && Emptied(p, c)
  }

  predicate Emptied(p: Packet, c: Slot) {
    p.pcb == c && p.distributed && p.answers == []
  }

  /** The answer is the only one that the shared response has. */
  predicate LastAnswer(p: Packet, c: Slot, kind: Kind, about: Ref) {
    p.pcb == c && p.distributed && |p.answers| == 1 && p.answers[0].kind == kind && p.answers[0].about == about
  }

  /** Suppression leads there if and only if it takes the last answer out of some shared response. */
  lemma EmptiedExact(q: seq<Packet>, c: Slot, kind: Kind, about: Ref)
    requires !FollowsNull(q, c)
    ensures FollowsNull(Suppressed(q, c, kind, about), c) <==> exists p :: p in q && LastAnswer(p, c, kind, about)
  {
    var r := Suppressed(q, c, kind, about);
    forall k | 0 <= k < |q|
      ensures Emptied(r[k], c) <==> LastAnswer(q[k], c, kind, about)
    {
      assert q[k] in q && !Emptied(q[k], c);
    }
    if exists p :: p in q && LastAnswer(p, c, kind, about) {
      var k :| 0 <= k < |q| && LastAnswer(q[k], c, kind, about);
      assert r[k] in r && Emptied(r[k], c);
    }
    if FollowsNull(r, c) {
      var k :| 0 <= k < |r| && Emptied(r[k], c);
      assert q[k] in q && LastAnswer(q[k], c, kind, about);
    }
  }

  /** A run from the start that leads there: a response with one answer, and that answer heard from another host. */
  lemma NullFollowed() returns (steps: seq<Step>, t: State)
    ensures Reachable(t, steps) && FollowsNull(t.queue, 0)
  {
    var s;
    steps, s := FirstAnnouncing();
    var respond, suppress := RxRespond(ANSWER, 0, 0), RxSuppress(0, A, Host);
    AnswerIsResponse(s.services);
    var u := Apply(s, respond);
    OneMore(START, steps, s, respond);
    InsertIn(s.queue, Outgoing(s, ANSWER, 0, 0));
    t := Apply(u, suppress);
    OneMore(START, steps + [respond], u, suppress);
    steps := steps + [respond] + [suppress];
    SuppressedAnswer(u.queue, Outgoing(s, ANSWER, 0, 0));
  }

  lemma SuppressedAnswer(q: seq<Packet>, x: Packet)
    requires x in q && x.pcb == 0 && x.distributed && x.answers == [Ans(A, Host, false)]
    ensures FollowsNull(Suppressed(q, 0, A, Host), 0)
  {
    var r := Suppressed(q, 0, A, Host);
    var k :| 0 <= k < |q| && q[k] == x;
    assert r[k] in r && Emptied(r[k], 0);
  }
}
