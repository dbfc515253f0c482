/** From every state of every run the two tasks alone can bring all PCBs to rest. */
module Progress {
  import opened TxQueue
  import opened Pcbs
  import opened Responder
  import opened Sending
  import opened Runs

  /** How many packets a PCB still has to send before it is done. */
  function Work(pcb: Pcb): nat {
    if Rank(pcb.state) >= Rank(PROBE_1) then Rank(RUNNING) - Rank(pcb.state) else 0
  }

  function AllWork(s: State): nat
    requires |s.pcbs| == 6
  {
    Work(s.pcbs[0]) + Work(s.pcbs[1]) + Work(s.pcbs[2]) + Work(s.pcbs[3]) + Work(s.pcbs[4]) + Work(s.pcbs[5])
  }

  /** Only the two tasks, and the time that passes. */
  predicate TaskStep(step: Step) {
    step.Wait? || step.TimerTask? || step.TxAction?
  }

  predicate TaskSteps(steps: seq<Step>) {
    forall k :: 0 <= k < |steps| ==> TaskStep(steps[k])
  }

  predicate AtRest(s: State)
    requires |s.pcbs| == 6
  {
    s.queue == [] && forall c: Slot :: s.pcbs[c].state == OFF || s.pcbs[c].state == DUP || s.pcbs[c].state == RUNNING
  }

  lemma WorkLess(s: State, t: State, c: Slot)
    requires |s.pcbs| == |t.pcbs| == 6 && t.pcbs == s.pcbs[c := t.pcbs[c]]
    ensures AllWork(t) - AllWork(s) == Work(t.pcbs[c]) - Work(s.pcbs[c])
  {
  }

  lemma HandledWork(pcb: Pcb, p: Packet, now: nat, address: nat)
    requires Rank(pcb.state) >= Rank(PROBE_1)
    ensures var h := HandlePacket(pcb, p, now, address, true);
      if pcb.state == RUNNING then h.pcb == pcb && h.again == [] else Work(h.pcb) < Work(pcb)
  {
  }

  /** A sent packet brings its PCB nearer to its end, or it was a response and leaves the queue. */
  lemma SendingProgress(s: State, hint: nat)
    requires Inv(s) && Meets(s)
    ensures var t := SendHead(s, hint, true);
      AllWork(t) < AllWork(s) || (AllWork(t) == AllWork(s) && |t.queue| < |s.queue|)
  {
    var p := s.queue[0];
    assert SlotOk(s, p.pcb);
    assert Mine(s.queue, p.pcb) != [];
    HandledWork(s.pcbs[p.pcb], p, s.now, Unused(hint, s.queue));
    WorkLess(s, SendHead(s, hint, true), p.pcb);
  }

  /** With no action pending, waiting and one look of the timer task lead to the sending of the head. */
  lemma HeadPosted(s: State)
    requires Inv(s) && s.actions == [] && s.queue != []
    ensures var u := Timer(Tick(s, s.queue[0].sendAt + 1), true);
      Inv(u) && Meets(u) && u.pcbs == s.pcbs && |u.queue| == |s.queue|
  {
    var w := Tick(s, s.queue[0].sendAt + 1);
    TickOk(s, s.queue[0].sendAt + 1);
    TimerOk(w, true);
    assert Unqueued(w.queue) == 0;
  }

  lemma EmptyAtRest(s: State)
    requires Inv(s) && s.queue == []
    ensures AtRest(s)
  {
    forall c: Slot
      ensures s.pcbs[c].state == OFF || s.pcbs[c].state == DUP || s.pcbs[c].state == RUNNING
    {
      assert SlotOk(s, c) && Mine(s.queue, c) == [];
    }
  }

  lemma Prefixed(step: Step, steps: seq<Step>)
    requires TaskStep(step) && TaskSteps(steps)
    ensures TaskSteps([step] + steps) && ([step] + steps)[0] == step && ([step] + steps)[1..] == steps
  {
  }

  /**
   * No PCB ever waits for a packet that does not exist: wherever a run has got to, there is a way on by the clock
   * and the two tasks alone that ends with an empty queue and every PCB running, off or a duplicate.
   */
  lemma {:induction false} ComesToRest(s: State) returns (steps: seq<Step>, t: State)
    requires Inv(s)
    ensures Reaches(s, steps, t) && TaskSteps(steps) && |t.pcbs| == 6 && AtRest(t)
    decreases AllWork(s), |s.queue|, |s.actions|
  {
    if s.actions != [] {
      var step := TxAction(0, true);
      TxOk(s, 0, true);
      if Meets(s) {
        SendingProgress(s, 0);
      }
      steps, t := ComesToRest(Apply(s, step));
      Prefixed(step, steps);
      steps := [step] + steps;
    } else if s.queue == [] {
      EmptyAtRest(s);
      steps, t := [], s;
    } else {
      steps, t := OneRound(s);
    }
  }

  /** Wait, post, send, and go on. */
  lemma {:induction false} OneRound(s: State) returns (steps: seq<Step>, t: State)
    requires Inv(s) && s.actions == [] && s.queue != []
    ensures Reaches(s, steps, t) && TaskSteps(steps) && |t.pcbs| == 6 && AtRest(t)
    decreases AllWork(s), |s.queue|, |s.actions|, 0
  {
    var wait, post, send := Wait(s.queue[0].sendAt + 1), TimerTask(true), TxAction(0, true);
    var w := Apply(s, wait);
    var u := Apply(w, post);
    HeadPosted(s);
    SendingProgress(u, 0);
    TxOk(u, 0, true);
    assert AllWork(u) == AllWork(s);
    steps, t := ComesToRest(Apply(u, send));
    Prefixed(send, steps);
    Prefixed(post, [send] + steps);
    Prefixed(wait, [post] + ([send] + steps));
    assert Reaches(u, [send] + steps, t);
    assert Reaches(w, [post] + ([send] + steps), t);
    steps := [wait] + ([post] + ([send] + steps));
  }

  /** So it is in every reachable state. */
  lemma AlwaysSettles(s: State, past: seq<Step>) returns (steps: seq<Step>, t: State)
    requires Reachable(s, past)
    ensures |s.pcbs| == 6 && Reaches(s, steps, t) && TaskSteps(steps) && |t.pcbs| == 6 && AtRest(t)
  {
    ReachableInv(s, past);
    steps, t := ComesToRest(s);
  }
}
