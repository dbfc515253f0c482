/** What the SPI link does with the reading task undisturbed, and when it can deliver all that was accepted. */
module SpiDelivery {
  import opened Spi

  // ---------------------------------------------------------------------------------------------------------
  // Nothing between reading and looking again

  /** Any run of the code. */
  function After(l: Link, steps: seq<Step>): (t: Link)
    requires Shaped(l)
    ensures Shaped(t)
    decreases |steps|
  {
    if steps == [] then l else After(Apply(l, steps[0]), steps[1..])
  }

  /** The reading task looks again at once when it has read. */
  predicate Undisturbed(steps: seq<Step>) {
    forall k :: 0 <= k < |steps| - 1 && steps[k].Read? ==> steps[k + 1].Recheck?
  }

  /** A slave that holds the master back is full, or the reading task has just made room. */
  predicate Quiet(l: Link) {
    l.slave.waiting ==>
      if l.slave.reading then |l.slave.ring| > BLOCK && Room(l) else !Room(l)
  }

  /** Then the line is raised again only with room for a block. */
  lemma QuietStep(l: Link, step: Step)
    requires LinkOk(l) && Quiet(l) && (l.slave.reading ==> step.Recheck?)
    ensures Careful(l, step) && LinkOk(Apply(l, step)) && Quiet(Apply(l, step))
    ensures Apply(l, step).slave.reading ==> step.Read?
  {
    StepOk(l, step);
  }

  lemma {:induction false} UndisturbedRun(l: Link, steps: seq<Step>)
    requires LinkOk(l) && Quiet(l) && Undisturbed(steps)
    requires l.slave.reading && steps != [] ==> steps[0].Recheck?
    ensures Reaches(l, steps, After(l, steps)) && LinkOk(After(l, steps)) && Quiet(After(l, steps))
    decreases |steps|
  {
    if steps == [] {
    } else {
      QuietStep(l, steps[0]);
      assert Undisturbed(steps[1..]) by {
        assert forall k :: 0 <= k < |steps| - 1 ==> steps[1..][k] == steps[k + 1];
      }
      UndisturbedRun(Apply(l, steps[0]), steps[1..]);
    }
  }

  /** In every run of the code in which nothing comes between reading and looking again, nothing is lost. */
  lemma UndisturbedConserved(steps: seq<Step>)
    requires Undisturbed(steps)
    ensures var t := After(START, steps);
      && t.accepted == t.delivered + t.slave.ring + OnWire(t) + t.master.ring
      && t.delivered <= t.accepted
  {
    StartOk();
    UndisturbedRun(START, steps);
    StreamConserved(steps, After(START, steps));
  }

  // ---------------------------------------------------------------------------------------------------------
  // Delivery

  /** The reading task is about to raise the line while the ring is full: no careful step leads on. */
  predicate Stuck(l: Link) {
    l.slave.waiting && l.slave.reading && !Room(l)
  }

  /** What holds of a waiting slave in every careful run. */
  predicate Held(l: Link) {
    l.slave.waiting ==> !Room(l) || (l.slave.reading && |l.slave.ring| > BLOCK)
  }

  lemma {:induction false} HeldRun(l: Link, steps: seq<Step>, t: Link)
    requires LinkOk(l) && Held(l) && Reaches(l, steps, t)
    ensures LinkOk(t) && Held(t)
    decreases |steps|
  {
    if steps == [] {
    } else {
      StepOk(l, steps[0]);
      HeldRun(Apply(l, steps[0]), steps[1..], t);
    }
  }

  /** How many steps until bytes are next delivered. */
  function Rank(l: Link): nat {
    if l.slave.reading then 9
    else if l.slave.ring != [] then 0
    else if l.master.mode == NULL then (if l.wire != [] then 7 else if l.irq then 5 else 6)
    else if l.wire == [] then (if l.master.len > 0 then 2 else 8)
    else if l.wire[0].Data? then 1
    else 2 + |l.wire|
  }

  /** The next step towards delivery. */
  function Towards(l: Link): Step {
    if l.slave.reading then Recheck
    else if l.slave.ring != [] then Read
    else if l.wire != [] then Transfer
    else if l.irq then Interrupt(Zeros(BLOCK))
    else Kick
  }

  function Pending(l: Link): int {
    |l.accepted| - |l.delivered|
  }

  lemma Progress(l: Link)
    requires LinkOk(l) && Quiet(l) && Pending(l) > 0
    ensures var t := Apply(l, Towards(l));
      && Careful(l, Towards(l)) && LinkOk(t) && Quiet(t) && t.accepted == l.accepted
      && (Pending(t) < Pending(l) || (Pending(t) == Pending(l) && Rank(t) < Rank(l)))
  {
    QuietStep(l, Towards(l));
  }

  /** Some steps later everything is delivered. */
  lemma {:induction false} Deliver(l: Link) returns (steps: seq<Step>, t: Link)
    requires LinkOk(l) && Quiet(l)
    ensures Reaches(l, steps, t) && t.accepted == l.accepted && t.delivered == l.accepted
    decreases Pending(l), Rank(l)
  {
    if Pending(l) <= 0 {
      steps, t := [], l;
    } else {
      Progress(l);
      var more, end := Deliver(Apply(l, Towards(l)));
      steps, t := [Towards(l)] + more, end;
    }
  }

  lemma {:induction false} StuckStays(l: Link, steps: seq<Step>, t: Link)
    requires LinkOk(l) && Stuck(l) && Reaches(l, steps, t)
    ensures t.delivered == l.delivered
    decreases |steps|
  {
    if steps == [] {
    } else {
      StepOk(l, steps[0]);
      StuckStays(Apply(l, steps[0]), steps[1..], t);
    }
  }

  predicate Delivers(l: Link, steps: seq<Step>, t: Link)
    requires Shaped(l)
  {
    Reaches(l, steps, t) && t.accepted == l.accepted && t.delivered == l.accepted
  }

  /**
   * From a state of a careful run all that was accepted can be delivered, without any loss, if and only if the
   * reading task is not about to raise the line over a full ring.
   */
  lemma DeliveryExact(steps: seq<Step>, l: Link)
    requires Reaches(START, steps, l)
    ensures LinkOk(l) && ((exists more, t :: Delivers(l, more, t)) <==> !Stuck(l))
  {
    StartOk();
    HeldRun(START, steps, l);
    if Stuck(l) {
      forall more, t
        ensures !Delivers(l, more, t)
      {
        if Reaches(l, more, t) {
          StuckStays(l, more, t);
        }
      }
    } else {
      var more, t := Deliver(l);
      assert Delivers(l, more, t);
    }
  }

  /** In an undisturbed run it always can. */
  lemma UndisturbedDelivers(steps: seq<Step>) returns (more: seq<Step>, t: Link)
    requires Undisturbed(steps)
    ensures Delivers(After(START, steps), more, t)
  {
    StartOk();
    UndisturbedRun(START, steps);
    more, t := Deliver(After(START, steps));
  }
}
