/** The SPI byte stream from a master to a slave: status and data transfers under a handshake line. */
module Spi {
  import opened Bytes

  const RING: nat := 4096
  const BLOCK: nat := 64
  const READ_MAX: nat := 1024

  datatype Mode = NULL | WRITE

  /** `len` is what is left of the announced length; `ring` holds what the application has handed over. */
  datatype MasterState = MasterState(mode: Mode, len: nat, ring: seq<byte>)

  /**
   * `total` is what is left to receive of the announced length; `reading` says that the reading task has taken bytes
   * out of the ring and has not yet looked whether it is to raise the line again.
   */
  datatype SlaveState = SlaveState(total: nat, ring: seq<byte>, waiting: bool, reading: bool)

  /** A transfer: an announced length, or a block of 64 bytes of which only the first ones may count. */
  datatype Frame = Status(n: nat) | Data(block: seq<byte>)

  function Min(a: nat, b: nat): nat {
    if a < b then a else b
  }

  function Free(ring: seq<byte>): int {
    RING - |ring|
  }

  // ---------------------------------------------------------------------------------------------------------
  // The master's interrupt handler

  datatype IsrOut = IsrOut(master: MasterState, frames: seq<Frame>, again: bool)

  /** The block as it goes out: its first bytes from the ring, the rest whatever was on the stack. */
  function Block(front: seq<byte>, stack: seq<byte>): seq<byte>
    requires |front| <= BLOCK <= |stack|
  {
    front + stack[|front|..BLOCK]
  }

  /** What the handler does; `again` says that it raises the interrupt itself. */
  function Isr(m: MasterState, stack: seq<byte>): IsrOut
    requires |stack| >= BLOCK
  {
    if m.mode == NULL then
      if m.ring != [] then IsrOut(MasterState(WRITE, |m.ring|, m.ring), [Status(|m.ring|)], false)
      else IsrOut(m, [], false)
    else
      var n := Min(m.len, BLOCK);
      if n > 0 then
        if |m.ring| < n then IsrOut(m.(ring := []), [], false)
        else IsrOut(MasterState(WRITE, m.len - n, m.ring[n..]), [Data(Block(m.ring[..n], stack))], false)
      else if m.ring != [] then IsrOut(m.(mode := NULL), [], true)
      else IsrOut(m.(mode := NULL), [Status(0)], false)
  }

  class Master {
    var mode: Mode
    var len: nat
    var ring: seq<byte>

    ghost function Abs(): MasterState
      reads this
    {
      MasterState(mode, len, ring)
    }

    constructor ()
      ensures Abs() == MasterState(NULL, 0, [])
    {
      mode, len, ring := NULL, 0, [];
    }

    method HandleGpio(stack: seq<byte>) returns (frames: seq<Frame>, again: bool)
      requires |stack| >= BLOCK
      modifies this
      ensures var r := Isr(old(Abs()), stack); Abs() == r.master && frames == r.frames && again == r.again
    {
      frames, again := [], false;
      if mode == NULL {
        if |ring| != 0 {
          mode, len := WRITE, |ring|;
          frames := [Status(len)];
        }
        return;
      }
      var n := if len > BLOCK then BLOCK else len;
      if n > 0 {
        if |ring| < n {
          ring := [];
          return;
        }
        var front := ring[..n];
        ring := ring[n..];
        frames := [Data(Block(front, stack))];
        len := len - n;
      } else {
        mode := NULL;
        if |ring| != 0 {
          again := true;
        } else {
          frames := [Status(0)];
        }
      }
    }
  }

  // ---------------------------------------------------------------------------------------------------------
  // The slave's event callback and reading task

  datatype EventOut = EventOut(slave: SlaveState, raised: bool)

  /** What the ring takes of some bytes: as many as there is room for. */
  function Pushed(ring: seq<byte>, bytes: seq<byte>): seq<byte>
    requires |ring| <= RING
  {
    ring + bytes[..Min(|bytes|, RING - |ring|)]
  }

  /** What the callback does with a transfer; `raised` says that it raises the handshake line. */
  function OnFrame(s: SlaveState, f: Frame): EventOut
    requires |s.ring| <= RING && (f.Data? ==> |f.block| == BLOCK)
  {
    match f
    case Status(n) => EventOut(s.(total := n), n > 0)
    case Data(block) =>
      var n := Min(s.total, BLOCK);
      var ring := if n > 0 then Pushed(s.ring, block[..n]) else s.ring;
      var room := Free(ring) >= BLOCK;
      EventOut(SlaveState(s.total - n, ring, s.waiting || !room, s.reading), room)
  }

  class Slave {
    var total: nat
    var ring: seq<byte>
    var waiting: bool
    ghost var reading: bool

    ghost function Abs(): SlaveState
      reads this
    {
      SlaveState(total, ring, waiting, reading)
    }

    constructor ()
      ensures Abs() == SlaveState(0, [], false, false)
    {
      total, ring, waiting, reading := 0, [], false, false;
    }

    method HandleEvent(f: Frame) returns (raised: bool)
      requires |ring| <= RING && (f.Data? ==> |f.block| == BLOCK)
      modifies this
      ensures var r := OnFrame(old(Abs()), f); Abs() == r.slave && raised == r.raised
    {
      raised := false;
      match f
      case Data(block) =>
        var n := total;
        if n > BLOCK {
          n := BLOCK;
        }
        if n > 0 {
          ring := Pushed(ring, block[..n]);
          total := total - n;
        }
        if Free(ring) >= BLOCK {
          raised := true;
        } else {
          waiting := true;
        }
      case Status(n) =>
        total := n;
        if total > 0 {
          raised := true;
        }
    }

    /** Takes up to 1024 bytes out of the ring. */
    method TakeBytes() returns (bytes: seq<byte>)
      requires !reading
      modifies this
      ensures Abs() == TakenOut(old(Abs())) && bytes == old(ring)[..Min(READ_MAX, |old(ring)|)]
    {
      var k := Min(READ_MAX, |ring|);
      bytes, ring := ring[..k], ring[k..];
      reading := |bytes| != 0;
    }

    /** After reading, the line is raised again if more than 64 bytes are left in the ring. */
    method LookAgain() returns (raised: bool)
      requires reading
      modifies this
      ensures Abs() == LookedAgain(old(Abs())) && raised == Raises(old(Abs()))
    {
      raised := false;
      reading := false;
      if waiting {
        if |ring| > BLOCK {
          raised := true;
          waiting := false;
        }
      }
    }
  }

  function TakenOut(s: SlaveState): SlaveState {
    var k := Min(READ_MAX, |s.ring|);
    s.(ring := s.ring[k..], reading := k != 0)
  }

  /** The reading task raises the line when it finds bytes, where it would have to look for room. */
  predicate Raises(s: SlaveState) {
    s.reading && s.waiting && |s.ring| > BLOCK
  }

  function LookedAgain(s: SlaveState): SlaveState {
    s.(reading := false, waiting := s.waiting && !Raises(s))
  }

  // ---------------------------------------------------------------------------------------------------------
  // The link

  /** Both sides, the pending interrupt of the master, and the transfers on the wire in their order. */
  datatype Link = Link(accepted: seq<byte>, master: MasterState, irq: bool, wire: seq<Frame>, slave: SlaveState,
                       delivered: seq<byte>)

  datatype Step =
    | Accept(bytes: seq<byte>)
    | Kick
    | Interrupt(stack: seq<byte>)
    | Transfer
    | Read
    | Recheck

  /** The ring is not over its size, and every block on the wire has its size. */
  predicate Shaped(l: Link) {
    |l.slave.ring| <= RING && forall k :: 0 <= k < |l.wire| && l.wire[k].Data? ==> |l.wire[k].block| == BLOCK
  }

  function Apply(l: Link, step: Step): (r: Link)
    requires Shaped(l)
    ensures Shaped(r)
  {
    match step
    case Accept(bytes) =>
      if |l.master.ring| + |bytes| > RING then l
      else l.(accepted := l.accepted + bytes, master := l.master.(ring := l.master.ring + bytes))
    case Kick => if l.master.mode == NULL then l.(irq := true) else l
    case Interrupt(stack) =>
      if !l.irq || |stack| < BLOCK then l
      else
        var r := Isr(l.master, stack);
        l.(master := r.master, irq := r.again, wire := l.wire + r.frames)
    case Transfer =>
      if l.wire == [] then l
      else
        var r := OnFrame(l.slave, l.wire[0]);
        l.(slave := r.slave, wire := l.wire[1..], irq := l.irq || r.raised)
    case Read =>
      if l.slave.reading then l
      else
        l.(slave := TakenOut(l.slave), delivered := l.delivered + l.slave.ring[..Min(READ_MAX, |l.slave.ring|)])
    case Recheck => l.(slave := LookedAgain(l.slave), irq := l.irq || Raises(l.slave))
  }

  /** The bytes of the block on the wire that count. */
  function OnWire(l: Link): seq<byte> {
    if l.wire != [] && l.wire[0].Data? && l.master.len <= l.slave.total <= l.master.len + |l.wire[0].block|
    then l.wire[0].block[..l.slave.total - l.master.len] else []
  }

  /** Nothing is lost, doubled or reordered. */
  predicate Conserved(l: Link) {
    l.accepted == l.delivered + l.slave.ring + OnWire(l) + l.master.ring
  }

  predicate Room(l: Link) {
    Free(l.slave.ring) >= BLOCK
  }

  /** The master has nothing going; at most the end of the last run is still on the wire. */
  predicate Idle(l: Link) {
    && l.master.mode == NULL && l.master.len == 0 && l.slave.total == 0 && !l.slave.waiting && Room(l)
    && (l.wire == [] || l.wire == [Status(0)])
  }

  /** The master is about to send the next block. */
  predicate Due(l: Link) {
    l.irq && l.wire == [] && !l.slave.waiting && l.slave.total == l.master.len && Room(l)
  }

  /** The length is on the wire. */
  predicate Announced(l: Link) {
    && !l.irq && !l.slave.waiting && l.slave.total == 0 && l.master.len > 0 && Room(l)
    && (l.wire == [Status(l.master.len)] || l.wire == [Status(0), Status(l.master.len)])
  }

  /** A block is on the wire, and both sides know how many of its bytes count. */
  predicate Sending(l: Link) {
    && !l.irq && !l.slave.waiting && Room(l)
    && |l.wire| == 1 && l.wire[0].Data? && |l.wire[0].block| == BLOCK
    && l.master.len < l.slave.total && l.slave.total - l.master.len == Min(l.slave.total, BLOCK)
  }

  /** The slave is full and holds the master back. */
  predicate HeldBack(l: Link) {
    !l.irq && l.wire == [] && l.slave.waiting && l.slave.total == l.master.len
  }

  predicate Phases(l: Link) {
    || Idle(l)
    || (l.master.mode == WRITE && l.master.len <= |l.master.ring|
      && (Due(l) || Announced(l) || Sending(l) || HeldBack(l)))
  }

  predicate LinkOk(l: Link) {
    |l.master.ring| <= RING && |l.slave.ring| <= RING && Conserved(l) && Phases(l)
  }

  /** What the reading task would have to make sure of before it raises the line again, and does not. */
  predicate Careful(l: Link, step: Step) {
    step.Recheck? && Raises(l.slave) ==> Room(l)
  }

  // ---------------------------------------------------------------------------------------------------------
  // Every step keeps it

  lemma Ends(d: seq<byte>, r: seq<byte>, w: seq<byte>, m: seq<byte>, more: seq<byte>)
    ensures d + r + w + m + more == d + r + w + (m + more)
  {
  }

  lemma AcceptOk(l: Link, bytes: seq<byte>)
    requires LinkOk(l)
    ensures LinkOk(Apply(l, Accept(bytes)))
  {
    Ends(l.delivered, l.slave.ring, OnWire(l), l.master.ring, bytes);
  }

  lemma SentBlock(m: seq<byte>, n: nat, stack: seq<byte>, a: seq<byte>)
    requires n <= |m| && n <= BLOCK <= |stack|
    ensures |Block(m[..n], stack)| == BLOCK && Block(m[..n], stack)[..n] == m[..n]
    ensures a + [] + m == a + Block(m[..n], stack)[..n] + m[n..]
  {
    assert m == m[..n] + m[n..];
  }

  /** The next block goes out. */
  lemma BlockOut(l: Link, stack: seq<byte>)
    requires LinkOk(l) && l.master.mode == WRITE && Due(l) && l.master.len > 0 && |stack| >= BLOCK
    ensures var t := Apply(l, Interrupt(stack)); LinkOk(t) && Sending(t)
  {
    var n := Min(l.master.len, BLOCK);
    var t := Apply(l, Interrupt(stack));
    SentBlock(l.master.ring, n, stack, l.delivered + l.slave.ring);
    assert t.wire == [Data(Block(l.master.ring[..n], stack))];
    assert OnWire(l) == [] && OnWire(t) == Block(l.master.ring[..n], stack)[..n];
  }

  lemma InterruptOk(l: Link, stack: seq<byte>)
    requires LinkOk(l)
    ensures LinkOk(Apply(l, Interrupt(stack)))
  {
    if l.irq && |stack| >= BLOCK {
      if l.master.mode == WRITE && l.master.len > 0 {
        BlockOut(l, stack);
      } else {
        var t := Apply(l, Interrupt(stack));
        assert OnWire(l) == [] && OnWire(t) == [];
      }
    }
  }

  lemma TakenBlock(d: seq<byte>, r: seq<byte>, w: seq<byte>, m: seq<byte>)
    ensures d + r + w + m == d + (r + w) + [] + m
  {
  }

  lemma TransferOk(l: Link)
    requires LinkOk(l)
    ensures LinkOk(Apply(l, Transfer))
  {
    if l.wire != [] && l.wire[0].Data? {
      var n := Min(l.slave.total, BLOCK);
      var bytes := l.wire[0].block[..n];
      assert Pushed(l.slave.ring, bytes) == l.slave.ring + bytes;
      TakenBlock(l.delivered, l.slave.ring, bytes, l.master.ring);
    }
  }

  lemma ReadOk(l: Link)
    requires LinkOk(l)
    ensures LinkOk(Apply(l, Read))
  {
    var r := l.slave.ring;
    var k := Min(READ_MAX, |r|);
    assert r == r[..k] + r[k..];
    assert l.delivered + r == l.delivered + r[..k] + r[k..];
  }

  /** Every step keeps the stream whole, as long as the line is raised again only when there is room. */
  lemma StepOk(l: Link, step: Step)
    requires LinkOk(l) && Careful(l, step)
    ensures LinkOk(Apply(l, step))
  {
    match step
    case Accept(bytes) => AcceptOk(l, bytes);
    case Kick =>
    case Interrupt(stack) => InterruptOk(l, stack);
    case Transfer => TransferOk(l);
    case Read => ReadOk(l);
    case Recheck =>
  }

  const START: Link := Link([], MasterState(NULL, 0, []), false, [], SlaveState(0, [], false, false), [])

  predicate Reaches(l: Link, steps: seq<Step>, t: Link)
    requires Shaped(l)
    decreases |steps|
  {
    if steps == [] then l == t else Careful(l, steps[0]) && Reaches(Apply(l, steps[0]), steps[1..], t)
  }

  lemma {:induction false} RunOk(l: Link, steps: seq<Step>, t: Link)
    requires LinkOk(l) && Reaches(l, steps, t)
    ensures LinkOk(t)
    decreases |steps|
  {
    if steps == [] {
    } else {
      StepOk(l, steps[0]);
      RunOk(Apply(l, steps[0]), steps[1..], t);
    }
  }

  /**
   * In every run: what was accepted is what was delivered, followed by what is in the slave's ring, on the wire and
   * in the master's ring; and both sides agree on the length when a block is due.
   */
  lemma StreamConserved(steps: seq<Step>, t: Link)
    requires Reaches(START, steps, t)
    ensures t.accepted == t.delivered + t.slave.ring + OnWire(t) + t.master.ring
    ensures t.delivered <= t.accepted
    ensures t.wire == [] ==> t.slave.total == t.master.len
  {
    StartOk();
    RunOk(START, steps, t);
    assert t.accepted == t.delivered + (t.slave.ring + OnWire(t) + t.master.ring);
  }

  lemma StartOk()
    ensures LinkOk(START)
  {
  }

  // ---------------------------------------------------------------------------------------------------------
  // Without that care

  /**
   * A slave that holds the master back raises the line with more than 64 bytes in its ring, whether or not there is
   * room. The block that follows gets through whole if and only if there is room for it.
   */
  lemma RaisedTooEarly(l: Link, stack: seq<byte>)
    requires LinkOk(l) && HeldBack(l) && l.master.mode == WRITE && Raises(l.slave) && |stack| >= BLOCK
    ensures var a := Apply(l, Recheck);
      var b := Apply(a, Interrupt(stack));
      l.master.len > 0 ==>
        && |b.wire| == 1 && b.wire[0].Data? && |b.wire[0].block| == BLOCK
        && (Conserved(Apply(b, Transfer)) <==> Free(l.slave.ring) >= Min(l.master.len, BLOCK))
  {
    var n := Min(l.master.len, BLOCK);
    if n > 0 {
      var b := Apply(Apply(l, Recheck), Interrupt(stack));
      SentBlock(l.master.ring, n, stack, l.delivered + l.slave.ring);
      var bytes := b.wire[0].block[..n];
      var t := Apply(b, Transfer);
      assert t.slave.ring == Pushed(l.slave.ring, bytes);
      if RING - |l.slave.ring| >= n {
        assert Pushed(l.slave.ring, bytes) == l.slave.ring + bytes;
        TakenBlock(l.delivered, l.slave.ring, bytes, l.master.ring[n..]);
      } else {
        assert |t.delivered + t.slave.ring + OnWire(t) + t.master.ring| < |t.accepted|;
      }
    }
  }

  lemma {:induction false} OneMore(l: Link, steps: seq<Step>, t: Link, step: Step)
    requires Shaped(l) && Reaches(l, steps, t) && Shaped(t) && Careful(t, step)
    ensures Reaches(l, steps + [step], Apply(t, step))
    decreases |steps|
  {
    if steps == [] {
      assert [step][1..] == [];
    } else {
      assert (steps + [step])[1..] == steps[1..] + [step];
      OneMore(Apply(l, steps[0]), steps[1..], t, step);
    }
  }

  function Zeros(n: nat): (r: seq<byte>)
    ensures |r| == n
  {
    seq(n, _ => 0)
  }

  /** The master is about to send: so much is in the slave's ring, so much is announced and not sent. */
  predicate Filling(l: Link, full: nat, left: nat) {
    && LinkOk(l) && Due(l) && l.master.mode == WRITE
    && |l.slave.ring| == full && l.master.len == left
  }

  lemma SendBlock(l: Link, full: nat, left: nat)
    requires Filling(l, full, left) && left > 0
    ensures var t := Apply(Apply(l, Interrupt(Zeros(BLOCK))), Transfer);
      var n := Min(left, BLOCK);
      LinkOk(t) && |t.slave.ring| == full + n && t.master.len == left - n && t.master.mode == WRITE
      && t.slave.reading == l.slave.reading && t.master.ring == l.master.ring[n..]
      && (if full + n + BLOCK <= RING then Due(t) else HeldBack(t))
  {
    var m := Apply(l, Interrupt(Zeros(BLOCK)));
    InterruptOk(l, Zeros(BLOCK));
    SentBlock(l.master.ring, Min(left, BLOCK), Zeros(BLOCK), []);
    assert Sending(m);
    TransferOk(m);
  }

  /** Block after block, until the slave holds the master back with less room than the next block needs. */
  lemma {:induction false} FillUp(steps: seq<Step>, l: Link, full: nat, left: nat) returns (more: seq<Step>, t: Link)
    requires Reaches(START, steps, l) && Filling(l, full, left) && full + BLOCK <= RING < full + left
    requires l.slave.reading
    ensures Reaches(START, more, t) && LinkOk(t) && HeldBack(t) && t.master.mode == WRITE && Raises(t.slave)
    ensures Free(t.slave.ring) < Min(t.master.len, BLOCK)
    decreases left
  {
    var a := Apply(l, Interrupt(Zeros(BLOCK)));
    InterruptOk(l, Zeros(BLOCK));
    OneMore(START, steps, l, Interrupt(Zeros(BLOCK)));
    t := Apply(a, Transfer);
    more := steps + [Interrupt(Zeros(BLOCK))] + [Transfer];
    OneMore(START, steps + [Interrupt(Zeros(BLOCK))], a, Transfer);
    SendBlock(l, full, left);
    if full + 2 * BLOCK > RING {
    } else {
      more, t := FillUp(more, t, full + BLOCK, left - BLOCK);
    }
  }

  /** A single byte is accepted and announced. */
  lemma FirstByte() returns (steps: seq<Step>, l: Link)
    ensures Reaches(START, steps, l) && Filling(l, 0, 1) && |l.master.ring| == 1 && !l.slave.reading
  {
    var l1 := Apply(START, Accept([0]));
    var l2 := Apply(l1, Kick);
    var l3 := Apply(l2, Interrupt(Zeros(BLOCK)));
    l := Apply(l3, Transfer);
    StartOk();
    OneMore(START, [], START, Accept([0]));
    OneMore(START, [] + [Accept([0])], l1, Kick);
    OneMore(START, [] + [Accept([0])] + [Kick], l2, Interrupt(Zeros(BLOCK)));
    OneMore(START, [] + [Accept([0])] + [Kick] + [Interrupt(Zeros(BLOCK))], l3, Transfer);
    AcceptOk(START, [0]);
    assert l.master == MasterState(WRITE, 1, [0]) && l.irq && l.wire == [];
    assert l.slave == SlaveState(1, [], false, false);
    steps := [] + [Accept([0])] + [Kick] + [Interrupt(Zeros(BLOCK))] + [Transfer];
  }

  /** It is sent and received. */
  lemma SendOne(steps: seq<Step>, l: Link) returns (more: seq<Step>, t: Link)
    requires Reaches(START, steps, l) && Filling(l, 0, 1) && |l.master.ring| == 1
    ensures Reaches(START, more, t) && Filling(t, 1, 0) && t.master.ring == [] && t.slave.reading == l.slave.reading
  {
    var a := Apply(l, Interrupt(Zeros(BLOCK)));
    InterruptOk(l, Zeros(BLOCK));
    OneMore(START, steps, l, Interrupt(Zeros(BLOCK)));
    t := Apply(a, Transfer);
    more := steps + [Interrupt(Zeros(BLOCK))] + [Transfer];
    OneMore(START, steps + [Interrupt(Zeros(BLOCK))], a, Transfer);
    SendBlock(l, 0, 1);
  }

  /** The reading task takes it and is then held up before it looks again. */
  lemma TakeOne(steps: seq<Step>, l: Link) returns (more: seq<Step>, t: Link)
    requires Reaches(START, steps, l) && Filling(l, 1, 0) && l.master.ring == [] && !l.slave.reading
    ensures Reaches(START, more, t) && Filling(t, 0, 0) && t.master.ring == [] && t.slave.reading
  {
    t := Apply(l, Read);
    more := steps + [Read];
    ReadOk(l);
    OneMore(START, steps, l, Read);
  }

  /** More bytes are accepted and announced. */
  lemma Then(steps: seq<Step>, l: Link, full: nat, n: nat) returns (more: seq<Step>, t: Link)
    requires Reaches(START, steps, l) && Filling(l, full, 0) && l.master.ring == [] && 0 < n <= RING
    ensures Reaches(START, more, t) && Filling(t, full, n) && |t.master.ring| == n && t.slave.reading == l.slave.reading
  {
    var z := Interrupt(Zeros(BLOCK));
    var l1 := Apply(l, Accept(Zeros(n)));
    var l2 := Apply(l1, z);
    var l3 := Apply(l2, z);
    t := Apply(l3, Transfer);
    AcceptOk(l, Zeros(n));
    OneMore(START, steps, l, Accept(Zeros(n)));
    InterruptOk(l1, Zeros(BLOCK));
    OneMore(START, steps + [Accept(Zeros(n))], l1, z);
    InterruptOk(l2, Zeros(BLOCK));
    OneMore(START, steps + [Accept(Zeros(n))] + [z], l2, z);
    TransferOk(l3);
    OneMore(START, steps + [Accept(Zeros(n))] + [z] + [z], l3, Transfer);
    more := steps + [Accept(Zeros(n))] + [z] + [z] + [Transfer];
  }

  /** A run in which the slave comes to hold the master back while the reading task is about to look again. */
  lemma LossHappens() returns (steps: seq<Step>, l: Link, t: Link)
    ensures Reaches(START, steps, l) && LinkOk(l)
    ensures t == Apply(Apply(Apply(l, Recheck), Interrupt(Zeros(BLOCK))), Transfer) && !Conserved(t)
  {
    steps, l := FirstByte();
    steps, l := SendOne(steps, l);
    steps, l := TakeOne(steps, l);
    steps, l := Then(steps, l, 0, 1);
    steps, l := SendOne(steps, l);
    steps, l := Then(steps, l, 1, RING);
    steps, l := FillUp(steps, l, 1, RING);
    RaisedTooEarly(l, Zeros(BLOCK));
    t := Apply(Apply(Apply(l, Recheck), Interrupt(Zeros(BLOCK))), Transfer);
  }
}
