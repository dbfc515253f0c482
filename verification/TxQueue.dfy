/** The transmit queue: packets in the order of their send times, shared by all PCBs. */
module TxQueue {
  /** A PCB by its place in the table: two protocols (V4 even, V6 odd) for each of the interfaces STA, AP and ETH. */
  type Slot = c: nat | c < 6

  /** What a question or an answer is about: the host, or a registered service by its identity. */
  datatype Ref = Host | Service(id: nat)

  datatype Kind = PTR | SRV | TXT | SDPTR | A | AAAA | Other(code: nat)

  datatype Ans = Ans(kind: Kind, about: Ref, flush: bool)

  datatype Ask = Ask(about: Ref, unicast: bool)

  /** A scheduled packet; `id` is its address, which may be used again once the packet is freed. */
  datatype Packet = Packet(id: nat, pcb: Slot, sendAt: nat, queued: bool, distributed: bool, questions: seq<Ask>,
                           answers: seq<Ans>, servers: seq<Ans>, additional: seq<Ans>)

  function Insert(q: seq<Packet>, p: Packet): seq<Packet> {
    if q == [] || q[0].sendAt > p.sendAt then [p] + q else [q[0]] + Insert(q[1..], p)
  }

  /** The packets of one PCB. */
  function Mine(q: seq<Packet>, c: Slot): (r: seq<Packet>)
    ensures forall k :: 0 <= k < |r| ==> r[k].pcb == c && r[k] in q
  {
    if q == [] then [] else if q[0].pcb == c then [q[0]] + Mine(q[1..], c) else Mine(q[1..], c)
  }

  /** The queue without the packets of one PCB. */
  function Cleared(q: seq<Packet>, c: Slot): (r: seq<Packet>)
    ensures forall k :: 0 <= k < |r| ==> r[k].pcb != c
  {
    if q == [] then [] else if q[0].pcb == c then Cleared(q[1..], c) else [q[0]] + Cleared(q[1..], c)
  }

  /** The place of the first packet of a PCB, or the length of the queue. */
  function First(q: seq<Packet>, c: Slot): (k: nat)
    ensures k <= |q| && (k < |q| ==> q[k].pcb == c) && (forall i :: 0 <= i < k ==> q[i].pcb != c)
  {
    if q == [] || q[0].pcb == c then 0 else 1 + First(q[1..], c)
  }

  // ---------------------------------------------------------------------------------------------------------
  // Sublists

  predicate Sub<T(==)>(a: seq<T>, b: seq<T>) {
    if a == [] then true
    else if b == [] then false
    else if a[0] == b[0] then Sub(a[1..], b[1..])
    else Sub(a, b[1..])
  }

  lemma {:induction false} SubTail<T>(a: seq<T>, b: seq<T>)
    requires a != [] && Sub(a, b)
    ensures Sub(a[1..], b)
  {
    if a[0] == b[0] {
      SubLater(a[1..], b);
    } else {
      SubTail(a, b[1..]);
      SubLater(a[1..], b);
    }
  }

  lemma {:induction false} SubLater<T>(a: seq<T>, b: seq<T>)
    requires b != [] && Sub(a, b[1..])
    ensures Sub(a, b)
  {
    if a != [] && a[0] == b[0] {
      SubTail(a, b[1..]);
    }
  }

  lemma {:induction false} SubTrans<T>(a: seq<T>, b: seq<T>, c: seq<T>)
    requires Sub(a, b) && Sub(b, c)
    ensures Sub(a, c)
    decreases |b| + |c|
  {
    if a == [] {
    } else {
      if b[0] != c[0] {
        SubTrans(a, b, c[1..]);
        SubLater(a, c);
      } else if a[0] == b[0] {
        SubTrans(a[1..], b[1..], c[1..]);
      } else {
        SubTrans(a, b[1..], c[1..]);
        SubLater(a, c);
      }
    }
  }

  lemma {:induction false} SubSnoc<T>(a: seq<T>, b: seq<T>, x: T)
    requires Sub(a, b)
    ensures Sub(a + [x], b + [x])
  {
    if b == [] {
      assert a + [x] == [x] && b + [x] == [x] && [x][1..] == [];
    } else {
      assert (b + [x])[1..] == b[1..] + [x];
      if a == [] {
        SubSnoc(a, b[1..], x);
        SubLater(a + [x], b + [x]);
      } else {
        assert (a + [x])[1..] == a[1..] + [x];
        if a[0] == b[0] {
          SubSnoc(a[1..], b[1..], x);
        } else {
          SubSnoc(a, b[1..], x);
        }
      }
    }
  }

  // ---------------------------------------------------------------------------------------------------------
  // What holds of the queue

  /** The packet may stand in front of the others: sent no later, another packet, and queued before them. */
  predicate Leads(p: Packet, rest: seq<Packet>) {
    forall k :: 0 <= k < |rest| ==>
      p.sendAt <= rest[k].sendAt && p.id != rest[k].id && (rest[k].queued ==> p.queued)
  }

  /** Sorted by send time, all packets different, the queued ones in front and due. */
  predicate Good(q: seq<Packet>, now: nat) {
    q == [] || (Leads(q[0], q[1..]) && (q[0].queued ==> q[0].sendAt < now) && Good(q[1..], now))
  }

  function QueuedIds(q: seq<Packet>): seq<nat> {
    if q == [] then [] else if q[0].queued then [q[0].id] + QueuedIds(q[1..]) else QueuedIds(q[1..])
  }

  function Ids(q: seq<Packet>): set<nat> {
    set k | 0 <= k < |q| :: q[k].id
  }

  lemma {:induction false} GoodLater(q: seq<Packet>, now: nat, later: nat)
    requires Good(q, now) && now <= later
    ensures Good(q, later)
  {
    if q == [] {
    } else {
      GoodLater(q[1..], now, later);
    }
  }

  lemma GoodHead(q: seq<Packet>, now: nat)
    requires Good(q, now) && q != []
    ensures Good(q[1..], now) && q[0].id !in Ids(q[1..]) && (!q[0].queued ==> QueuedIds(q) == [])
  {
    if !q[0].queued {
      NoneQueued(q);
    }
  }

  lemma {:induction false} NoneQueued(q: seq<Packet>)
    requires forall k :: 0 <= k < |q| ==> !q[k].queued
    ensures QueuedIds(q) == []
  {
    if q == [] {
    } else {
      NoneQueued(q[1..]);
    }
  }

  // ---------------------------------------------------------------------------------------------------------
  // Scheduling

  /** Where scheduling puts a packet: behind everything that is due no later, before everything due later. */
  lemma {:induction false} InsertPlace(q: seq<Packet>, p: Packet, now: nat) returns (k: nat)
    requires Good(q, now)
    ensures k <= |q| && Insert(q, p) == q[..k] + [p] + q[k..]
    ensures forall i :: 0 <= i < k ==> q[i].sendAt <= p.sendAt
    ensures forall i :: k <= i < |q| ==> q[i].sendAt > p.sendAt
  {
    if q == [] || q[0].sendAt > p.sendAt {
      k := 0;
    } else {
      var j := InsertPlace(q[1..], p, now);
      k := j + 1;
      assert [q[0]] + q[1..][..j] == q[..k] && q[1..][j..] == q[k..];
      assert forall i :: 1 <= i < |q| ==> q[1..][i - 1] == q[i];
    }
  }

  lemma {:induction false} InsertElements(q: seq<Packet>, p: Packet)
    ensures |Insert(q, p)| == |q| + 1 && multiset(Insert(q, p)) == multiset(q) + multiset{p}
  {
    if q == [] || q[0].sendAt > p.sendAt {
    } else {
      InsertElements(q[1..], p);
      assert q == [q[0]] + q[1..];
    }
  }

  lemma {:induction false} InsertLeads(h: Packet, q: seq<Packet>, p: Packet)
    requires Leads(h, q) && h.sendAt <= p.sendAt && h.id != p.id && !p.queued
    ensures Leads(h, Insert(q, p))
  {
    if q == [] || q[0].sendAt > p.sendAt {
    } else {
      assert forall k :: 0 <= k < |q[1..]| ==> q[1..][k] == q[k + 1];
      InsertLeads(h, q[1..], p);
    }
  }

  /** A new packet due now or later keeps the queue in order and leaves the queued ones in front. */
  lemma {:induction false} InsertGood(q: seq<Packet>, p: Packet, now: nat)
    requires Good(q, now) && !p.queued && p.sendAt >= now && p.id !in Ids(q)
    ensures Good(Insert(q, p), now) && QueuedIds(Insert(q, p)) == QueuedIds(q)
  {
    if q == [] {
      assert [p][1..] == [];
    } else if q[0].sendAt > p.sendAt {
      assert !q[0].queued;
      assert ([p] + q)[1..] == q;
      forall k | 0 <= k < |q|
        ensures p.sendAt <= q[k].sendAt && p.id != q[k].id && !q[k].queued
      {
        assert q[k].id in Ids(q);
        assert k > 0 ==> q[k] == q[1..][k - 1];
      }
    } else {
      assert q[0].id in Ids(q);
      assert forall k :: 0 <= k < |q[1..]| ==> q[1..][k] == q[k + 1];
      assert forall x :: x in Ids(q[1..]) ==> x in Ids(q);
      InsertGood(q[1..], p, now);
      InsertLeads(q[0], q[1..], p);
      assert ([q[0]] + Insert(q[1..], p))[1..] == Insert(q[1..], p);
    }
  }

  lemma {:induction false} InsertMine(q: seq<Packet>, p: Packet, now: nat, c: Slot)
    requires Good(q, now)
    ensures Mine(Insert(q, p), c) == if p.pcb == c then Insert(Mine(q, c), p) else Mine(q, c)
  {
    if q == [] || q[0].sendAt > p.sendAt {
      assert ([p] + q)[1..] == q;
      assert forall k :: 0 < k < |q| ==> q[k] == q[1..][k - 1];
      assert Mine(q, c) != [] ==> Mine(q, c)[0] in q;
    } else {
      InsertMine(q[1..], p, now, c);
    }
  }

  // ---------------------------------------------------------------------------------------------------------
  // Thinning: some packets are taken out, others lose some of their contents

  predicate SameTag(a: Packet, b: Packet) {
    a.id == b.id && a.pcb == b.pcb && a.sendAt == b.sendAt && a.queued == b.queued
  }

  /** `a` is what is left of `b`, in the same order. */
  predicate Thins(a: seq<Packet>, b: seq<Packet>) {
    || a == []
    || (b != [] && ((SameTag(a[0], b[0]) && Thins(a[1..], b[1..])) || Thins(a, b[1..])))
  }

  lemma {:induction false} ThinsIn(a: seq<Packet>, b: seq<Packet>, k: nat) returns (j: nat)
    requires Thins(a, b) && k < |a|
    ensures j < |b| && SameTag(a[k], b[j])
    decreases |b|
  {
    if SameTag(a[0], b[0]) && Thins(a[1..], b[1..]) {
      if k == 0 {
        j := 0;
      } else {
        j := ThinsIn(a[1..], b[1..], k - 1);
        j := j + 1;
      }
    } else {
      j := ThinsIn(a, b[1..], k);
      j := j + 1;
    }
  }

  lemma ThinsLeads(p: Packet, a: seq<Packet>, b: seq<Packet>)
    requires Thins(a, b) && Leads(p, b)
    ensures Leads(p, a)
  {
    forall k | 0 <= k < |a|
      ensures p.sendAt <= a[k].sendAt && p.id != a[k].id && (a[k].queued ==> p.queued)
    {
      var j := ThinsIn(a, b, k);
    }
  }

  lemma {:induction false} ThinsGood(a: seq<Packet>, b: seq<Packet>, now: nat)
    requires Thins(a, b) && Good(b, now)
    ensures Good(a, now) && Sub(QueuedIds(a), QueuedIds(b))
    decreases |b|
  {
    if a == [] {
    } else {
      if SameTag(a[0], b[0]) && Thins(a[1..], b[1..]) {
        ThinsGood(a[1..], b[1..], now);
        ThinsLeads(b[0], a[1..], b[1..]);
      } else {
        ThinsGood(a, b[1..], now);
        if b[0].queued {
          assert QueuedIds(b)[1..] == QueuedIds(b[1..]);
          SubLater(QueuedIds(a), QueuedIds(b));
        }
      }
    }
  }

  lemma {:induction false} ClearedThins(q: seq<Packet>, c: Slot)
    ensures Thins(Cleared(q, c), q)
  {
    if q == [] {
    } else {
      ClearedThins(q[1..], c);
    }
  }

  lemma {:induction false} ClearedMine(q: seq<Packet>, c: Slot, d: Slot)
    ensures Mine(Cleared(q, c), d) == if d == c then [] else Mine(q, d)
  {
    if q == [] {
    } else {
      ClearedMine(q[1..], c, d);
    }
  }

  // ---------------------------------------------------------------------------------------------------------
  // The hand-over between the timer task and the service task

  /** The first packet that is not queued, if there is one. */
  function Unqueued(q: seq<Packet>): (k: nat)
    ensures k <= |q| && (k < |q| ==> !q[k].queued) && (forall i :: 0 <= i < k ==> q[i].queued)
  {
    if q == [] || !q[0].queued then 0 else 1 + Unqueued(q[1..])
  }

  function Marked(q: seq<Packet>, k: nat): seq<Packet>
    requires k < |q|
  {
    q[k := q[k].(queued := true)]
  }

  /** Marking the first packet that is not queued keeps the queued ones in front, in the order of their actions. */
  lemma {:induction false} MarkGood(q: seq<Packet>, now: nat)
    requires Good(q, now) && Unqueued(q) < |q| && q[Unqueued(q)].sendAt < now
    ensures Good(Marked(q, Unqueued(q)), now)
    ensures QueuedIds(Marked(q, Unqueued(q))) == QueuedIds(q) + [q[Unqueued(q)].id]
  {
    var k := Unqueued(q);
    var r := Marked(q, k);
    if k == 0 {
      GoodHead(q, now);
      assert r[1..] == q[1..] && QueuedIds(q[1..]) == [];
    } else {
      MarkGood(q[1..], now);
      assert r[1..] == Marked(q[1..], k - 1) && q[1..][k - 1] == q[k];
      forall i | 0 <= i < |r[1..]|
        ensures q[0].sendAt <= r[1..][i].sendAt && q[0].id != r[1..][i].id
      {
        assert SameBut(r[1..][i], q[1..][i]);
      }
    }
  }

  predicate SameBut(a: Packet, b: Packet) {
    a.sendAt == b.sendAt && a.id == b.id
  }

  lemma {:induction false} MineUpdate(q: seq<Packet>, k: nat, p: Packet, c: Slot) returns (j: nat)
    requires k < |q| && p.pcb == q[k].pcb
    ensures p.pcb != c ==> Mine(q[k := p], c) == Mine(q, c)
    ensures p.pcb == c ==> j < |Mine(q, c)| && Mine(q, c)[j] == q[k] && Mine(q[k := p], c) == Mine(q, c)[j := p]
    ensures p.pcb == c && k == First(q, c) ==> j == 0
  {
    var r := q[k := p];
    if k == 0 {
      j := 0;
      assert r[1..] == q[1..];
    } else {
      assert r[1..] == q[1..][k - 1 := p];
      j := MineUpdate(q[1..], k - 1, p, c);
      if q[0].pcb == c {
        j := j + 1;
      }
    }
  }

  /** Popping an action that does not meet the head leaves the queued packets in the order of the other actions. */
  lemma SkipAction(q: seq<Packet>, now: nat, x: nat, rest: seq<nat>)
    requires Good(q, now) && Sub(QueuedIds(q), [x] + rest)
    requires q == [] || q[0].id != x || !q[0].queued
    ensures Sub(QueuedIds(q), rest)
  {
    assert ([x] + rest)[1..] == rest;
    if q != [] {
      GoodHead(q, now);
    }
  }

  /** Popping an action that meets the head. */
  lemma TakeAction(q: seq<Packet>, now: nat, rest: seq<nat>)
    requires q != [] && q[0].queued && Good(q, now) && Sub(QueuedIds(q), [q[0].id] + rest)
    ensures Good(q[1..], now) && Sub(QueuedIds(q[1..]), rest)
  {
    assert ([q[0].id] + rest)[1..] == rest && QueuedIds(q)[1..] == QueuedIds(q[1..]);
  }
}
