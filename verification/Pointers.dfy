/** Pointers at offsets: when a name that ends in a pointer gives its labels back in the packet. */
module Pointers {
  import opened Bytes
  import opened Names
  import opened RoundTrip

  /** The name at `o` ends inside the written part and depends on no byte that is still to be patched. */
  predicate Inside(v: seq<int>, o: nat) {
    Flatten(v, o, o).Flat? && Solid(Flatten(v, o, o).items)
  }

  /** What the encoder would have to check of a candidate before it points to it, and does not. */
  predicate SafeTarget(v: seq<int>, base: nat, o: nat, count: nat, total: nat) {
    o < base && Inside(v, o) && Exact(Flatten(v, o, o).items, count, total)
  }

  // ---------------------------------------------------------------------------------------------------------
  // Where a candidate ends

  /**
   * How reading on from `i` goes in the written part: it comes to an end there, it comes to the end of the written
   * part between two labels, or a label, a pointer or a value that is still to be patched is cut there.
   */
  datatype Fate = Ends | RunsOff | Cut

  function FateAt(v: seq<int>, base: nat, i: nat): Fate
    decreases base, |v| - i
  {
    if i >= |v| then RunsOff
    else if v[i] == 0 then Ends
    else if 0 < v[i] < 64 then
      var end := i + 1 + v[i];
      if end > |v| || !NoHole(v[i + 1..end]) then Cut else FateAt(v, base, end)
    else if 0xC0 <= v[i] < 256 && i + 1 < |v| && 0 <= v[i + 1] < 256 then
      var address := Address(v[i], v[i + 1]);
      if address < base then FateAt(v, address, address) else Cut
    else Cut
  }

  lemma SolidCons(item: Item, items: seq<Item>)
    requires SolidItem(item) && Solid(items)
    ensures Solid([item] + items)
  {
  }

  /** A name that the whole buffer gives is given by the written part if it ends there. */
  lemma {:induction false} EndsInside(v: seq<int>, p: seq<int>, base: nat, i: nat)
    requires Agrees(v, p) && Flatten(p, base, i).Flat? && FateAt(v, base, i) == Ends
    ensures Flatten(v, base, i).Flat? && Solid(Flatten(v, base, i).items)
    decreases base, |v| - i
  {
    assert p[i] == v[i];
    if v[i] == 0 {
    } else if 0 < v[i] < 64 {
      var end := i + 1 + v[i];
      EndsInside(v, p, base, end);
      SolidCons(Label(v[i + 1..end]), Flatten(v, base, end).items);
    } else {
      assert p[i + 1] == v[i + 1];
      var address := Address(v[i], v[i + 1]);
      EndsInside(v, p, address, address);
      SolidCons(Jump, Flatten(v, address, address).items);
    }
  }

  lemma {:induction false} InsideEnds(v: seq<int>, base: nat, i: nat)
    requires Flatten(v, base, i).Flat? && Solid(Flatten(v, base, i).items)
    ensures FateAt(v, base, i) == Ends
    decreases base, |v| - i
  {
    if v[i] == 0 {
    } else if 0 < v[i] < 64 {
      var end := i + 1 + v[i];
      SolidTail(Label(v[i + 1..end]), Flatten(v, base, end).items);
      InsideEnds(v, base, end);
    } else {
      var address := Address(v[i], v[i + 1]);
      SolidTail(Jump, Flatten(v, address, address).items);
      InsideEnds(v, address, address);
    }
  }

  function PointerBytes(o: nat): seq<int> {
    [0xC0 + o / 256, o % 256]
  }

  lemma PointerHere(v: seq<int>, q: seq<int>, o: nat)
    requires o < 0x4000 && Agrees(v + PointerBytes(o), q)
    ensures |v| + 2 <= |q| && 0xC0 <= q[|v|] < 256 && 0 <= q[|v| + 1] < 256 && Address(q[|v|], q[|v| + 1]) == o
    ensures Agrees(v, q)
  {
    var w := v + PointerBytes(o);
    assert w[|v|] == 0xC0 + o / 256 && w[|v| + 1] == o % 256;
    assert forall k :: 0 <= k < |v| ==> w[k] == v[k];
  }

  /** A candidate that runs off the written part runs into the pointer to it, which leads nowhere. */
  lemma {:induction false} RunsIntoPointer(v: seq<int>, q: seq<int>, o: nat, base: nat, i: nat)
    requires o < 0x4000 && base <= o <= |v| && i <= |v| && Agrees(v + PointerBytes(o), q)
    requires FateAt(v, base, i) == RunsOff
    ensures Flatten(q, base, i) == Bad
    decreases base, |v| - i
  {
    PointerHere(v, q, o);
    if i >= |v| {
    } else {
      assert q[i] == v[i];
      if 0 < v[i] < 64 {
        RunsIntoPointer(v, q, o, base, i + 1 + v[i]);
      } else {
        assert q[i + 1] == v[i + 1];
        var address := Address(v[i], v[i + 1]);
        RunsIntoPointer(v, q, o, address, address);
      }
    }
  }

  // ---------------------------------------------------------------------------------------------------------
  // Labels in front of a pointer

  /** From `i` to `j` the labels are written out. */
  predicate Spelt(v: seq<int>, i: nat, strings: seq<seq<int>>, j: nat)
    decreases |strings|
  {
    if strings == [] then i == j
    else
      var end := i + 1 + |strings[0]|;
      i < |v| && v[i] == |strings[0]| && end <= |v| && v[i + 1..end] == strings[0] && Spelt(v, end, strings[1..], j)
  }

  /** A label that the decoder takes for one. */
  predicate IsReadable(s: seq<int>) {
    0 < |s| < 64 && NoHole(s)
  }

  predicate Readable(strings: seq<seq<int>>) {
    forall k :: 0 <= k < |strings| ==> IsReadable(strings[k])
  }

  lemma WellFormedReadable(strings: seq<seq<int>>)
    requires forall k :: 0 <= k < |strings| ==> WellFormedLabel(strings[k])
    ensures Readable(strings)
  {
  }

  lemma PrependTwice(item: Item, items: seq<Item>, f: Flat)
    ensures Prepend([item], Prepend(items, f)) == Prepend([item] + items, f)
  {
    if f.Flat? {
      assert [item] + (items + f.items) == [item] + items + f.items;
    }
  }

  lemma {:induction false} FlattenSpelt(v: seq<int>, q: seq<int>, base: nat, i: nat, strings: seq<seq<int>>, j: nat)
    requires Agrees(v, q) && Spelt(v, i, strings, j) && Readable(strings)
    ensures Flatten(q, base, i) == Prepend(Literals(strings), Flatten(q, base, j))
    decreases |strings|
  {
    if strings == [] {
      var f := Flatten(q, base, j);
      assert f.Flat? ==> Literals(strings) + f.items == f.items;
    } else {
      var s := strings[0];
      var end := i + 1 + |s|;
      assert IsReadable(s) && q[i] == v[i];
      assert NoHole(v[i + 1..end]);
      SameSlice(v, q, i + 1, end);
      assert forall k :: 0 <= k < |strings[1..]| ==> strings[1..][k] == strings[k + 1];
      FlattenSpelt(v, q, base, end, strings[1..], j);
      assert Literals(strings) == [Label(s)] + Literals(strings[1..]);
      PrependTwice(Label(s), Literals(strings[1..]), Flatten(q, base, j));
    }
  }

  /** The name at `base` decodes to exactly the strings, up to case, and ends at `end`. */
  predicate ReadsBackAt(q: seq<int>, base: nat, strings: seq<seq<int>>, end: nat) {
    Flatten(q, base, base).Flat? && Flatten(q, base, base).next == end
      && ReadsBack(Flatten(q, base, base).items, strings)
  }

  /** What the decoder makes of a pointer to `o` behind the written part. */
  function Followed(q: seq<int>, base: nat, o: nat, next: nat): Flat {
    var f := Flatten(q, o, o);
    if o >= base then Bad else if f.Flat? then Flat([Jump] + f.items, next) else f
  }

  lemma FlattenPointer(v: seq<int>, q: seq<int>, base: nat, o: nat)
    requires o < 0x4000 && Agrees(v + PointerBytes(o), q)
    ensures Flatten(q, base, |v|) == Followed(q, base, o, |v| + 2)
  {
    PointerHere(v, q, o);
  }

  /** The name that the encoder has written: `strings[..k]` from `base` on, and then a pointer to `o`. */
  lemma FlattenWritten(v: seq<int>, q: seq<int>, base: nat, k: nat, o: nat, strings: seq<seq<int>>)
    requires WellFormed(strings) && k < |strings| && Spelt(v, base, strings[..k], |v|)
    requires o < 0x4000 && Agrees(v + PointerBytes(o), q)
    ensures Flatten(q, base, base) == Prepend(Literals(strings[..k]), Followed(q, base, o, |v| + 2))
  {
    PointerHere(v, q, o);
    WellFormedReadable(strings[..k]);
    FlattenSpelt(v, q, base, base, strings[..k], |v|);
    FlattenPointer(v, q, base, o);
  }

  /**
   * The encoder has written `strings[..k]` from `base` on, and a match for the rest stands at `o` in the buffer `p`.
   * It points there. In every packet `q` that comes of it the name reads back if and only if `o` lies before the
   * name, the candidate ends inside the written part, and it is exact. The one case left open is a candidate of
   * which the end of the written part, or a value still to be patched, cuts a label or a pointer: what it reads
   * then depends on bytes that are not there yet.
   */
  lemma PointerExact(v: seq<int>, p: seq<int>, q: seq<int>, base: nat, k: nat, o: nat, strings: seq<seq<int>>)
    requires WellFormed(strings) && k < |strings| && base <= |v| && Spelt(v, base, strings[..k], |v|)
    requires o < |v| && o < 0x4000 && Agrees(v, p) && Agrees(v + PointerBytes(o), q)
    requires Flatten(p, o, o).Flat? && Matches(Flatten(p, o, o).items, strings[k..])
    requires FateAt(v, o, o) != Cut
    ensures ReadsBackAt(q, base, strings, |v| + 2) <==>
      o < base && Inside(v, o) && Exact(Flatten(p, o, o).items, |strings| - k, |strings|)
  {
    FlattenWritten(v, q, base, k, o, strings);
    PointerHere(v, q, o);
    var items := Flatten(q, o, o);
    assert items.Flat? ==>
      Literals(strings[..k]) + ([Jump] + items.items) == Literals(strings[..k]) + [Jump] + items.items;
    if FateAt(v, o, o) == RunsOff {
      RunsIntoPointer(v, q, o, o, o);
      if Inside(v, o) {
        InsideEnds(v, o, o);
      }
    } else {
      EndsInside(v, p, o, o);
      FlattenStable(v, p, o, o);
      FlattenStable(v, q, o, o);
      PointerReadsBack(strings, k, Flatten(p, o, o).items);
    }
  }
}
