/** Packets in which everything that looks like a label is one, so that every pointer has a safe target. */
module Tidy {
  import opened Bytes
  import opened Names
  import opened RoundTrip
  import opened Pointers

  /** The size of the header; the first name stands behind it. */
  const FRONT: nat := 12

  /** Below this offset the low byte of a pointer is the offset. */
  const NEAR: nat := 256

  predicate Small(b: int) {
    2 <= b <= 31
  }

  /** A printable character other than the equals sign. */
  predicate LabelByte(b: int) {
    32 <= b <= 126 && b != EQUALS
  }

  /** A label of 2 to 31 printable characters without an equals sign, other than `_sub`. */
  predicate TameLabel(s: seq<int>) {
    2 <= |s| <= 31 && (forall k :: 0 <= k < |s| ==> LabelByte(s[k])) && !CiEq(s, SUB)
  }

  predicate TameLabels(strings: seq<seq<int>>) {
    forall k :: 0 <= k < |strings| ==> TameLabel(strings[k])
  }

  predicate Different(strings: seq<seq<int>>) {
    forall i, j :: 0 <= i < j < |strings| ==> strings[i] != strings[j]
  }

  /** At `o` stands what could be the length of a label and a label of that length. */
  predicate Looks(v: seq<int>, o: nat) {
    o < |v| && Small(v[o]) && o + v[o] < |v| && forall k :: o < k <= o + v[o] ==> LabelByte(v[k])
  }

  predicate TameItems(items: seq<Item>) {
    |Labels(items)| <= 4 && !EndsInJump(items) && TameLabels(Labels(items))
  }

  /** Behind the header, at `o`, stands a whole name of tame labels, in final bytes. */
  predicate Named(v: seq<int>, o: nat) {
    FRONT <= o && Inside(v, o) && TameItems(Flatten(v, o, o).items)
  }

  predicate IsTidy(v: seq<int>) {
    (|v| > FRONT ==> !LabelByte(v[FRONT])) && forall o :: 0 <= o < |v| && Looks(v, o) ==> Named(v, o)
  }

  /** At `o` stands what could be the length of a short label, and a label of that length would go on behind the end. */
  predicate Tail(v: seq<int>, o: nat) {
    o < |v| && 2 <= v[o] < FRONT && o + v[o] >= |v| && forall k :: o < k < |v| ==> LabelByte(v[k])
  }

  predicate Dangles(v: seq<int>) {
    exists o :: 0 <= o < |v| && Tail(v, o)
  }

  /**
   * The same as a function of the packet; unless the buffer is blank, what is left in it behind the packet must not go
   * on with a label either.
   */
  function TidyIn(v: seq<int>): bool -> bool {
    (blank: bool) => IsTidy(v) && (blank || !Dangles(v))
  }

  /** A byte behind which nothing that is left in the buffer is part of a label. */
  predicate Ends(b: int) {
    !LabelByte(b) && !(2 <= b < FRONT)
  }

  lemma EndsSolid(v: seq<int>)
    requires v != [] && Ends(v[|v| - 1])
    ensures !Dangles(v)
  {
  }

  /** Nothing in these bytes looks like a label. */
  predicate Quiet(s: seq<int>) {
    forall j :: 0 <= j < |s| ==> !Looks(s, j)
  }

  /** The last byte is neither a character nor the length of a label. */
  predicate Stopped(v: seq<int>) {
    v != [] && !Small(v[|v| - 1]) && !LabelByte(v[|v| - 1])
  }

  lemma NamedGrows(a: seq<int>, v: seq<int>, o: nat)
    requires Agrees(a, v) && Named(a, o)
    ensures Named(v, o)
  {
    FlattenStable(a, v, o, o);
  }

  lemma LooksPrefix(v: seq<int>, s: seq<int>, o: nat)
    requires Looks(v + s, o) && o + (v + s)[o] < |v|
    ensures Looks(v, o)
  {
    assert forall k :: 0 <= k < |v| ==> (v + s)[k] == v[k];
  }

  lemma LooksSuffix(v: seq<int>, s: seq<int>, o: nat)
    requires Looks(v + s, o) && o >= |v|
    ensures Looks(s, o - |v|)
  {
    assert forall k :: 0 <= k < |s| ==> (v + s)[|v| + k] == s[k];
  }

  lemma NotAcross(v: seq<int>, s: seq<int>, o: nat)
    requires Looks(v + s, o) && o < |v| && s != [] && (!LabelByte(s[0]) || Stopped(v))
    ensures o + (v + s)[o] < |v|
  {
    var w := v + s;
    assert w[|v|] == s[0] && w[|v| - 1] == v[|v| - 1];
  }

  /** Bytes in which nothing looks like a label are appended, behind a stop or with one in front. */
  lemma TidyAppend(v: seq<int>, s: seq<int>)
    requires IsTidy(v) && |v| >= FRONT && Quiet(s) && s != []
    requires !LabelByte(s[0]) || (|v| > FRONT && Stopped(v))
    ensures IsTidy(v + s)
  {
    var w := v + s;
    forall o | 0 <= o < |w| && Looks(w, o)
      ensures Named(w, o)
    {
      if o >= |v| {
        LooksSuffix(v, s, o);
      } else {
        NotAcross(v, s, o);
        LooksPrefix(v, s, o);
        NamedGrows(v, w, o);
      }
    }
  }

  /** An open value is filled in; what follows it does not look like a label of that length. */
  lemma TidyPatch(v: seq<int>, at: nat, x: nat)
    requires IsTidy(v) && at + 1 < |v| && at + 1 != FRONT && v[at] == HOLE && v[at + 1] == HOLE
    requires x < 512 && !Looks(Patch(v, at, x), at + 1)
    ensures IsTidy(Patch(v, at, x))
  {
    var w := Patch(v, at, x);
    assert w[at] == x / 256 && x / 256 < 2 && w[at + 1] == x % 256;
    assert forall k :: 0 <= k < |v| && k != at && k != at + 1 ==> w[k] == v[k];
    forall o | 0 <= o < |w| && Looks(w, o)
      ensures Named(w, o)
    {
      assert o != at && o != at + 1 && (o < at ==> o + w[o] < at);
      assert w[o] == v[o];
      assert Looks(v, o) by {
        forall k | o < k <= o + v[o]
          ensures LabelByte(v[k])
        {
          assert LabelByte(w[k]);
        }
      }
      NamedGrows(v, w, o);
    }
  }

  // ---------------------------------------------------------------------------------------------------------
  // Candidates

  lemma TameIsWellFormed(s: seq<int>)
    requires TameLabel(s)
    ensures WellFormedLabel(s) && CStr(s) == s && NoHole(s)
  {
    CStrWhole(s);
  }

  lemma TextNotSmall(v: seq<int>, i: nat, s: seq<int>, o: nat)
    requires TameLabel(s) && i + 1 + |s| <= |v| && v[i + 1..i + 1 + |s|] == s && i < o < |v| && Small(v[o])
    ensures o >= i + 1 + |s|
  {
    assert forall k :: 0 <= k < |s| ==> v[i + 1 + k] == s[k];
  }

  /** The labels of the current name start where they were written and nowhere else. */
  lemma {:induction false} SpeltStarts(v: seq<int>, i: nat, done: seq<seq<int>>, j: nat, o: nat) returns (k: nat)
    requires Spelt(v, i, done, j) && TameLabels(done) && i <= o < j <= |v| && Small(v[o])
    ensures k < |done| && Spelt(v, o, done[k..], j)
    decreases |done|
  {
    var end := i + 1 + |done[0]|;
    assert TameLabel(done[0]);
    if o == i {
      k := 0;
      assert done[0..] == done;
    } else {
      TextNotSmall(v, i, done[0], o);
      assert forall n :: 0 <= n < |done[1..]| ==> done[1..][n] == done[n + 1];
      k := SpeltStarts(v, end, done[1..], j, o);
      k := k + 1;
      assert done[1..][k - 1..] == done[k..];
    }
  }

  /** The written part in the buffer: open values are zero. */
  predicate Over(v: seq<int>, p: seq<int>) {
    |v| <= |p| && forall k :: 0 <= k < |v| ==> p[k] == if v[k] == HOLE then 0 else v[k]
  }

  /** The same as a function of the packet. */
  function OverIn(v: seq<int>): seq<int> -> bool {
    (p: seq<int>) => Over(v, p)
  }

  /** From `i` on the buffer is zero. */
  predicate ZeroFrom(p: seq<int>, i: nat) {
    forall k :: i <= k < |p| ==> p[k] == 0
  }

  function ZeroIn(i: nat): seq<int> -> bool {
    (p: seq<int>) => ZeroFrom(p, i)
  }

  /** The text of a label in the buffer is a run of label bytes. */
  lemma TextIn(p: seq<int>, o: nat, s: seq<int>)
    requires TameLabel(s) && o + 1 + |s| <= |p| && p[o + 1..o + 1 + |s|] == s
    ensures forall k :: o < k <= o + |s| ==> LabelByte(p[k])
  {
    forall k | o < k <= o + |s|
      ensures LabelByte(p[k])
    {
      assert p[k] == p[o + 1..o + 1 + |s|][k - o - 1] == s[k - o - 1];
    }
  }

  /** A label that is found does not go on behind the end. */
  lemma FoundInside(blank: bool, v: seq<int>, p: seq<int>, o: nat, s: seq<int>)
    requires TameLabel(s) && Over(v, p) && o < |v| && o + 1 + |s| <= |p| && p[o] == |s| && p[o + 1..o + 1 + |s|] == s
    requires blank ==> ZeroFrom(p, |v|)
    requires !blank ==> |s| < FRONT && !Dangles(v)
    ensures o + |s| < |v|
  {
    TextIn(p, o, s);
    var last := o + |s|;
    assert LabelByte(p[last]);
    assert forall k :: o <= k < |v| && k <= last ==> v[k] == p[k];
    assert last >= |v| && !blank ==> Tail(v, o);
  }

  lemma FoundLooks(v: seq<int>, p: seq<int>, o: nat, s: seq<int>)
    requires TameLabel(s) && Over(v, p) && o + |s| < |v| && p[o] == |s| && p[o + 1..o + 1 + |s|] == s
    ensures v[o] == |s| && v[o + 1..o + 1 + |s|] == s && Looks(v, o)
  {
    TextIn(p, o, s);
    assert forall k :: o <= k <= o + |s| ==> v[k] == p[k];
    assert v[o + 1..o + 1 + |s|] == p[o + 1..o + 1 + |s|];
  }

  /** What stands before the name that is being written, up to its first label. */
  lemma FoundBefore(blank: bool, v: seq<int>, base: nat, done: seq<seq<int>>, p: seq<int>, o: nat, s: seq<int>)
    requires base <= |v| && Spelt(v, base, done, |v|) && TameLabels(done) && (!blank ==> !Dangles(v[..base]))
    requires TameLabel(s) && Over(v, p) && o < base && o + 1 + |s| <= |p| && p[o] == |s| && p[o + 1..o + 1 + |s|] == s
    requires blank ==> ZeroFrom(p, |v|)
    requires !blank ==> |s| < FRONT
    ensures o + |s| < base
  {
    if done == [] {
      assert v[..base] == v;
      FoundInside(blank, v, p, o, s);
    } else {
      TextIn(p, o, s);
      assert TameLabel(done[0]) && v[base] == |done[0]| && p[base] == v[base];
    }
  }

  /** A label that the name has, where it stands in the name. */
  lemma FoundSpelt(v: seq<int>, base: nat, done: seq<seq<int>>, p: seq<int>, o: nat, s: seq<int>)
    requires base <= o < |v| && Spelt(v, base, done, |v|) && TameLabels(done)
    requires TameLabel(s) && Over(v, p) && o + 1 + |s| <= |p| && p[o] == |s| && p[o + 1..o + 1 + |s|] == s
    ensures s in done
  {
    assert v[o] == |s|;
    var k := SpeltStarts(v, base, done, |v|, o);
    assert o + 1 + |done[k..][0]| <= |v|;
    FoundLooks(v, p, o, s);
    assert done[k..][0] == done[k] == s;
  }

  /**
   * In a packet that is tidy up to the name that is being written, a label that is found, and that the name does not
   * have yet, starts a whole name before it.
   */
  lemma CandidateBefore(blank: bool, v: seq<int>, base: nat, done: seq<seq<int>>, p: seq<int>, o: nat, s: seq<int>)
    requires base <= |v| && TidyIn(v[..base])(blank) && Spelt(v, base, done, |v|) && TameLabels(done)
    requires Over(v, p) && (blank ==> ZeroFrom(p, |v|))
    requires TameLabel(s) && (blank || |s| < FRONT) && s !in done && o < |v| && o + 1 + |s| <= |p|
    requires p[o] == |s| && p[o + 1..o + 1 + |s|] == s
    ensures o < base && Named(v[..base], o)
  {
    CandidateLooks(blank, v, base, done, p, o, s);
    LooksNamed(v[..base], o);
  }

  lemma CandidateLooks(blank: bool, v: seq<int>, base: nat, done: seq<seq<int>>, p: seq<int>, o: nat, s: seq<int>)
    requires base <= |v| && TidyIn(v[..base])(blank) && Spelt(v, base, done, |v|) && TameLabels(done)
    requires Over(v, p) && (blank ==> ZeroFrom(p, |v|))
    requires TameLabel(s) && (blank || |s| < FRONT) && s !in done && o < |v| && o + 1 + |s| <= |p|
    requires p[o] == |s| && p[o + 1..o + 1 + |s|] == s
    ensures o < base && Looks(v[..base], o)
  {
    if o >= base {
      FoundSpelt(v, base, done, p, o, s);
    } else {
      FoundBefore(blank, v, base, done, p, o, s);
      FoundLooks(v, p, o, s);
      BeforeName(v, base, done, o);
    }
  }

  lemma LooksNamed(v: seq<int>, o: nat)
    requires IsTidy(v) && Looks(v, o)
    ensures Named(v, o)
  {
  }

  lemma BeforeName(v: seq<int>, base: nat, done: seq<seq<int>>, o: nat)
    requires base <= |v| && Spelt(v, base, done, |v|) && TameLabels(done) && Looks(v, o) && o < base
    ensures Looks(v[..base], o)
  {
    if done != [] {
      assert TameLabel(done[0]) && v[base] == |done[0]|;
      assert o + v[o] < base;
    }
  }

  lemma {:induction false} TameFold(n: Name, items: seq<Item>)
    requires n.Valid() && !n.invalid && !n.sub && Short(items) && TameLabels(Labels(items))
    requires n.parts + |Labels(items)| <= 4 && (n.parts + |Labels(items)| == 4 ==> !EndsInJump(items))
    ensures !Fold(n, items).invalid && !Fold(n, items).sub
    decreases |items|
  {
    if items == [] {
    } else {
      if n.parts == 4 {
        OnlyJumps(items);
      } else {
        TameStep(n, items);
        TameFold(Store(n, items[0]), items[1..]);
      }
    }
  }

  lemma TameStore(n: Name, item: Item)
    requires n.Valid() && !n.invalid && !n.sub && n.parts < 4 && ShortItem(item)
        && (item.Label? ==> TameLabel(item.text))
    ensures var m := Store(n, item); !m.invalid && !m.sub && m.parts <= n.parts + (if item.Label? then 1 else 0)
  {
    if item.Label? {
      TameIsWellFormed(item.text);
    }
  }

  lemma TailLabels(items: seq<Item>)
    requires items != []
    ensures |Labels(items)| == |Labels(items[1..])| + (if items[0].Label? then 1 else 0)
    ensures TameLabels(Labels(items)) ==>
      TameLabels(Labels(items[1..])) && (items[0].Label? ==> TameLabel(items[0].text))
    ensures EndsInJump(items[1..]) ==> EndsInJump(items)
  {
    var labels, tail := Labels(items), Labels(items[1..]);
    if items[0].Label? {
      assert labels[0] == items[0].text;
      assert forall k :: 0 <= k < |tail| ==> tail[k] == labels[k + 1];
    }
  }

  lemma TameStep(n: Name, items: seq<Item>)
    requires n.Valid() && !n.invalid && !n.sub && Short(items) && TameLabels(Labels(items)) && items != []
    requires n.parts < 4 && n.parts + |Labels(items)| <= 4 && (n.parts + |Labels(items)| == 4 ==> !EndsInJump(items))
    ensures var m := Store(n, items[0]);
      && !m.invalid && !m.sub && TameLabels(Labels(items[1..])) && m.parts + |Labels(items[1..])| <= 4
      && (m.parts + |Labels(items[1..])| == 4 ==> !EndsInJump(items[1..]))
  {
    TailLabels(items);
    TameStore(n, items[0]);
  }

  /** A match among whole names of tame labels is exact. */
  lemma TameExact(items: seq<Item>, strings: seq<seq<int>>, total: nat)
    requires Matches(items, strings) && TameItems(items) && TameLabel(strings[0])
    ensures Exact(items, |strings|, total)
  {
    TameIsWellFormed(strings[0]);
    TameFold(Fresh(false), items);
    assert items == [Label(strings[0])] + items[1..];
    FirstLabel(strings[0], items[1..]);
    FoldTight(Started(strings[0]), items[1..]);
  }

  // ---------------------------------------------------------------------------------------------------------
  // A finished name

  /** `w` is `v` with a pointer to a whole name of `left` tame labels. */
  predicate Closes(v: seq<int>, w: seq<int>, o: nat, left: nat) {
    && o < 0x4000 && w == v + PointerBytes(o) && Named(v, o) && Flatten(v, o, o).items != []
    && |Labels(Flatten(v, o, o).items)| == left
  }

  lemma LiteralItems(strings: seq<seq<int>>, rest: seq<Item>)
    requires TameLabels(strings) && (rest == [] || !EndsInJump(rest)) && Solid(rest) && TameLabels(Labels(rest))
    requires |strings| + |Labels(rest)| <= 4
    ensures TameItems(Literals(strings) + rest) && Solid(Literals(strings) + rest)
  {
    var items := Literals(strings) + rest;
    LiteralLabels(strings);
    LabelsAppend(Literals(strings), rest);
    forall k | 0 <= k < |strings|
      ensures SolidItem(Literals(strings)[k])
    {
      TameIsWellFormed(strings[k]);
    }
    if rest == [] {
      assert items == Literals(strings);
    } else {
      assert items[|items| - 1] == rest[|rest| - 1];
    }
  }

  lemma AllWellFormed(strings: seq<seq<int>>)
    requires TameLabels(strings)
    ensures forall k :: 0 <= k < |strings| ==> WellFormedLabel(strings[k])
  {
    forall k | 0 <= k < |strings|
      ensures WellFormedLabel(strings[k])
    {
      TameIsWellFormed(strings[k]);
    }
  }

  /** From each of its labels on, a name that has come to its end is a whole name. */
  lemma EndedName(v: seq<int>, o: nat, strings: seq<seq<int>>)
    requires Spelt(v, o, strings, |v|) && TameLabels(strings) && |strings| <= 4 && FRONT <= o
    ensures Named(v + [0], o)
  {
    var w := v + [0];
    AllWellFormed(strings);
    WellFormedReadable(strings);
    assert Agrees(v, w);
    FlattenSpelt(v, w, o, o, strings, |v|);
    LiteralItems(strings, []);
    assert Literals(strings) + [] == Literals(strings);
    assert Flatten(w, o, |v|) == Flat([], |v| + 1);
  }

  lemma PointedName(v: seq<int>, at: nat, strings: seq<seq<int>>, o: nat, left: nat)
    requires Spelt(v, at, strings, |v|) && TameLabels(strings) && o < at && FRONT <= at && |strings| + left <= 4
    requires Closes(v, v + PointerBytes(o), o, left)
    ensures Named(v + PointerBytes(o), at)
  {
    var w := v + PointerBytes(o);
    AllWellFormed(strings);
    WellFormedReadable(strings);
    PointerHere(v, w, o);
    FlattenSpelt(v, w, at, at, strings, |v|);
    FlattenPointer(v, w, at, o);
    FlattenStable(v, w, o, o);
    var items := Flatten(v, o, o).items;
    JumpItems(items);
    LiteralItems(strings, [Jump] + items);
  }

  lemma JumpItems(items: seq<Item>)
    requires items != [] && TameItems(items) && Solid(items)
    ensures Solid([Jump] + items) && Labels([Jump] + items) == Labels(items) && !EndsInJump([Jump] + items)
  {
    var all := [Jump] + items;
    assert all[1..] == items;
    SolidCons(Jump, items);
  }

  lemma FinishedBefore(v: seq<int>, w: seq<int>, base: nat, done: seq<seq<int>>, o: nat)
    requires base <= |v| < |w| && w[..|v|] == v && !LabelByte(w[|v|]) && Spelt(v, base, done, |v|) && TameLabels(done)
    requires Looks(w, o) && o < base
    ensures Looks(v[..base], o)
  {
    assert forall k :: 0 <= k < |v| ==> w[k] == v[k];
    assert o + w[o] < |v|;
    assert Looks(v, o);
    BeforeName(v, base, done, o);
  }

  lemma EndTidy(v: seq<int>, base: nat, done: seq<seq<int>>)
    requires FRONT <= base <= |v| && IsTidy(v[..base]) && Spelt(v, base, done, |v|) && TameLabels(done) && |done| <= 4
    ensures IsTidy(v + [0])
  {
    var w := v + [0];
    assert w[..|v|] == v;
    FrontKept(v, w, base, done);
    forall o | 0 <= o < |w| && Looks(w, o)
      ensures Named(w, o)
    {
      if o < base {
        FinishedBefore(v, w, base, done, o);
        NamedGrows(v[..base], w, o);
      } else {
        assert w[o] == v[o];
        var k := SpeltStarts(v, base, done, |v|, o);
        EndedName(v, o, done[k..]);
      }
    }
  }

  lemma FrontKept(v: seq<int>, w: seq<int>, base: nat, done: seq<seq<int>>)
    requires FRONT <= base <= |v| < |w| && IsTidy(v[..base]) && Spelt(v, base, done, |v|) && TameLabels(done)
    requires w[..|v|] == v && !LabelByte(w[|v|])
    ensures !LabelByte(w[FRONT])
  {
    assert forall k :: 0 <= k < |v| ==> w[k] == v[k];
    if base == FRONT && done != [] {
      assert TameLabel(done[0]);
    }
  }

  /** A pointer to a near place does not look like the length of a short label. */
  lemma PointerEnds(v: seq<int>, o: nat)
    requires FRONT <= o < NEAR
    ensures !Dangles(v + PointerBytes(o))
  {
    var w := v + PointerBytes(o);
    assert w[|v|] == 0xC0 && w[|v| + 1] == o;
    forall x | 0 <= x < |w|
      ensures !Tail(w, x)
    {
      assert !LabelByte(w[|v|]);
    }
  }

  lemma PointTidy(v: seq<int>, base: nat, done: seq<seq<int>>, o: nat, left: nat)
    requires FRONT <= base <= |v| && IsTidy(v[..base]) && Spelt(v, base, done, |v|) && TameLabels(done)
    requires o < base && |done| + left <= 4 && Closes(v, v + PointerBytes(o), o, left)
    ensures IsTidy(v + PointerBytes(o))
  {
    var w := v + PointerBytes(o);
    assert w[..|v|] == v && w[|v|] == 0xC0 + o / 256;
    FrontKept(v, w, base, done);
    forall x | 0 <= x < |w| && Looks(w, x)
      ensures Named(w, x)
    {
      if x < base {
        FinishedBefore(v, w, base, done, x);
        NamedGrows(v[..base], w, x);
      } else {
        assert x < |v| && w[x] == v[x];
        var k := SpeltStarts(v, base, done, |v|, x);
        PointedName(v, x, done[k..], o, left);
      }
    }
  }
}
