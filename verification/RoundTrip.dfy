/** When the decoder gives back the labels that a name was built from. */
module RoundTrip {
  import opened Bytes
  import opened Names

  predicate WellFormedLabel(s: seq<int>) {
    1 <= |s| <= 63 && (forall k :: 0 <= k < |s| ==> 0 < s[k] < 256) && !CiEq(s, SUB)
  }

  /** One to four labels, none of them `_sub`, the second one of a kind that the decoder keeps apart. */
  predicate WellFormed(strings: seq<seq<int>>) {
    && 1 <= |strings| <= 4
    && (forall k :: 0 <= k < |strings| ==> WellFormedLabel(strings[k]))
    && (|strings| >= 2 ==> !JoinsHost(strings[1]))
  }

  /** The labels are the strings, up to case, as C strings. */
  predicate Spells(labels: seq<seq<int>>, strings: seq<seq<int>>) {
    |labels| == |strings| && forall k :: 0 <= k < |labels| ==> CiEq(CStr(labels[k]), strings[k])
  }

  /** Decoding the items gives exactly the strings, up to case, and raises neither flag. */
  predicate ReadsBack(items: seq<Item>, strings: seq<seq<int>>) {
    && Short(items)
    && var n := Fold(Fresh(false), items);
    && n.parts == |strings| && !n.invalid && !n.sub
    && forall k :: 0 <= k < |strings| ==> CiEq(n.slots[k], strings[k])
  }

  lemma SameKind(c: seq<int>, s: seq<int>)
    requires CiEq(c, s)
    ensures JoinsHost(c) == JoinsHost(s) && CiEq(c, SUB) == CiEq(s, SUB)
  {
    assert c != [] ==> Lower(c[0]) == Lower(s[0]);
  }

  // ---------------------------------------------------------------------------------------------------------
  // From the labels to the parsed name

  lemma {:induction false} OnlyJumps(items: seq<Item>)
    requires Labels(items) == [] && items != []
    ensures EndsInJump(items)
  {
    if |items| <= 1 {
    } else {
      OnlyJumps(items[1..]);
    }
  }

  lemma {:induction false} FoldSpelled(n: Name, items: seq<Item>, strings: seq<seq<int>>)
    requires n.Valid() && !n.invalid && !n.sub && Short(items)
    requires WellFormed(strings) && n.parts <= |strings|
    requires Spells(Labels(items), strings[n.parts..])
    requires |strings| == 4 ==> !EndsInJump(items)
    ensures var f := Fold(n, items);
      && f.parts == |strings| && !f.invalid && !f.sub
      && (forall k :: 0 <= k < n.parts ==> f.slots[k] == n.slots[k])
      && (forall k :: n.parts <= k < |strings| ==> CiEq(f.slots[k], strings[k]))
    decreases |items|
  {
    if items == [] {
    } else if n.parts == 4 {
      OnlyJumps(items);
      assert false;
    } else {
      var m := Store(n, items[0]);
      if items[0].Label? {
        var c := CStr(items[0].text);
        assert Labels(items)[0] == items[0].text;
        assert strings[n.parts..][0] == strings[n.parts];
        SameKind(c, strings[n.parts]);
        assert Labels(items[1..]) == Labels(items)[1..];
        assert strings[m.parts..] == strings[n.parts..][1..];
      }
      FoldSpelled(m, items[1..], strings);
    }
  }

  // ---------------------------------------------------------------------------------------------------------
  // From the parsed name to the labels

  /** Every label was stored, in order, after the parts that were there. */
  predicate AllStored(n: Name, f: Name, labels: seq<seq<int>>)
    requires n.Valid() && f.Valid()
  {
    && f.parts == n.parts + |labels|
    && (forall k :: 0 <= k < n.parts ==> f.slots[k] == n.slots[k])
    && (forall k :: n.parts <= k < f.parts ==> f.slots[k] == CStr(labels[k - n.parts]))
  }

  lemma StoreCount(n: Name, item: Item)
    requires n.Valid() && ShortItem(item)
    ensures item.Jump? ==> AllStored(n, Store(n, item), [])
    ensures item.Label? ==> Store(n, item).parts == n.parts || AllStored(n, Store(n, item), [item.text])
  {
  }

  lemma {:induction false} FoldCount(n: Name, items: seq<Item>)
    requires n.Valid() && Short(items)
    ensures n.parts <= Fold(n, items).parts <= n.parts + |Labels(items)|
    ensures Fold(n, items).parts == n.parts + |Labels(items)| ==> AllStored(n, Fold(n, items), Labels(items))
    decreases |items|
  {
    if items == [] {
    } else {
      StoreCount(n, items[0]);
      FoldCount(Store(n, items[0]), items[1..]);
    }
  }

  lemma {:induction false} HostGrows(n: Name, items: seq<Item>)
    requires n.Valid() && n.parts >= 1 && Short(items)
    ensures Fold(n, items).parts >= 1 && |Fold(n, items).slots[0]| >= |n.slots[0]|
    ensures n.invalid ==> Fold(n, items).invalid
    ensures n.sub ==> Fold(n, items).sub
    decreases |items|
  {
    if items == [] {
    } else {
      HostGrows(Store(n, items[0]), items[1..]);
    }
  }

  lemma {:induction false} FoldTight(n: Name, items: seq<Item>)
    requires n.Valid() && n.parts >= 1 && Short(items) && |n.slots[0]| < NAME_BUF_LEN - 1
    requires var f := Fold(n, items); !f.invalid && !f.sub && |f.slots[0]| == |n.slots[0]|
    ensures Fold(n, items).parts == n.parts + |Labels(items)|
    ensures Fold(n, items).parts == 4 ==> !EndsInJump(items)
    decreases |items|
  {
    if items == [] {
    } else {
      var m := Store(n, items[0]);
      HostGrows(m, items[1..]);
      FoldTight(m, items[1..]);
    }
  }

  // ---------------------------------------------------------------------------------------------------------
  // Pointers

  function Literals(strings: seq<seq<int>>): (items: seq<Item>)
    ensures |items| == |strings| && forall k :: 0 <= k < |strings| ==> items[k] == Label(strings[k])
  {
    seq(|strings|, k requires 0 <= k < |strings| => Label(strings[k]))
  }

  lemma {:induction false} LiteralLabels(strings: seq<seq<int>>)
    ensures Labels(Literals(strings)) == strings
  {
    if strings == [] {
    } else {
      assert Literals(strings)[1..] == Literals(strings[1..]);
      LiteralLabels(strings[1..]);
    }
  }

  /** What the encoder checks of a candidate: its first label byte for byte, its parts up to case. */
  predicate Matches(items: seq<Item>, strings: seq<seq<int>>) {
    && Short(items) && items != [] && strings != [] && items[0] == Label(strings[0])
    && var n := Fold(Fresh(false), items);
    && n.parts == |strings| && forall k :: 0 <= k < |strings| ==> CiEq(n.slots[k], strings[k])
  }

  /** What it does not check: a `_sub` label, a fifth label, a pointer to a terminator after the fourth part. */
  predicate Exact(items: seq<Item>, count: nat, total: nat) {
    |Labels(items)| == count && (total == 4 ==> !EndsInJump(items))
  }

  lemma MatchSpells(items: seq<Item>, strings: seq<seq<int>>)
    requires Matches(items, strings) && |Labels(items)| == |strings|
    ensures Spells(Labels(items), strings)
  {
    FoldCount(Fresh(false), items);
    var labels := Labels(items);
    var f := Fold(Fresh(false), items);
    forall k | 0 <= k < |labels|
      ensures CiEq(CStr(labels[k]), strings[k])
    {
      assert f.slots[k] == CStr(labels[k]);
    }
  }

  /**
   * The encoder writes the first `k` labels out and then a pointer to a candidate that matches the rest.
   * The name reads back if and only if the candidate is exact.
   */
  lemma PointerReadsBack(strings: seq<seq<int>>, k: nat, target: seq<Item>)
    requires WellFormed(strings) && k < |strings| && Matches(target, strings[k..])
    ensures ReadsBack(Literals(strings[..k]) + [Jump] + target, strings)
       <==> Exact(target, |strings| - k, |strings|)
  {
    var items := Literals(strings[..k]) + [Jump] + target;
    PointerLabels(strings, k, target);
    if Exact(target, |strings| - k, |strings|) {
      ExactReadsBack(strings, k, target);
    }
    if ReadsBack(items, strings) {
      if k == 0 {
        assert items == [Jump] + target;
        SkipJump(target);
        assert target == [Label(strings[0])] + target[1..];
        ReadsBackTight(strings[0], target[1..], strings);
      } else {
        assert items[0] == Label(strings[0]);
        assert items == [Label(strings[0])] + items[1..];
        ReadsBackTight(strings[0], items[1..], strings);
      }
    }
  }

  lemma PointerLabels(strings: seq<seq<int>>, k: nat, target: seq<Item>)
    requires k <= |strings| && target != []
    ensures var items := Literals(strings[..k]) + [Jump] + target;
      Labels(items) == strings[..k] + Labels(target) && EndsInJump(items) == EndsInJump(target)
  {
    var head := Literals(strings[..k]) + [Jump];
    LiteralLabels(strings[..k]);
    LabelsAppend(Literals(strings[..k]), [Jump]);
    LabelsAppend(head, target);
    var items := head + target;
    assert items[|items| - 1] == target[|target| - 1];
  }

  lemma ExactReadsBack(strings: seq<seq<int>>, k: nat, target: seq<Item>)
    requires WellFormed(strings) && k < |strings| && Matches(target, strings[k..])
    requires Exact(target, |strings| - k, |strings|)
    ensures ReadsBack(Literals(strings[..k]) + [Jump] + target, strings)
  {
    var items := Literals(strings[..k]) + [Jump] + target;
    PointerLabels(strings, k, target);
    MatchSpells(target, strings[k..]);
    forall j | 0 <= j < |strings|
      ensures CiEq(CStr(Labels(items)[j]), strings[j])
    {
      if j < k {
        CStrWhole(strings[j]);
      } else {
        assert strings[k..][j - k] == strings[j];
      }
    }
    assert Short(items);
    assert strings[0..] == strings;
    FoldSpelled(Fresh(false), items, strings);
  }

  /** A name whose first label has been stored. */
  function Started(s: seq<int>): Name {
    Name([s, [], [], []], 1, false, false)
  }

  lemma FirstLabel(s: seq<int>, rest: seq<Item>)
    requires WellFormedLabel(s) && Short(rest)
    ensures Started(s).Valid()
    ensures Short([Label(s)] + rest) && Fold(Fresh(false), [Label(s)] + rest) == Fold(Started(s), rest)
    ensures |Labels([Label(s)] + rest)| == 1 + |Labels(rest)|
    ensures EndsInJump([Label(s)] + rest) == EndsInJump(rest)
  {
    CStrWhole(s);
    var items := [Label(s)] + rest;
    assert items[1..] == rest;
    assert Store(Fresh(false), items[0]) == Started(s);
  }

  lemma ReadsBackTight(s: seq<int>, rest: seq<Item>, strings: seq<seq<int>>)
    requires WellFormed(strings) && s == strings[0]
    requires ReadsBack([Label(s)] + rest, strings)
    ensures Exact([Label(s)] + rest, |strings|, |strings|)
  {
    assert rest == ([Label(s)] + rest)[1..];
    FirstLabel(s, rest);
    FoldTight(Started(s), rest);
  }

  lemma SkipJump(items: seq<Item>)
    requires Short(items) && items != []
    ensures Short([Jump] + items) && Fold(Fresh(false), [Jump] + items) == Fold(Fresh(false), items)
    ensures Labels([Jump] + items) == Labels(items)
  {
    assert ([Jump] + items)[1..] == items;
    assert Store(Fresh(false), Jump) == Fresh(false);
  }

  // ---------------------------------------------------------------------------------------------------------
  // Names in a packet

  /**
   * At `i`, in a name started at `base`, stand the labels `strings`, written out or pointed to, in final bytes.
   * In a name with all four parts (`full`) no pointer leads straight to a terminator.
   */
  predicate Reads(v: seq<int>, base: nat, i: nat, strings: seq<seq<int>>, full: bool)
    decreases base, |v| - i
  {
    && i < |v|
    && if v[i] == 0 then strings == []
       else if 0 < v[i] < 64 then
         var end := i + 1 + v[i];
         && end <= |v| && strings != [] && NoHole(v[i + 1..end]) && CiEq(CStr(v[i + 1..end]), strings[0])
         && Reads(v, base, end, strings[1..], full)
       else
         && 0xC0 <= v[i] < 256 && i + 1 < |v| && 0 <= v[i + 1] < 256 && (full ==> strings != [])
         && var address := Address(v[i], v[i + 1]);
         address < base && Reads(v, address, address, strings, full)
  }

  /** The offset after the name at `i`. */
  function End(v: seq<int>, i: nat): nat
    decreases |v| - i
  {
    if i >= |v| then i
    else if v[i] == 0 then i + 1
    else if 0 < v[i] < 64 && i + 1 + v[i] <= |v| then End(v, i + 1 + v[i])
    else i + 2
  }

  predicate Written(v: seq<int>, base: nat, i: nat, strings: seq<seq<int>>, total: nat, j: nat) {
    Reads(v, base, i, strings, total == 4) && End(v, i) == j
  }

  predicate NameAt(v: seq<int>, i: nat, strings: seq<seq<int>>, j: nat) {
    Written(v, i, i, strings, |strings|, j)
  }

  function NameIn(v: seq<int>): (nat, seq<seq<int>>, nat) -> bool {
    (i: nat, strings: seq<seq<int>>, j: nat) => NameAt(v, i, strings, j)
  }

  /** Standing in the packet means flattening to labels that spell the strings. */
  lemma {:induction false} ReadsFlat(v: seq<int>, base: nat, i: nat, strings: seq<seq<int>>, full: bool)
    requires Reads(v, base, i, strings, full)
    ensures var f := Flatten(v, base, i);
      f.Flat? && f.next == End(v, i) && Spells(Labels(f.items), strings) && (full ==> !EndsInJump(f.items))
    decreases base, |v| - i
  {
    if v[i] == 0 {
    } else if 0 < v[i] < 64 {
      var end := i + 1 + v[i];
      ReadsFlat(v, base, end, strings[1..], full);
      JoinItems(Label(v[i + 1..end]), Flatten(v, base, end).items, strings);
    } else {
      var address := Address(v[i], v[i + 1]);
      ReadsFlat(v, address, address, strings, full);
      JoinItems(Jump, Flatten(v, address, address).items, strings);
    }
  }

  lemma JoinItems(item: Item, tail: seq<Item>, strings: seq<seq<int>>)
    requires item.Label? ==>
      strings != [] && CiEq(CStr(item.text), strings[0]) && Spells(Labels(tail), strings[1..])
    requires item.Jump? ==> Spells(Labels(tail), strings)
    ensures Spells(Labels([item] + tail), strings)
    ensures EndsInJump([item] + tail) ==> EndsInJump(tail) || (item.Jump? && tail == [])
    ensures tail == [] && item.Jump? ==> strings == []
  {
    var items := [item] + tail;
    assert items[1..] == tail;
    if item.Label? {
      assert Labels(items) == [item.text] + Labels(tail);
    }
  }

  lemma {:induction false} FlatReads(v: seq<int>, base: nat, i: nat, strings: seq<seq<int>>, full: bool)
    requires Flatten(v, base, i).Flat? && Solid(Flatten(v, base, i).items)
    requires Spells(Labels(Flatten(v, base, i).items), strings)
    requires full ==> !EndsInJump(Flatten(v, base, i).items)
    ensures Reads(v, base, i, strings, full)
    decreases base, |v| - i
  {
    var items := Flatten(v, base, i).items;
    if v[i] == 0 {
    } else if 0 < v[i] < 64 {
      var end := i + 1 + v[i];
      var tail := Flatten(v, base, end).items;
      SplitItems(Label(v[i + 1..end]), tail, strings);
      FlatReads(v, base, end, strings[1..], full);
    } else {
      var address := Address(v[i], v[i + 1]);
      var tail := Flatten(v, address, address).items;
      SplitItems(Jump, tail, strings);
      FlatReads(v, address, address, strings, full);
    }
  }

  lemma SplitItems(item: Item, tail: seq<Item>, strings: seq<seq<int>>)
    requires Solid([item] + tail) && Spells(Labels([item] + tail), strings)
    ensures Solid(tail) && SolidItem(item) && (EndsInJump(tail) ==> EndsInJump([item] + tail))
    ensures item.Label? ==>
      strings != [] && CiEq(CStr(item.text), strings[0]) && Spells(Labels(tail), strings[1..])
    ensures item.Jump? ==> Spells(Labels(tail), strings) && (strings == [] ==> EndsInJump([item] + tail))
  {
    var items := [item] + tail;
    assert items[1..] == tail;
    SolidTail(item, tail);
    if item.Label? {
      var labels := Labels(items);
      assert labels == [item.text] + Labels(tail);
      assert labels[0] == item.text;
      assert forall k :: 0 <= k < |Labels(tail)| ==> Labels(tail)[k] == labels[k + 1];
    } else if strings == [] {
      OnlyJumps(items);
    }
  }

  /** The name compression round trip: what stands in the packet is what the decoder reads. */
  lemma NameReadsBack(v: seq<int>, i: nat, strings: seq<seq<int>>, j: nat)
    requires NameAt(v, i, strings, j) && WellFormed(strings)
    ensures Flatten(v, i, i).Flat? && Flatten(v, i, i).next == j && ReadsBack(Flatten(v, i, i).items, strings)
  {
    ReadsFlat(v, i, i, strings, |strings| == 4);
    FlattenShort(v, i, i);
    assert strings[0..] == strings;
    FoldSpelled(Fresh(false), Flatten(v, i, i).items, strings);
  }

  /** Later bytes and later patches leave a name that stands in the packet as it is. */
  lemma {:induction false} ReadsStable(a: seq<int>, p: seq<int>, base: nat, i: nat, strings: seq<seq<int>>, full: bool)
    requires Agrees(a, p) && Reads(a, base, i, strings, full)
    ensures Reads(p, base, i, strings, full)
    decreases base, |a| - i
  {
    assert p[i] == a[i];
    if a[i] == 0 {
    } else if 0 < a[i] < 64 {
      var end := i + 1 + a[i];
      SameSlice(a, p, i + 1, end);
      ReadsStable(a, p, base, end, strings[1..], full);
      assert Reads(p, base, i, strings, full);
    } else {
      var address := Address(a[i], a[i + 1]);
      assert p[i + 1] == a[i + 1];
      ReadsStable(a, p, address, address, strings, full);
      assert Reads(p, base, i, strings, full);
    }
  }

  lemma {:induction false} EndStable(a: seq<int>, p: seq<int>, base: nat, i: nat, strings: seq<seq<int>>, full: bool)
    requires Agrees(a, p) && Reads(a, base, i, strings, full)
    ensures End(p, i) == End(a, i)
    decreases |a| - i
  {
    if 0 < a[i] < 64 {
      EndStable(a, p, base, i + 1 + a[i], strings[1..], full);
    }
  }

  lemma WrittenStable(a: seq<int>, p: seq<int>, base: nat, i: nat, strings: seq<seq<int>>, total: nat, j: nat)
    requires Agrees(a, p) && Written(a, base, i, strings, total, j)
    ensures Written(p, base, i, strings, total, j)
  {
    ReadsStable(a, p, base, i, strings, total == 4);
    EndStable(a, p, base, i, strings, total == 4);
  }

  /** A literal label in front of a written name. */
  lemma WrittenLiteral(v: seq<int>, base: nat, i: nat, s: seq<int>, rest: seq<seq<int>>, total: nat, j: nat)
    requires i < |v| && WellFormedLabel(s) && v[i] == |s| && i + 1 + |s| <= |v| && v[i + 1..i + 1 + |s|] == s
    requires Written(v, base, i + 1 + |s|, rest, total, j)
    ensures Written(v, base, i, [s] + rest, total, j)
  {
    CStrWhole(s);
    assert ([s] + rest)[1..] == rest;
  }

  /** A pointer to an exact candidate. */
  lemma WrittenPointer(v: seq<int>, base: nat, o: nat, strings: seq<seq<int>>, total: nat)
    requires o < base && o < 0x4000
    requires Flatten(v, o, o).Flat? && Solid(Flatten(v, o, o).items)
    requires Matches(Flatten(v, o, o).items, strings) && Exact(Flatten(v, o, o).items, |strings|, total)
    ensures Written(v + [0xC0 + o / 256, o % 256], base, |v|, strings, total, |v| + 2)
  {
    MatchSpells(Flatten(v, o, o).items, strings);
    FlatReads(v, o, o, strings, total == 4);
    PointerTo(v, base, o, strings, total);
  }

  lemma PointerTo(v: seq<int>, base: nat, o: nat, strings: seq<seq<int>>, total: nat)
    requires o < base && o < 0x4000 && strings != [] && Reads(v, o, o, strings, total == 4)
    ensures Written(v + [0xC0 + o / 256, o % 256], base, |v|, strings, total, |v| + 2)
  {
    var p := v + [0xC0 + o / 256, o % 256];
    ReadsStable(v, p, o, o, strings, total == 4);
    assert p[|v|] == 0xC0 + o / 256 && p[|v| + 1] == o % 256;
    assert Address(p[|v|], p[|v| + 1]) == o;
  }
}
