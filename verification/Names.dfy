/** Domain names on the wire: the compressed form of section 4.1.4 of RFC 1035 and the responder's decoder. */
module Names {
  import opened Bytes

  /** Size of each buffer of a parsed name, with its NUL. */
  const NAME_BUF_LEN: nat := 65
  const LOCAL: seq<int> := [108, 111, 99, 97, 108]
  const SUB: seq<int> := [95, 115, 117, 98]
  const IP6: seq<int> := [105, 112, 54]
  const IN_ADDR: seq<int> := [105, 110, 45, 97, 100, 100, 114]

  /** What the decoder meets on its way through a name. */
  datatype Item = Label(text: seq<int>) | Jump

  /** A flattened name: its items in order, pointers followed, and the offset after the name where it was started. */
  datatype Flat = Flat(items: seq<Item>, next: nat) | Bad | Overrun

  function Prepend(items: seq<Item>, f: Flat): Flat {
    if f.Flat? then Flat(items + f.items, f.next) else f
  }

  /** The offset that a pointer holds. */
  function Address(high: int, low: int): (a: int)
    ensures 0xC0 <= high && 0 <= low ==> 0 <= a
  {
    (high - 0xC0) * 256 + low
  }

  /** The meaning of the bytes at `i`, within a name started at `base`; a pointer must lead to before `base`. */
  function Flatten(p: seq<int>, base: nat, i: nat): Flat
    decreases base, |p| - i
  {
    if i >= |p| then Overrun
    else if p[i] == 0 then Flat([], i + 1)
    else if 0 < p[i] < 64 then
      var end := i + 1 + p[i];
      if end > |p| then Overrun else Prepend([Label(p[i + 1..end])], Flatten(p, base, end))
    else if 0xC0 <= p[i] < 256 then
      if i + 1 >= |p| then Overrun
      else if !(0 <= p[i + 1] < 256) then Bad
      else
        var address := Address(p[i], p[i + 1]);
        if address >= base then Bad
        else
          var f := Flatten(p, address, address);
          if f.Flat? then Flat([Jump] + f.items, i + 2) else f
    else Bad
  }

  function Labels(items: seq<Item>): seq<seq<int>> {
    if items == [] then []
    else match items[0]
      case Label(t) => [t] + Labels(items[1..])
      case Jump => Labels(items[1..])
  }

  predicate SolidItem(item: Item) {
    item.Label? ==> NoHole(item.text)
  }

  predicate Solid(items: seq<Item>) {
    forall k :: 0 <= k < |items| ==> SolidItem(items[k])
  }

  /** The last step of the name is a pointer straight to a terminator. */
  predicate EndsInJump(items: seq<Item>) {
    items != [] && items[|items| - 1].Jump?
  }

  /** A parsed name: the four buffers host, service, proto, domain, and the counters beside them. */
  datatype Name = Name(slots: seq<seq<int>>, parts: nat, sub: bool, invalid: bool) {
    predicate Valid() {
      |slots| == 4 && parts <= 4 && forall k :: 0 <= k < 4 ==> |slots[k]| < NAME_BUF_LEN
    }
  }

  function Fresh(invalid: bool): (n: Name)
    ensures n.Valid()
  {
    Name([[], [], [], []], 0, false, invalid)
  }

  /** A second label that the decoder joins to the host name instead of storing it. */
  predicate JoinsHost(c: seq<int>) {
    && !(c != [] && c[0] == UNDERSCORE)
    && !CiEq(c, LOCAL) && !CiEq(c, IP6) && !CiEq(c, IN_ADDR)
  }

  predicate ShortItem(item: Item) {
    item.Label? ==> |item.text| < 64
  }

  predicate Short(items: seq<Item>) {
    forall k :: 0 <= k < |items| ==> ShortItem(items[k])
  }

  /** One turn of the decoder's loop. */
  function Store(n: Name, item: Item): (m: Name)
    requires n.Valid()
    requires ShortItem(item)
    ensures m.Valid()
  {
    var n1 := if n.parts == 4 then n.(invalid := true) else n;
    if item.Jump? then n1
    else
      var c := CStr(item.text);
      if n1.parts == 1 && JoinsHost(c) then
        n1.(slots := n1.slots[0 := StrLCat(StrLCat(n1.slots[0], [DOT], NAME_BUF_LEN), c, NAME_BUF_LEN)])
      else if CiEq(c, SUB) then n1.(sub := true)
      else if !n1.invalid && n1.parts < 4 then n1.(slots := n1.slots[n1.parts := c], parts := n1.parts + 1)
      else n1
  }

  function Fold(n: Name, items: seq<Item>): (m: Name)
    requires n.Valid() && Short(items)
    ensures m.Valid()
    decreases |items|
  {
    if items == [] then n else Fold(Store(n, items[0]), items[1..])
  }

  lemma FoldCons(n: Name, item: Item, items: seq<Item>)
    requires n.Valid() && ShortItem(item) && Short(items)
    ensures Short([item] + items) && Fold(n, [item] + items) == Fold(Store(n, item), items)
  {
    assert ([item] + items)[1..] == items;
  }

  lemma {:induction false} FlattenShort(p: seq<int>, base: nat, i: nat)
    ensures Flatten(p, base, i).Flat? ==> Short(Flatten(p, base, i).items) && i < Flatten(p, base, i).next <= |p|
    decreases base, |p| - i
  {
    if i < |p| && 0 < p[i] < 64 && i + 1 + p[i] <= |p| {
      FlattenShort(p, base, i + 1 + p[i]);
    } else if i + 1 < |p| && 0xC0 <= p[i] < 256 && 0 <= p[i + 1] < 256 {
      var address := Address(p[i], p[i + 1]);
      if address < base {
        FlattenShort(p, address, address);
      }
    }
  }

  lemma SameSlice(a: seq<int>, p: seq<int>, i: nat, end: nat)
    requires Agrees(a, p) && i <= end <= |a| && NoHole(a[i..end])
    ensures p[i..end] == a[i..end]
  {
    assert forall k :: i <= k < end ==> a[k] == a[i..end][k - i];
  }

  /**
   * Bytes that are final keep their meaning: whatever is written after them, and whatever is patched into the
   * places that were still open, a name that read well before reads the same afterwards.
   */
  lemma {:induction false} FlattenStable(a: seq<int>, p: seq<int>, base: nat, i: nat)
    requires Agrees(a, p)
    requires Flatten(a, base, i).Flat? && Solid(Flatten(a, base, i).items)
    ensures Flatten(p, base, i) == Flatten(a, base, i)
    decreases base, |a| - i
  {
    assert p[i] == a[i];
    if a[i] == 0 {
    } else if 0 < a[i] < 64 {
      var end := i + 1 + a[i];
      SolidTail(Label(a[i + 1..end]), Flatten(a, base, end).items);
      SameSlice(a, p, i + 1, end);
      FlattenStable(a, p, base, end);
    } else {
      assert p[i + 1] == a[i + 1];
      var address := Address(a[i], a[i + 1]);
      SolidTail(Jump, Flatten(a, address, address).items);
      FlattenStable(a, p, address, address);
    }
  }

  lemma SolidTail(item: Item, tail: seq<Item>)
    requires Solid([item] + tail)
    ensures SolidItem(item) && Solid(tail)
  {
    var items := [item] + tail;
    assert SolidItem(items[0]);
    assert forall k :: 0 <= k < |tail| ==> tail[k] == items[k + 1];
  }

  lemma {:induction false} LabelsAppend(a: seq<Item>, b: seq<Item>)
    ensures Labels(a + b) == Labels(a) + Labels(b)
  {
    if a == [] {
      assert a + b == b;
    } else {
      assert (a + b)[1..] == a[1..] + b;
      LabelsAppend(a[1..], b);
    }
  }

  // ---------------------------------------------------------------------------------------------------------
  // The decoder

  datatype Read = Next(pos: nat) | Null | OutOfBounds

  function ReadOf(f: Flat): Read {
    match f
    case Flat(_, next) => Next(next)
    case Bad => Null
    case Overrun => OutOfBounds
  }

  /** The name structure that the decoder fills in. */
  class NameBuffer {
    var slots: seq<seq<int>>
    var parts: nat
    var sub: bool
    var invalid: bool

    function View(): Name
      reads this
    {
      Name(slots, parts, sub, invalid)
    }

    constructor (garbage: bool)
      ensures View() == Fresh(garbage)
    {
      slots, parts, sub, invalid := [[], [], [], []], 0, false, garbage;
    }

    /** Everything is emptied except the `invalid` flag. */
    method Reset()
      modifies this
      ensures View() == Fresh(old(invalid))
    {
      slots, parts, sub := [[], [], [], []], 0, false;
    }

    method Take(item: Item)
      requires View().Valid()
      requires ShortItem(item)
      modifies this
      ensures View() == Store(old(View()), item)
    {
      if parts == 4 {
        invalid := true;
      }
      if item.Label? {
        var buf := CStr(item.text);
        if parts == 1 && JoinsHost(buf) {
          slots := slots[0 := StrLCat(StrLCat(slots[0], [DOT], NAME_BUF_LEN), buf, NAME_BUF_LEN)];
        } else if CiEq(buf, SUB) {
          sub := true;
        } else if !invalid {
          slots := slots[parts := buf];
          parts := parts + 1;
        }
      }
    }
  }

  /**
   * Reads the name at `start`. It ends on every packet, cyclic pointers included, because a pointer is followed
   * only to before `start`; its outcome is that of the flattened name, and the name structure is the fold over it.
   */
  method ReadFqdn(packet: seq<byte>, start: nat, name: NameBuffer) returns (r: Read)
    requires name.View().Valid()
    modifies name
    ensures name.View().Valid()
    ensures r == ReadOf(Flatten(packet, start, start))
    ensures r.Next? ==> Short(Flatten(packet, start, start).items)
    ensures r.Next? ==> name.View() == Fold(old(name.View()), Flatten(packet, start, start).items)
    decreases start
  {
    var index := start;
    ghost var whole := Flatten(packet, start, start);
    while index < |packet| && packet[index] != 0
      invariant start <= index && name.View().Valid()
      invariant Continues(old(name.View()), whole, name.View(), Flatten(packet, start, index))
      decreases |packet| - index
    {
      var len: int := packet[index];
      if len < 0xC0 {
        if len > 63 {
          return Null;
        }
        var end := index + 1 + len;
        if end > |packet| {
          return OutOfBounds;
        }
        var item := Label(packet[index + 1..end]);
        assert Flatten(packet, start, index) == Prepend([item], Flatten(packet, start, end));
        ContinuesStep(old(name.View()), whole, name.View(), item, Flatten(packet, start, end));
        name.Take(item);
        index := end;
      } else {
        if index + 1 >= |packet| {
          return OutOfBounds;
        }
        var address: int := Address(len, packet[index + 1]);
        if address >= start {
          return Null;
        }
        ghost var target := Flatten(packet, address, address);
        assert Flatten(packet, start, index)
            == if target.Flat? then Flat([Jump] + target.items, index + 2) else target;
        ContinuesJump(old(name.View()), whole, name.View(), target, index + 2);
        name.Take(Jump);
        r := ReadFqdn(packet, address, name);
        if r.Next? {
          r := Next(index + 2);
        }
        return;
      }
    }
    if index >= |packet| {
      return OutOfBounds;
    }
    return Next(index + 1);
  }

  /** Reading `rest` on from the name `n` comes to the same as reading `whole` from the name `n0`. */
  predicate Continues(n0: Name, whole: Flat, n: Name, rest: Flat)
    requires n0.Valid() && n.Valid()
  {
    && ReadOf(whole) == ReadOf(rest)
    && (rest.Flat? && Short(rest.items) ==> Short(whole.items) && Fold(n0, whole.items) == Fold(n, rest.items))
  }

  lemma ContinuesStep(n0: Name, whole: Flat, n: Name, item: Item, rest: Flat)
    requires n0.Valid() && n.Valid() && ShortItem(item) && Continues(n0, whole, n, Prepend([item], rest))
    ensures Continues(n0, whole, Store(n, item), rest)
  {
    if rest.Flat? && Short(rest.items) {
      FoldCons(n, item, rest.items);
    }
  }

  lemma ContinuesJump(n0: Name, whole: Flat, n: Name, target: Flat, next: nat)
    requires n0.Valid() && n.Valid()
    requires Continues(n0, whole, n, if target.Flat? then Flat([Jump] + target.items, next) else target)
    ensures target.Flat? ==> ReadOf(whole) == Next(next)
    ensures !target.Flat? ==> ReadOf(whole) == ReadOf(target)
    ensures target.Flat? && Short(target.items) ==>
      Short(whole.items) && Fold(n0, whole.items) == Fold(Store(n, Jump), target.items)
  {
    if target.Flat? && Short(target.items) {
      FoldCons(n, Jump, target.items);
    }
  }
}
