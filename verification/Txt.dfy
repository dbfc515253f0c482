/** TXT records: the decoder for their data, and its agreement with the encoder (section 6 of RFC 6763). */
module Txt {
  import opened Bytes
  import opened RecordWriter

  datatype Value = Absent | Present(bytes: seq<byte>)

  /** An item of a search result; an empty value is given as an absent one. */
  datatype Item = Item(key: seq<byte>, value: Value)

  // ---------------------------------------------------------------------------------------------------------
  // The decoder

  /** The number of strings, or -1 if the last one is cut off. */
  function CountFrom(d: seq<byte>, i: nat): int
    decreases |d| - i
  {
    if i >= |d| || d[i] == 0 then 0
    else if i + 1 + d[i] > |d| then -1
    else
      var n := CountFrom(d, i + 1 + d[i]);
      if n < 0 then -1 else n + 1
  }

  function Count(d: seq<byte>): int {
    if |d| == 1 then 0 else CountFrom(d, 0)
  }

  /** The length of the key: up to the first equals sign, or all of it; -1 if there is none. */
  function NameLength(part: seq<byte>): (n: int)
    requires part != []
    ensures n == -1 <==> part[0] == EQUALS
    ensures n != -1 ==> 0 < n <= |part| && EQUALS !in part[..n] && (n < |part| ==> part[n] == EQUALS)
  {
    if part[0] == EQUALS then -1 else FirstEquals(part, 0)
  }

  function FirstEquals(part: seq<byte>, i: nat): (n: nat)
    requires i <= |part| && EQUALS !in part[..i]
    ensures i <= n <= |part| && EQUALS !in part[..n] && (n < |part| ==> part[n] == EQUALS)
    decreases |part| - i
  {
    if i == |part| || part[i] == EQUALS then i
    else
      assert part[..i + 1] == part[..i] + [part[i]];
      FirstEquals(part, i + 1)
  }

  datatype Items = Items(items: seq<Item>) | Failed

  function Then(item: Item, rest: Items): Items {
    if rest.Items? then Items([item] + rest.items) else Failed
  }

  function ItemOf(part: seq<byte>, n: nat): Item
    requires n <= |part|
  {
    Item(part[..n], if |part| > n + 1 then Present(part[n + 1..]) else Absent)
  }

  /** The items from `i` on. Behind a string without an equals sign one byte too many is passed over. */
  function ItemsFrom(d: seq<byte>, i: nat): Items
    decreases |d| - i
  {
    if i >= |d| || d[i] == 0 then Items([])
    else
      var end := i + 1 + d[i];
      if end > |d| then Failed
      else
        var part := d[i + 1..end];
        var n := NameLength(part);
        if n < 0 then ItemsFrom(d, end)
        else Then(ItemOf(part, n), ItemsFrom(d, if n == |part| then end + 1 else end))
  }

  function Decode(d: seq<byte>): seq<Item> {
    if Count(d) <= 0 then []
    else
      var r := ItemsFrom(d, 0);
      if r.Items? then r.items else []
  }

  method ItemsCount(d: seq<byte>) returns (n: int)
    ensures n == Count(d)
  {
    if |d| == 1 {
      return 0;
    }
    n := 0;
    var i: nat := 0;
    while i < |d|
      invariant n >= 0
      invariant Count(d) == if CountFrom(d, i) < 0 then -1 else n + CountFrom(d, i)
      decreases |d| - i
    {
      var partLen := d[i];
      if partLen == 0 {
        return;
      }
      if i + 1 + partLen > |d| {
        return -1;
      }
      i := i + 1 + partLen;
      n := n + 1;
    }
  }

  method ItemNameLength(part: seq<byte>) returns (n: int)
    requires part != []
    ensures n == NameLength(part)
  {
    if part[0] == EQUALS {
      return -1;
    }
    n := 0;
    while n < |part| && part[n] != EQUALS
      invariant 0 <= n <= |part| && EQUALS !in part[..n] && FirstEquals(part, n) == FirstEquals(part, 0)
    {
      assert part[..n + 1] == part[..n] + [part[n]];
      n := n + 1;
    }
  }

  /** What is left to do after some items: the rest of them, or a failure that drops them all. */
  function Joined(done: seq<Item>, rest: Items): Items {
    if rest.Items? then Items(done + rest.items) else Failed
  }

  lemma JoinedThen(done: seq<Item>, item: Item, rest: Items)
    ensures Joined(done, Then(item, rest)) == Joined(done + [item], rest)
  {
    if rest.Items? {
      assert done + ([item] + rest.items) == done + [item] + rest.items;
    }
  }

  method ReadItems(d: seq<byte>) returns (r: Items)
    ensures r == ItemsFrom(d, 0)
  {
    var i: nat := 0;
    var txt: seq<Item> := [];
    while i < |d|
      invariant Joined(txt, ItemsFrom(d, i)) == ItemsFrom(d, 0)
      decreases |d| - i
    {
      if d[i] == 0 {
        break;
      }
      var end := i + 1 + d[i];
      if end > |d| {
        return Failed;
      }
      var part := d[i + 1..end];
      var n := ItemNameLength(part);
      if n < 0 {
        i := end;
      } else {
        var next := if n == |part| then end + 1 else end;
        JoinedThen(txt, ItemOf(part, n), ItemsFrom(d, next));
        txt, i := txt + [ItemOf(part, n)], next;
      }
    }
    return Items(txt);
  }

  method CreateTxtResult(d: seq<byte>) returns (items: seq<Item>)
    ensures items == Decode(d)
  {
    var n := ItemsCount(d);
    if n <= 0 {
      return [];
    }
    var r := ReadItems(d);
    return if r.Items? then r.items else [];
  }

  // ---------------------------------------------------------------------------------------------------------
  // Round trip

  /** A key that is not empty and has no equals sign, and a string that a length byte can describe. */
  predicate Clean(item: TxtItem) {
    item.key != [] && EQUALS !in item.key && |TxtString(item)| < 256
  }

  predicate AllClean(items: seq<TxtItem>) {
    forall k :: 0 <= k < |items| ==> Clean(items[k])
  }

  function Shown(item: TxtItem): Item {
    Item(item.key, if item.value == [] then Absent else Present(item.value))
  }

  function ShownAll(items: seq<TxtItem>): (r: seq<Item>)
    ensures |r| == |items| && forall k :: 0 <= k < |items| ==> r[k] == Shown(items[k])
  {
    seq(|items|, k requires 0 <= k < |items| => Shown(items[k]))
  }

  /** What the decoder makes of the string of an item: nothing, or the item that the first equals sign gives. */
  function Seen(item: TxtItem): (r: seq<Item>)
    ensures |r| <= 1
  {
    var s := TxtString(item);
    var n := NameLength(s);
    if n < 0 then [] else [ItemOf(s, n)]
  }

  function SeenAll(items: seq<TxtItem>): (r: seq<Item>)
    ensures |r| <= |items|
  {
    if items == [] then [] else Seen(items[0]) + SeenAll(items[1..])
  }

  /** A string has an equals sign, so the decoder passes over exactly its bytes. */
  lemma HasEquals(item: TxtItem)
    ensures NameLength(TxtString(item)) < |TxtString(item)|
  {
    assert TxtString(item)[|item.key|] == EQUALS;
  }

  /** An item is seen as it was meant if and only if its key is not empty and has no equals sign. */
  lemma SeenExact(item: TxtItem)
    requires |TxtString(item)| < 256
    ensures Seen(item) == [Shown(item)] <==> Clean(item)
  {
    var s, k := TxtString(item), |item.key|;
    var n := NameLength(s);
    assert s[k] == EQUALS && s[..k] == item.key && s[k + 1..] == item.value;
    if Clean(item) {
      assert s[0] == item.key[0];
      assert forall j :: 0 <= j < k ==> s[j] == item.key[j];
    } else if n >= 0 {
      assert item.key != [];
      var j :| 0 <= j < k && item.key[j] == EQUALS;
      assert s[j] == EQUALS && n <= j;
    }
  }

  predicate AllShort(items: seq<TxtItem>) {
    forall k :: 0 <= k < |items| ==> |TxtString(items[k])| < 256
  }

  lemma ShortTail(items: seq<TxtItem>)
    requires AllShort(items) && items != []
    ensures |TxtString(items[0])| < 256 && AllShort(items[1..])
  {
    assert forall k :: 0 <= k < |items[1..]| ==> items[1..][k] == items[k + 1];
  }

  lemma ShownCons(items: seq<TxtItem>)
    requires items != []
    ensures ShownAll(items) == [Shown(items[0])] + ShownAll(items[1..])
    ensures AllClean(items) <==> Clean(items[0]) && AllClean(items[1..])
  {
    assert forall k :: 0 <= k < |items[1..]| ==> items[1..][k] == items[k + 1];
    assert AllClean(items) ==> Clean(items[0]);
    forall k | 0 < k < |items| && AllClean(items[1..])
      ensures Clean(items[k])
    {
      assert items[k] == items[1..][k - 1];
    }
  }

  lemma {:induction false} SeenAllExact(items: seq<TxtItem>)
    requires AllShort(items)
    ensures SeenAll(items) == ShownAll(items) <==> AllClean(items)
  {
    if items == [] {
    } else {
      ShortTail(items);
      ShownCons(items);
      SeenExact(items[0]);
      SeenAllExact(items[1..]);
      var seen, rest := Seen(items[0]), SeenAll(items[1..]);
      if SeenAll(items) == ShownAll(items) {
        assert |seen| == 1;
        assert (seen + rest)[0] == Shown(items[0]) && (seen + rest)[1..] == ShownAll(items[1..]);
        assert seen == [Shown(items[0])];
      }
    }
  }

  lemma StringFirst(d: seq<byte>, i: nat, s: seq<byte>, rest: seq<byte>)
    requires i <= |d| && |s| < 256 && d[i..] == CharacterString(s) + rest
    ensures i + 1 + |s| <= |d| && d[i] == |s| && d[i + 1..i + 1 + |s|] == s && d[i + 1 + |s|..] == rest
  {
    var t := d[i..];
    assert CharacterString(s) == [|s|] + s;
    assert t[0] == |s| && t[1..1 + |s|] == s && t[1 + |s|..] == rest;
  }

  /** The string of `item` stands from `i` to `end`. */
  predicate StringAt(d: seq<byte>, i: nat, item: TxtItem, end: nat) {
    end == i + 1 + |TxtString(item)| <= |d| && d[i] == |TxtString(item)| && d[i + 1..end] == TxtString(item)
  }

  lemma FirstString(d: seq<byte>, i: nat, items: seq<TxtItem>) returns (end: nat)
    requires AllShort(items) && items != [] && i <= |d| && d[i..] == TxtStrings(items)
    ensures StringAt(d, i, items[0], end) && d[end..] == TxtStrings(items[1..]) && AllShort(items[1..])
  {
    ShortTail(items);
    var s := TxtString(items[0]);
    StringFirst(d, i, s, TxtStrings(items[1..]));
    end := i + 1 + |s|;
  }

  /** One string is read, and the others after it. */
  lemma StringStep(d: seq<byte>, i: nat, end: nat, item: TxtItem, rest: Items, count: nat)
    requires StringAt(d, i, item, end) && ItemsFrom(d, end) == rest && rest.Items? && CountFrom(d, end) == count
    ensures ItemsFrom(d, i) == Items(Seen(item) + rest.items) && CountFrom(d, i) == count + 1
  {
    assert |TxtString(item)| > 0;
    HasEquals(item);
    assert [] + rest.items == rest.items;
  }

  lemma {:induction false} StringsRead(d: seq<byte>, i: nat, items: seq<TxtItem>)
    requires AllShort(items) && i <= |d| && d[i..] == TxtStrings(items)
    ensures ItemsFrom(d, i) == Items(SeenAll(items)) && CountFrom(d, i) == |items|
    decreases |items|
  {
    if items == [] {
    } else {
      var end := FirstString(d, i, items);
      StringsRead(d, end, items[1..]);
      StringStep(d, i, end, items[0], Items(SeenAll(items[1..])), |items| - 1);
    }
  }

  /** What the decoder makes of the data of a TXT record. */
  lemma TextSeen(items: seq<TxtItem>)
    requires AllShort(items)
    ensures Decode(TxtData(items)) == SeenAll(items)
  {
    if items == [] {
      assert Count(TxtData(items)) == 0;
    } else {
      var d := TxtData(items);
      assert d[0..] == TxtStrings(items);
      StringsRead(d, 0, items);
      TextLong(items);
    }
  }

  lemma TextLong(items: seq<TxtItem>)
    requires items != [] && AllShort(items)
    ensures |TxtData(items)| > 1
  {
    ShortTail(items);
    assert |CharacterString(TxtString(items[0]))| > 1;
  }

  /** Parsing the data of a TXT record gives the items back, in order, with empty values as absent ones. */
  lemma TxtRoundTrip(items: seq<TxtItem>)
    requires AllClean(items)
    ensures Decode(TxtData(items)) == ShownAll(items)
  {
    TextSeen(items);
    SeenAllExact(items);
  }

  /** It gives them back if and only if every key is not empty and has no equals sign. */
  lemma TextExact(items: seq<TxtItem>)
    requires AllShort(items)
    ensures Decode(TxtData(items)) == ShownAll(items) <==> AllClean(items)
  {
    TextSeen(items);
    SeenAllExact(items);
  }

  // ---------------------------------------------------------------------------------------------------------
  // A new service

  function Backwards<T>(s: seq<T>): seq<T> {
    if s == [] then [] else Backwards(s[1..]) + [s[0]]
  }

  /** The list of a new service: each item of the caller's array is put in front. */
  method AllocateTxt(txt: seq<TxtItem>) returns (list: seq<TxtItem>)
    ensures list == Backwards(txt)
  {
    list := [];
    for i := 0 to |txt|
      invariant Backwards(txt[i..]) + list == Backwards(txt)
    {
      assert txt[i..][1..] == txt[i + 1..];
      ghost var before := list;
      list := [txt[i]] + list;
      assert Backwards(txt[i + 1..]) + list == Backwards(txt[i..]) + before;
    }
  }

  lemma {:induction false} BackwardsShown(txt: seq<TxtItem>)
    requires AllClean(txt)
    ensures ShownAll(Backwards(txt)) == Backwards(ShownAll(txt)) && AllClean(Backwards(txt))
  {
    if txt == [] {
    } else {
      assert forall k :: 0 <= k < |txt[1..]| ==> txt[1..][k] == txt[k + 1];
      assert ShownAll(txt)[1..] == ShownAll(txt[1..]);
      BackwardsShown(txt[1..]);
      assert Clean(txt[0]);
      assert ShownAll(Backwards(txt)) == ShownAll(Backwards(txt[1..])) + [Shown(txt[0])];
    }
  }

  /** What others see of a new service is the caller's array backwards. */
  lemma NewServiceTxt(txt: seq<TxtItem>)
    requires AllClean(txt)
    ensures Decode(TxtData(Backwards(txt))) == Backwards(ShownAll(txt))
  {
    BackwardsShown(txt);
    TxtRoundTrip(Backwards(txt));
  }
}
