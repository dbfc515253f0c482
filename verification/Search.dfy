/** The search for an earlier occurrence of a name: which place it takes, and where it gives up. */
module Search {
  import opened Bytes
  import opened Names
  import opened RoundTrip
  import opened Pointers

  /** A length as a single byte holds it. */
  predicate IsLength(len: nat, s: seq<int>) {
    len <= |s| && (|s| < 256 ==> len == |s|)
  }

  lemma LengthByte(s: seq<int>)
    ensures IsLength(|s| % 256, s)
  {
  }

  /** The name stands at `o`, its first label byte for byte and its parts up to case. */
  predicate Occurs(p: seq<int>, o: nat, strings: seq<seq<int>>) {
    Flatten(p, o, o).Flat? && Matches(Flatten(p, o, o).items, strings)
  }

  lemma FirstItem(p: seq<int>, o: nat, strings: seq<seq<int>>)
    requires o < |p| && strings != []
    ensures Occurs(p, o, strings) ==>
      p[o] == |strings[0]| % 256 == |strings[0]| && o + 1 + p[o] <= |p| && p[o + 1..o + 1 + p[o]] == strings[0]
  {
    if Occurs(p, o, strings) {
      assert Flatten(p, o, o).items[0].Label?;
    }
  }

  /** A name with more parts than the decoder has room for stands there. */
  predicate Overfull(p: seq<int>, o: nat) {
    && Flatten(p, o, o).Flat? && Short(Flatten(p, o, o).items)
    && Fold(Fresh(false), Flatten(p, o, o).items).invalid
  }

  lemma SaysSame(p: seq<int>, at: nat, strings: seq<seq<int>>, n: Name)
    requires strings != [] && WellFormedLabel(strings[0]) && Flatten(p, at, at).Flat? && Short(Flatten(p, at, at).items)
    requires n == Fold(Fresh(false), Flatten(p, at, at).items)
    requires at < |p| && p[at] == |strings[0]| && at + 1 + p[at] <= |p| && p[at + 1..at + 1 + p[at]] == strings[0]
    requires n.parts == |strings| && forall k :: 0 <= k < |strings| ==> CiEq(strings[k], n.slots[k])
    ensures Occurs(p, at, strings)
  {
    assert Flatten(p, at, at).items[0] == Label(strings[0]);
  }

  lemma SaysDifferent(p: seq<int>, at: nat, strings: seq<seq<int>>, n: Name)
    requires Flatten(p, at, at).Flat? && Short(Flatten(p, at, at).items)
    requires n == Fold(Fresh(false), Flatten(p, at, at).items)
    requires !(n.parts == |strings| && forall k :: 0 <= k < |strings| ==> CiEq(strings[k], n.slots[k]))
    ensures !Occurs(p, at, strings)
  {
  }

  /** What the comparison of a decoded candidate says: with the flag raised nothing is ever the same. */
  lemma Judged(p: seq<int>, at: nat, strings: seq<seq<int>>, invalid: bool, n: Name, same: bool)
    requires strings != [] && Starts(p, at, strings[0]) && Flatten(p, at, at).Flat? && Short(Flatten(p, at, at).items)
    requires n == Fold(Fresh(invalid), Flatten(p, at, at).items)
    requires same <==> n.parts == |strings| && forall k :: 0 <= k < |strings| ==> CiEq(strings[k], n.slots[k])
    ensures n.invalid <==> invalid || Overfull(p, at)
    ensures WellFormedLabel(strings[0]) ==> (same <==> !invalid && Occurs(p, at, strings))
  {
    InvalidStays(Fresh(invalid), Flatten(p, at, at).items);
    if invalid {
      InvalidStoresNothing(Fresh(true), Flatten(p, at, at).items);
    } else if !same {
      SaysDifferent(p, at, strings, n);
    } else if WellFormedLabel(strings[0]) {
      assert strings[0][..|strings[0]|] == strings[0];
      SaysSame(p, at, strings, n);
    }
  }

  lemma {:induction false} InvalidStays(n: Name, items: seq<Item>)
    requires n.Valid() && Short(items)
    ensures n.invalid ==> Fold(n, items).invalid
    decreases |items|
  {
    if items == [] {
    } else {
      InvalidStays(Store(n, items[0]), items[1..]);
    }
  }

  lemma {:induction false} InvalidStoresNothing(n: Name, items: seq<Item>)
    requires n.Valid() && n.invalid && n.parts == 0 && Short(items)
    ensures Fold(n, items).parts == 0
    decreases |items|
  {
    if items == [] {
    } else {
      InvalidStoresNothing(Store(n, items[0]), items[1..]);
    }
  }

  // ---------------------------------------------------------------------------------------------------------
  // Places

  /** The length of the label, in a byte, and its text stand at `o`. */
  predicate Starts(p: seq<int>, o: nat, s: seq<int>) {
    && o < |p| && p[o] == |s| % 256 && o + 1 + |s| % 256 <= |p|
    && p[o + 1..o + 1 + |s| % 256] == s[..|s| % 256]
  }

  /** The search gives up at `o`: the label would pass the end of the buffer, or stands there and cannot be read on. */
  predicate Stops(p: seq<int>, o: nat, s: seq<int>) {
    && o < |p| && p[o] == |s| % 256
    && (o + 1 + |s| % 256 > |p| || (Starts(p, o, s) && !Flatten(p, o, o).Flat?))
  }

  /** At `o` the search raises its flag, and with it raised it takes nothing any more. */
  predicate Muddles(p: seq<int>, o: nat, s: seq<int>) {
    Starts(p, o, s) && Overfull(p, o)
  }

  /** The search would take `o` if it came there; `flag` is what the flag was at the beginning. */
  predicate Hits(p: seq<int>, o: nat, strings: seq<seq<int>>, flag: bool)
    requires strings != []
  {
    Occurs(p, o, strings) && !flag && forall x :: 0 <= x < o ==> !Muddles(p, x, strings[0])
  }

  /** The search comes to `end`. */
  predicate Clear(p: seq<int>, end: nat, strings: seq<seq<int>>, flag: bool)
    requires strings != []
  {
    forall x :: 0 <= x < end ==> !Stops(p, x, strings[0]) && !Hits(p, x, strings, flag)
  }

  // ---------------------------------------------------------------------------------------------------------
  // The search

  datatype Found = Hit(at: nat) | Stop(at: nat) | Missing

  function Find(p: seq<int>, i: nat, end: nat, strings: seq<seq<int>>, flag: bool): Found
    requires strings != [] && i <= end
    decreases end - i
  {
    if i == end then Missing
    else if Stops(p, i, strings[0]) then Stop(i)
    else if !flag && Occurs(p, i, strings) then Hit(i)
    else Find(p, i + 1, end, strings, flag || Muddles(p, i, strings[0]))
  }

  /** What the search comes to, in terms of places. */
  predicate Outcome(f: Found, p: seq<int>, end: nat, strings: seq<seq<int>>, flag: bool)
    requires strings != []
  {
    match f
    case Hit(o) => o < end && Hits(p, o, strings, flag) && Clear(p, o, strings, flag)
    case Stop(o) => o < end && Stops(p, o, strings[0]) && Clear(p, o, strings, flag)
    case Missing => Clear(p, end, strings, flag)
  }

  /** There is a place to give up at, and nothing before it to take. */
  predicate GivesUp(p: seq<int>, end: nat, strings: seq<seq<int>>, flag: bool)
    requires strings != []
  {
    exists o :: 0 <= o < end && Stops(p, o, strings[0]) && Clear(p, o, strings, flag)
  }

  predicate MuddledBefore(p: seq<int>, end: nat, s: seq<int>) {
    exists x :: 0 <= x < end && Muddles(p, x, s)
  }

  lemma MuddledNext(p: seq<int>, end: nat, s: seq<int>)
    ensures MuddledBefore(p, end + 1, s) <==> MuddledBefore(p, end, s) || Muddles(p, end, s)
  {
    assert Muddles(p, end, s) ==> MuddledBefore(p, end + 1, s);
  }

  /** What the search comes to from a place on, with the flag as it is there, is what it comes to in all. */
  function FromIn(strings: seq<seq<int>>, flag: bool, now: bool): (seq<int>, nat, nat) -> bool
    requires strings != []
  {
    (p: seq<int>, i: nat, end: nat) => i <= end ==> Outcome(Find(p, i, end, strings, now), p, end, strings, flag)
  }

  /** A place that is taken, or given up at. */
  lemma TakenHere(p: seq<int>, i: nat, end: nat, strings: seq<seq<int>>, flag: bool, now: bool)
    requires strings != [] && i < end && Clear(p, i, strings, flag)
    requires now <==> flag || MuddledBefore(p, i, strings[0])
    requires Stops(p, i, strings[0]) || (!now && Occurs(p, i, strings))
    ensures FromIn(strings, flag, now)(p, i, end)
  {
  }

  /** A place that is passed over. */
  lemma PassedClear(p: seq<int>, i: nat, strings: seq<seq<int>>, flag: bool, now: bool)
    requires strings != [] && Clear(p, i, strings, flag) && !Stops(p, i, strings[0])
    requires now <==> flag || MuddledBefore(p, i, strings[0])
    requires !(!now && Occurs(p, i, strings))
    ensures Clear(p, i + 1, strings, flag)
  {
    assert !Hits(p, i, strings, flag);
  }

  lemma PassedFrom(p: seq<int>, i: nat, end: nat, strings: seq<seq<int>>, flag: bool, now: bool, later: bool)
    requires strings != [] && i < end && !Stops(p, i, strings[0]) && !(!now && Occurs(p, i, strings))
    requires later == (now || Muddles(p, i, strings[0])) && FromIn(strings, flag, later)(p, i + 1, end)
    ensures FromIn(strings, flag, now)(p, i, end)
  {
  }

  lemma {:induction false} FindFrom(p: seq<int>, i: nat, end: nat, strings: seq<seq<int>>, flag: bool, now: bool)
    requires strings != [] && i <= end && Clear(p, i, strings, flag)
    requires now <==> flag || MuddledBefore(p, i, strings[0])
    ensures FromIn(strings, flag, now)(p, i, end)
    decreases end - i
  {
    if i == end {
    } else if Stops(p, i, strings[0]) || (!now && Occurs(p, i, strings)) {
      TakenHere(p, i, end, strings, flag, now);
    } else {
      var later := now || Muddles(p, i, strings[0]);
      PassedClear(p, i, strings, flag, now);
      MuddledNext(p, i, strings[0]);
      FindFrom(p, i + 1, end, strings, flag, later);
      PassedFrom(p, i, end, strings, flag, now, later);
    }
  }

  lemma HitOrStop(p: seq<int>, o: nat, strings: seq<seq<int>>)
    requires strings != [] && Occurs(p, o, strings)
    ensures !Stops(p, o, strings[0])
  {
    if o < |p| {
      FirstItem(p, o, strings);
    }
  }

  /**
   * The search gives up if and only if there is a place to give up at and nothing before it to take; it finds a place
   * if and only if there is one to take and nothing before it to give up at.
   */
  lemma FindExact(p: seq<int>, end: nat, strings: seq<seq<int>>, flag: bool)
    requires strings != []
    ensures Outcome(Find(p, 0, end, strings, flag), p, end, strings, flag)
    ensures Find(p, 0, end, strings, flag).Stop? <==> GivesUp(p, end, strings, flag)
    ensures Find(p, 0, end, strings, flag).Missing? <==> Clear(p, end, strings, flag)
    ensures forall o: nat :: Find(p, 0, end, strings, flag) == Hit(o) <==>
      o < end && Hits(p, o, strings, flag) && Clear(p, o, strings, flag)
  {
    FindFrom(p, 0, end, strings, flag, flag);
    var f := Find(p, 0, end, strings, flag);
    forall o: nat
      ensures f == Hit(o) <==> o < end && Hits(p, o, strings, flag) && Clear(p, o, strings, flag)
    {
      if o < end && Hits(p, o, strings, flag) && Clear(p, o, strings, flag) {
        HitOrStop(p, o, strings);
        OneOutcome(f, Hit(o), p, end, strings, flag);
      }
    }
    forall o: nat | o < end && Stops(p, o, strings[0]) && Clear(p, o, strings, flag)
      ensures f.Stop?
    {
      OneOutcome(f, Stop(o), p, end, strings, flag);
    }
  }

  /** The same without the place. */
  lemma FindDecides(p: seq<int>, end: nat, strings: seq<seq<int>>, flag: bool)
    requires strings != []
    ensures SearchFor(strings, flag)(p, end).Stop? <==> GivesUpIn(strings, flag)(p, end)
    ensures SearchFor(strings, flag)(p, end).Missing? <==> ClearIn(strings, flag)(p, end)
  {
    FindExact(p, end, strings, flag);
  }

  lemma OneOutcome(f: Found, g: Found, p: seq<int>, end: nat, strings: seq<seq<int>>, flag: bool)
    requires strings != [] && Outcome(f, p, end, strings, flag) && Outcome(g, p, end, strings, flag)
    ensures f == g
  {
    if f.Hit? && g.Stop? && f.at == g.at {
      HitOrStop(p, f.at, strings);
    }
    if f.Stop? && g.Hit? && f.at == g.at {
      HitOrStop(p, f.at, strings);
    }
  }

  /** One turn of the search. */
  lemma FindHere(p: seq<int>, i: nat, end: nat, strings: seq<seq<int>>, flag: bool)
    requires strings != [] && i < end
    ensures Stops(p, i, strings[0]) ==> SearchFrom(strings, flag)(p, i, end) == Stop(i)
    ensures !flag && Occurs(p, i, strings) ==> SearchFrom(strings, flag)(p, i, end) == Hit(i)
    ensures !Stops(p, i, strings[0]) && !(!flag && Occurs(p, i, strings)) ==>
      SearchFrom(strings, flag)(p, i, end) == SearchFrom(strings, flag || Muddles(p, i, strings[0]))(p, i + 1, end)
  {
    if Occurs(p, i, strings) {
      HitOrStop(p, i, strings);
    }
  }

  lemma SearchEnds(p: seq<int>, end: nat, strings: seq<seq<int>>, flag: bool)
    requires strings != []
    ensures SearchFrom(strings, flag)(p, end, end) == Missing
    ensures SearchFrom(strings, flag)(p, 0, end) == SearchFor(strings, flag)(p, end)
  {
  }

  lemma OccursStarts(p: seq<int>, o: nat, strings: seq<seq<int>>)
    requires o < |p| && strings != [] && Occurs(p, o, strings)
    ensures Starts(p, o, strings[0])
  {
    FirstItem(p, o, strings);
    assert strings[0][..|strings[0]|] == strings[0];
  }

  /** Where the label does not stand there is nothing to take. */
  lemma NoStart(p: seq<int>, end: nat, strings: seq<seq<int>>, flag: bool)
    requires strings != [] && end <= |p| && forall o :: 0 <= o < end ==> !Starts(p, o, strings[0])
    ensures !SearchFor(strings, flag)(p, end).Hit?
  {
    FindExact(p, end, strings, flag);
    var f := Find(p, 0, end, strings, flag);
    if f.Hit? {
      OccursStarts(p, f.at, strings);
    }
  }

  lemma NeverStops(p: seq<int>, end: nat, strings: seq<seq<int>>, flag: bool)
    requires strings != [] && forall o :: 0 <= o < end ==> !Stops(p, o, strings[0])
    ensures !Find(p, 0, end, strings, flag).Stop?
  {
    FindExact(p, end, strings, flag);
  }

  /** Places that do not hold the length of the label are passed over. */
  lemma SearchSkips(p: seq<int>, i: nat, at: nat, end: nat, strings: seq<seq<int>>, flag: bool)
    requires strings != [] && i <= at <= end <= |p| && forall k :: i <= k < at ==> p[k] != |strings[0]| % 256
    ensures SearchFrom(strings, flag)(p, i, end) == SearchFrom(strings, flag)(p, at, end)
  {
    FindSkips(p, i, at, end, strings, flag);
  }

  lemma {:induction false} FindSkips(p: seq<int>, i: nat, at: nat, end: nat, strings: seq<seq<int>>, flag: bool)
    requires strings != [] && i <= at <= end <= |p| && forall k :: i <= k < at ==> p[k] != |strings[0]| % 256
    ensures Find(p, i, end, strings, flag) == Find(p, at, end, strings, flag)
    decreases at - i
  {
    if i == at {
    } else {
      assert p[i] != |strings[0]| % 256;
      FirstItem(p, i, strings);
      FindSkips(p, i + 1, at, end, strings, flag);
    }
  }

  /** The whole search, as a function of the buffer and of the length of the written part. */
  function SearchFor(strings: seq<seq<int>>, flag: bool): (seq<int>, nat) -> Found
    requires strings != []
  {
    (p: seq<int>, end: nat) => Find(p, 0, end, strings, flag)
  }

  /** The search from a place on that it has come to. */
  function SearchFrom(strings: seq<seq<int>>, flag: bool): (seq<int>, nat, nat) -> Found
    requires strings != []
  {
    (p: seq<int>, i: nat, end: nat) => if i <= end then Find(p, i, end, strings, flag) else Missing
  }

  function GivesUpIn(strings: seq<seq<int>>, flag: bool): (seq<int>, nat) -> bool
    requires strings != []
  {
    (p: seq<int>, end: nat) => GivesUp(p, end, strings, flag)
  }

  function ClearIn(strings: seq<seq<int>>, flag: bool): (seq<int>, nat) -> bool
    requires strings != []
  {
    (p: seq<int>, end: nat) => Clear(p, end, strings, flag)
  }

  // ---------------------------------------------------------------------------------------------------------
  // What the encoder makes of a name

  datatype Encoding = Coded(bytes: seq<int>) | Dropped

  /** Some bytes in the buffer. */
  function Overlay(p: seq<int>, i: nat, s: seq<int>): (q: seq<int>)
    requires i + |s| <= |p|
    ensures |q| == |p| && forall k :: 0 <= k < |p| ==> q[k] == if i <= k < i + |s| then s[k - i] else p[k]
  {
    seq(|p|, k requires 0 <= k < |p| => if i <= k < i + |s| then s[k - i] else p[k])
  }

  function Behind(s: seq<int>, e: Encoding): Encoding {
    if e.Coded? then Coded(s + e.bytes) else Dropped
  }

  function Top(stack: seq<bool>): bool {
    stack != [] && stack[0]
  }

  function Pop(stack: seq<bool>): seq<bool> {
    if stack == [] then [] else stack[1..]
  }

  /**
   * A name behind the first `i` bytes of the buffer, with room for it. `stack` are the values that the flags of the
   * searches, one for each label, have at the beginning.
   */
  function Encode(p: seq<int>, i: nat, strings: seq<seq<byte>>, stack: seq<bool>): Encoding
    decreases |strings|
  {
    if strings == [] then Coded([0])
    else
      match SearchFor(strings, Top(stack))(p, i)
      case Stop(_) => Dropped
      case Hit(o) => Coded(PointerBytes(o))
      case Missing =>
        var s := CharacterString(strings[0]);
        if i + |s| > |p| then Dropped
        else Behind(s, Encode(Overlay(p, i, s), i + |s|, strings[1..], Pop(stack)))
  }

  /**
   * There is room, and still the name is dropped: for one of its labels, with those before it written out, the search
   * comes to a place where it gives up, and not before to one that it takes.
   */
  predicate Drops(p: seq<int>, i: nat, strings: seq<seq<byte>>, stack: seq<bool>)
    decreases |strings|
  {
    && strings != []
    && var s := CharacterString(strings[0]);
    || GivesUpIn(strings, Top(stack))(p, i)
    || (ClearIn(strings, Top(stack))(p, i)
        && (i + |s| > |p| || Drops(Overlay(p, i, s), i + |s|, strings[1..], Pop(stack))))
  }

  /** The same as functions of the buffer and of the place in it. */
  function DroppedIn(strings: seq<seq<byte>>, stack: seq<bool>): (seq<int>, nat) -> bool {
    (p: seq<int>, i: nat) => Encode(p, i, strings, stack).Dropped?
  }

  function DropsIn(strings: seq<seq<byte>>, stack: seq<bool>): (seq<int>, nat) -> bool {
    (p: seq<int>, i: nat) => Drops(p, i, strings, stack)
  }

  lemma EncodeFirst(p: seq<int>, i: nat, strings: seq<seq<byte>>, stack: seq<bool>, s: seq<byte>)
    requires strings != [] && s == CharacterString(strings[0])
    ensures DroppedIn(strings, stack)(p, i) <==>
      || SearchFor(strings, Top(stack))(p, i).Stop?
      || (SearchFor(strings, Top(stack))(p, i).Missing?
          && (i + |s| > |p| || DroppedIn(strings[1..], Pop(stack))(Overlay(p, i, s), i + |s|)))
  {
  }

  lemma DropsFirst(p: seq<int>, i: nat, strings: seq<seq<byte>>, stack: seq<bool>, s: seq<byte>)
    requires strings != [] && s == CharacterString(strings[0])
    ensures DropsIn(strings, stack)(p, i) <==>
      || GivesUpIn(strings, Top(stack))(p, i)
      || (ClearIn(strings, Top(stack))(p, i)
          && (i + |s| > |p| || DropsIn(strings[1..], Pop(stack))(Overlay(p, i, s), i + |s|)))
  {
  }

  ghost predicate AllSame(strings: seq<seq<byte>>, stack: seq<bool>) {
    forall p: seq<int>, i: nat :: DroppedIn(strings, stack)(p, i) == DropsIn(strings, stack)(p, i)
  }

  lemma SameFirst(p: seq<int>, i: nat, strings: seq<seq<byte>>, stack: seq<bool>, s: seq<byte>)
    requires strings != [] && s == CharacterString(strings[0])
    requires i + |s| <= |p| ==>
      var q := Overlay(p, i, s);
      DroppedIn(strings[1..], Pop(stack))(q, i + |s|) == DropsIn(strings[1..], Pop(stack))(q, i + |s|)
    ensures DroppedIn(strings, stack)(p, i) == DropsIn(strings, stack)(p, i)
  {
    EncodeFirst(p, i, strings, stack, s);
    DropsFirst(p, i, strings, stack, s);
    FindDecides(p, i, strings, Top(stack));
  }

  lemma AllSameFirst(strings: seq<seq<byte>>, stack: seq<bool>)
    requires strings != [] && AllSame(strings[1..], Pop(stack))
    ensures AllSame(strings, stack)
  {
    forall p: seq<int>, i: nat
      ensures DroppedIn(strings, stack)(p, i) == DropsIn(strings, stack)(p, i)
    {
      SameFirst(p, i, strings, stack, CharacterString(strings[0]));
    }
  }

  lemma {:induction false} DropsFrom(strings: seq<seq<byte>>, stack: seq<bool>)
    ensures AllSame(strings, stack)
    decreases |strings|
  {
    if strings == [] {
    } else {
      DropsFrom(strings[1..], Pop(stack));
      AllSameFirst(strings, stack);
    }
  }

  lemma DropsExact(p: seq<int>, i: nat, strings: seq<seq<byte>>, stack: seq<bool>)
    ensures Encode(p, i, strings, stack).Dropped? <==> Drops(p, i, strings, stack)
  {
    DropsFrom(strings, stack);
    assert DroppedIn(strings, stack)(p, i) == DropsIn(strings, stack)(p, i);
  }
}
