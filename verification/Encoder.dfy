/** The outgoing packet buffer and the name encoder, which compresses by searching what is already written. */
module Encoder {
  import opened Bytes
  import opened Names
  import opened RoundTrip
  import opened Pointers
  import opened Tidy
  import opened Search

  const MAX_PACKET_SIZE: nat := 1460

  /** The uncompressed size of a name. */
  function WireSize(strings: seq<seq<int>>): nat {
    if strings == [] then 1 else 1 + |strings[0]| % 256 + WireSize(strings[1..])
  }

  /** A name written out. */
  function Wire(strings: seq<seq<byte>>): (r: seq<byte>)
    ensures |r| == WireSize(strings)
  {
    if strings == [] then [0] else CharacterString(strings[0]) + Wire(strings[1..])
  }

  /** A name whose size fits a single byte, also with a few bytes behind it. */
  function Brief(): seq<seq<int>> -> bool {
    (strings: seq<seq<int>>) => WireSize(strings) < 200
  }

  function LimitOf(blank: bool): nat {
    if blank then MAX_PACKET_SIZE else NEAR
  }

  predicate WellFormedLabels(strings: seq<seq<int>>) {
    forall k :: 0 <= k < |strings| ==> WellFormedLabel(strings[k])
  }

  /**
   * The static packet buffer with its write index. Bytes from `index` on are left over from earlier packets.
   *
   * `view` is the written part as later readers may rely on it, with a HOLE where a value is still to be patched.
   * `complete` says that no append has failed so far, not even one whose failure the code hides from its caller.
   * `safe` says that every pointer emitted so far had a safe target.
   * `blank` says that the buffer held nothing but zeros when the packet was begun, and has been written only so far.
   * `tidy` is noted after whole entries and values: all pointers were safe, everything in the packet that looks like a
   * label is one, and unless the buffer is blank none could seem to go on behind the end.
   */
  class Writer {
    const packet: array<byte>
    var index: nat
    ghost var blank: bool
    ghost var view: seq<int>
    ghost var complete: bool
    ghost var safe: bool
    ghost var tidy: bool

    ghost predicate Valid()
      reads this, packet
    {
      && packet.Length == MAX_PACKET_SIZE && index == |view| <= MAX_PACKET_SIZE
      && AgreesIn(view)(packet[..]) && OverIn(view)(packet[..])
      && (blank ==> ZeroIn(index)(packet[..]))
      && (tidy ==> safe && |view| >= FRONT && TidyIn(view)(blank))
    }

    /** On a buffer that is not blank, the packet is so short that a pointer is not taken for a length. */
    ghost predicate Near()
      reads this
    {
      blank || index < NEAR
    }

    /** How far a packet may reach for nothing to fail and for that. */
    ghost function Limit(): nat
      reads this
    {
      LimitOf(blank)
    }

    /** Nothing that was written has changed, and a failure is never forgotten. */
    twostate predicate Appended()
      reads this
    {
      && old(view) <= view
      && (complete ==> old(complete))
      && (safe ==> old(safe))
      && blank == old(blank)
    }

    /** Nothing has been written. */
    twostate predicate Unchanged()
      reads this
    {
      view == old(view) && index == old(index) && complete == old(complete) && safe == old(safe) && tidy == old(tidy)
    }

    /** On a condition, a packet that is tidy stays so, and its pointers stay safe. */
    twostate predicate StaysTidy(cond: bool)
      reads this
    {
      complete && old(tidy) && cond && Near() ==> tidy
    }

    /** On a condition, in a packet that is tidy, with room for `size` bytes, nothing fails and no more are written. */
    twostate predicate StaysComplete(cond: bool, size: nat)
      reads this
    {
      old(complete) && old(tidy) && cond && old(index) + size < Limit() ==> complete && index <= old(index) + size
    }

    /** Both. */
    twostate predicate Keeps(cond: bool, size: nat)
      reads this
    {
      StaysTidy(cond) && StaysComplete(cond, size)
    }

    /** Looks whether the packet is tidy. */
    ghost function Tidied(): bool
      reads this
    {
      safe && |view| >= FRONT && TidyIn(view)(blank)
    }

    constructor (stale: seq<byte>)
      requires |stale| == MAX_PACKET_SIZE
      ensures Valid() && fresh(packet) && index == 0 && complete && safe
      ensures packet[..] == stale && (blank <==> forall k :: 0 <= k < |stale| ==> stale[k] == 0)
    {
      packet := new byte[MAX_PACKET_SIZE](i requires 0 <= i < |stale| => stale[i]);
      index, view, complete, safe, tidy := 0, [], true, true, false;
      blank := forall k :: 0 <= k < |stale| ==> stale[k] == 0;
      new;
      assert packet[..] == stale;
      assert Over([], stale) && (blank ==> ZeroFrom(stale, 0));
    }

    method AppendU8(value: byte) returns (n: nat)
      requires Valid()
      modifies this, packet
      ensures Valid() && Appended() && safe == old(safe)
      ensures old(index) < MAX_PACKET_SIZE ==>
        n == 1 && view == old(view) + [value] && complete == old(complete)
        && packet[..] == Overlay(old(packet[..]), old(index), [value])
      ensures old(index) >= MAX_PACKET_SIZE ==> n == 0 && view == old(view) && !complete
    {
      if index >= MAX_PACKET_SIZE {
        complete := false;
        return 0;
      }
      ghost var before := packet[..];
      packet[index] := value;
      FilledNext(before, packet[..], view, [value]);
      index, view, tidy := index + 1, view + [value], false;
      return 1;
    }

    method AppendU16(value: nat) returns (n: nat)
      requires Valid() && value < 0x10000
      modifies this, packet
      ensures Valid() && Appended() && safe == old(safe)
      ensures old(index) + 1 < MAX_PACKET_SIZE ==>
        n == 2 && view == old(view) + [value / 256, value % 256] && complete == old(complete)
      ensures old(index) + 1 >= MAX_PACKET_SIZE ==> n == 0 && view == old(view) && !complete
    {
      if index + 1 >= MAX_PACKET_SIZE {
        complete := false;
        return 0;
      }
      ghost var before := view;
      n := AppendU8(value / 256);
      n := AppendU8(value % 256);
      assert view == before + [value / 256, value % 256];
      return 2;
    }

    method AppendU32(value: nat) returns (n: nat)
      requires Valid() && value < 0x100000000
      modifies this, packet
      ensures Valid() && Appended() && safe == old(safe)
      ensures old(index) + 3 < MAX_PACKET_SIZE ==>
        n == 4 && complete == old(complete)
        && view == old(view) + [value / 65536 / 256, value / 65536 % 256, value % 65536 / 256, value % 65536 % 256]
      ensures old(index) + 3 >= MAX_PACKET_SIZE ==> n == 0 && view == old(view) && !complete
    {
      if index + 3 >= MAX_PACKET_SIZE {
        complete := false;
        return 0;
      }
      ghost var before := view;
      n := AppendU8(value / 65536 / 256);
      n := AppendU8(value / 65536 % 256);
      n := AppendU8(value % 65536 / 256);
      n := AppendU8(value % 65536 % 256);
      assert view == before + [value / 65536 / 256, value / 65536 % 256, value % 65536 / 256, value % 65536 % 256];
      return 4;
    }

    /** Overwrites two bytes, wherever they are in the buffer. */
    method SetU16(at: nat, value: nat)
      requires Valid() && value < 0x10000
      modifies this`view, this`tidy, this`blank, packet
      ensures Valid() && blank == (old(blank) && (at + 1 < index || at + 1 >= MAX_PACKET_SIZE))
      ensures at + 1 < index ==> view == Patch(old(view), at, value)
      ensures at + 1 == index < MAX_PACKET_SIZE ==> view == old(view)[at := value / 256]
      ensures at >= index || at + 1 >= MAX_PACKET_SIZE ==> view == old(view)
      ensures packet[..] == if at + 1 < MAX_PACKET_SIZE then Patch(old(packet[..]), at, value) else old(packet[..])
    {
      if at + 1 >= MAX_PACKET_SIZE {
        return;
      }
      packet[at] := value / 256;
      packet[at + 1] := value % 256;
      if at + 1 < index {
        FilledPatch(old(packet[..]), packet[..], view, at, value);
        view, tidy := Patch(view, at, value), false;
      } else {
        blank, tidy := false, false;
        if at + 1 == index {
          view := view[at := value / 256];
        }
      }
    }

    /** memcpy of some bytes to the end of the packet. */
    method Copy(bytes: seq<byte>)
      requires Valid() && index + |bytes| <= MAX_PACKET_SIZE
      modifies this`index, this`view, this`tidy, packet
      ensures Valid() && view == old(view) + bytes && packet[..] == Overlay(old(packet[..]), old(index), bytes)
    {
      forall k | 0 <= k < |bytes| {
        packet[index + k] := bytes[k];
      }
      FilledNext(old(packet[..]), packet[..], view, bytes);
      index, view, tidy := index + |bytes|, view + bytes, false;
    }

    /** One character string, its length in front. The length and the result are single bytes. */
    method AppendString(s: seq<byte>) returns (n: nat)
      requires Valid()
      modifies this, packet
      ensures Valid() && Appended() && safe == old(safe)
      ensures old(index) + |s| % 256 + 1 < MAX_PACKET_SIZE ==>
        && n == (if |s| % 256 == 255 then 0 else |s| % 256 + 1) && complete == old(complete)
        && view == old(view) + CharacterString(s)
        && packet[..] == Overlay(old(packet[..]), old(index), CharacterString(s))
      ensures old(index) + |s| % 256 + 1 >= MAX_PACKET_SIZE ==> n == 0 && view == old(view) && !complete
      ensures n != 0 ==> n == |view| - |old(view)|
    {
      var len := |s| % 256;
      if index + len + 1 >= MAX_PACKET_SIZE {
        complete := false;
        return 0;
      }
      ghost var before, bytes := view, packet[..];
      n := AppendU8(len);
      Copy(s[..len]);
      assert view == before + CharacterString(s);
      OverlayTwice(bytes, |before|, [len], s[..len]);
      return if len == 255 then 0 else len + 1;
    }

    /** memchr: the first place in [from, to) that holds `value`, or `to`. */
    method FindByte(from: nat, to: nat, value: byte) returns (i: nat)
      requires from <= to <= packet.Length
      ensures from <= i <= to
      ensures i < to ==> packet[i] == value
      ensures forall k :: from <= k < i ==> packet[k] != value
    {
      i := from;
      while i < to && packet[i] != value
        invariant from <= i <= to
        invariant forall k :: from <= k < i ==> packet[k] != value
      {
        i := i + 1;
      }
    }

    /** Whether the decoded parts are the strings, part by part and up to case. */
    method SameParts(strings: seq<seq<byte>>, name: NameBuffer) returns (same: bool)
      requires name.View().Valid()
      ensures same <==> name.parts == |strings| && forall k :: 0 <= k < |strings| ==> CiEq(strings[k], name.slots[k])
    {
      if name.parts != |strings| {
        return false;
      }
      for i := 0 to |strings|
        invariant forall k :: 0 <= k < i ==> CiEq(strings[k], name.slots[k])
      {
        if !CiEq(strings[i], name.slots[i]) {
          return false;
        }
      }
      return true;
    }

    /**
     * Decodes the candidate at `at` and compares it with the name. The `invalid` flag of the name structure is
     * not reset from one candidate to the next.
     */
    method TryCandidate(strings: seq<seq<byte>>, at: nat, name: NameBuffer) returns (r: Read, same: bool)
      requires Valid() && name.View().Valid()
      requires strings != [] && Starts(packet[..], at, strings[0])
      modifies name
      ensures name.View().Valid() && r == ReadOf(Flatten(packet[..], at, at))
      ensures r.Next? ==> (name.invalid <==> old(name.invalid) || Overfull(packet[..], at))
      ensures r.Next? && WellFormedLabel(strings[0]) ==>
          (same <==> !old(name.invalid) && Occurs(packet[..], at, strings))
    {
      name.Reset();
      ghost var invalid := name.invalid;
      var bytes := packet[..];
      r := ReadFqdn(bytes, at, name);
      same := false;
      if r.Next? {
        same := SameParts(strings, name);
        Judged(bytes, at, strings, invalid, name.View(), same);
      }
    }

    /** The next place that holds the length of the first label; the search passes over what is between. */
    method NextCandidate(strings: seq<seq<byte>>, len: nat, from: nat, ghost flag: bool) returns (at: nat)
      requires Valid() && strings != [] && len == |strings[0]| % 256 && from <= index
      ensures from <= at <= index && (at < index ==> packet[at] == len)
      ensures SearchFrom(strings, flag)(packet[..], from, index) == SearchFrom(strings, flag)(packet[..], at, index)
    {
      at := FindByte(from, index, len);
      SearchSkips(packet[..], from, at, index, strings, flag);
    }

    /** One turn of the search at a place that holds the right length. */
    method Inspect(strings: seq<seq<byte>>, len: nat, at: nat, name: NameBuffer) returns (hit: bool, failed: bool)
      requires Valid() && name.View().Valid() && strings != [] && len == |strings[0]| % 256
      requires at < index && packet[at] == len
      modifies name
      ensures name.View().Valid()
      ensures failed <==> Stops(packet[..], at, strings[0])
      ensures !failed ==> (name.invalid <==> old(name.invalid) || Muddles(packet[..], at, strings[0]))
      ensures !failed && WellFormedLabel(strings[0]) ==>
        (hit <==> !old(name.invalid) && Occurs(packet[..], at, strings))
    {
      hit, failed := false, false;
      FirstItem(packet[..], at, strings);
      if at + 1 + len > packet.Length {
        failed := true;
      } else if packet[at + 1..at + 1 + len] == strings[0][..len] {
        var r;
        assert packet[..][at + 1..at + 1 + len] == packet[at + 1..at + 1 + len];
        r, hit := TryCandidate(strings, at, name);
        failed := !r.Next?;
      } else {
        assert packet[..][at + 1..at + 1 + len] == packet[at + 1..at + 1 + len];
      }
    }

    /**
     * Searches the written part for an earlier occurrence of the name. The search looks at the whole buffer, and
     * the `invalid` flag of its name structure starts as whatever was on the stack.
     */
    method FindName(strings: seq<seq<byte>>, garbage: bool) returns (found: bool, at: nat, failed: bool)
      requires Valid() && strings != []
      ensures found ==> !failed && at < index
      ensures WellFormedLabel(strings[0]) ==>
        SearchFor(strings, garbage)(packet[..], index) == if failed then Stop(at) else if found then Hit(at)
          else Missing
    {
      var len := |strings[0]| % 256;
      var name := new NameBuffer(garbage);
      found, failed := false, false;
      at := NextCandidate(strings, len, 0, garbage);
      while at < index && !found && !failed
        invariant at <= index && name.View().Valid() && !(found && failed) && (found ==> at < index)
        invariant at < index ==> packet[at] == len
        invariant WellFormedLabel(strings[0]) ==>
          SearchFrom(strings, garbage)(packet[..], 0, index) ==
            if failed then Stop(at) else if found then Hit(at)
            else SearchFrom(strings, name.invalid)(packet[..], at, index)
        decreases index - at, !found && !failed
      {
        found, failed, at := Turn(strings, len, at, name);
      }
      SearchEnds(packet[..], index, strings, name.invalid);
      SearchEnds(packet[..], index, strings, garbage);
    }

    /** The search at a place that holds the right length, and on to the next one if this one is not taken. */
    method Turn(strings: seq<seq<byte>>, len: nat, at: nat, name: NameBuffer)
      returns (hit: bool, failed: bool, next: nat)
      requires Valid() && name.View().Valid() && strings != [] && len == |strings[0]| % 256
      requires at < index && packet[at] == len
      modifies name
      ensures name.View().Valid() && !(hit && failed) && at <= next <= index
      ensures (hit || failed ==> next == at) && (!hit && !failed ==> next > at)
          && (next < index ==> packet[next] == len)
      ensures WellFormedLabel(strings[0]) ==>
        SearchFrom(strings, old(name.invalid))(packet[..], at, index) ==
          if failed then Stop(at) else if hit then Hit(at)
            else SearchFrom(strings, name.invalid)(packet[..], next, index)
    {
      FindHere(packet[..], at, index, strings, name.invalid);
      hit, failed := Inspect(strings, len, at, name);
      next := at;
      if failed {
        hit := false;
      } else if !hit {
        next := NextCandidate(strings, len, at + 1, name.invalid);
      }
    }

    method AppendPointer(strings: seq<seq<byte>>, at: nat, ghost base: nat, ghost total: nat) returns (n: nat)
      requires Valid() && strings != [] && at < index
      requires WellFormedLabel(strings[0]) ==> Occurs(packet[..], at, strings)
      modifies this, packet
      ensures Valid() && Appended()
      ensures complete ==> n == index - old(index) == 2 && view == old(view) + PointerBytes(at)
      ensures old(index) + 1 < MAX_PACKET_SIZE ==> complete == old(complete)
      ensures safe == (old(safe) && SafeTarget(old(view), base, at, |strings|, total))
      ensures complete && safe && WellFormedLabel(strings[0]) ==>
        Written(view, base, old(index), strings, total, index)
    {
      safe, tidy := safe && SafeTarget(view, base, at, |strings|, total), false;
      ghost var before, buffer := view, packet[..];
      n := AppendU16(0xC000 + at);
      PointerHalves(at);
      if complete && safe && WellFormedLabel(strings[0]) {
        FlattenStable(before, buffer, at, at);
        PointerWritten(before, base, at, strings, total);
      }
    }

    /**
     * Appends a name. `base` is where the whole name started, `total` how many labels it has, and `done` are those
     * that are written out already. `stack` are the values that the flags of the searches happen to have.
     *
     * The result counts the bytes; a failure behind the first label does not show in it. A name of tame labels in a
     * packet that is tidy so far gets safe pointers only, and leaves the packet tidy.
     */
    method AppendFqdn(strings: seq<seq<byte>>, stack: seq<bool>, ghost base: nat, ghost total: nat,
                      ghost done: seq<seq<byte>>)
      returns (n: nat)
      requires Valid() && base <= index
      modifies this, packet
      ensures Valid() && Appended()
      ensures complete ==> n == index - old(index) && 1 <= n <= WireSize(strings) && (strings != [] ==> n >= 2)
      ensures complete && safe && WellFormedLabels(strings) ==>
        Written(view, base, old(index), strings, total, index)
      ensures complete && Near() && Neat(blank, old(view), base, done, strings) ==>
        TidyIn(view)(blank) && safe == old(safe)
      ensures complete && (strings != [] ==> TameLabel(strings[0])) ==> !LabelByte(view[old(index)])
      ensures complete && WellFormedLabels(strings) ==>
        EncodedAs(strings, stack)(old(packet[..]), old(view), view)
      ensures old(complete) && WellFormedLabels(strings) && old(index) + WireSize(strings) < MAX_PACKET_SIZE
              && !DroppedIn(strings, stack)(old(packet[..]), old(index)) ==>
        complete
      ensures strings != [] && WellFormedLabel(strings[0])
              && SearchFor(strings, Top(stack))(old(packet[..]), old(index)).Stop? ==>
        n == 0 && view == old(view) && !complete
      decreases |strings|, 2
    {
      if strings == [] {
        n := AppendRoot(stack, base, total, done);
        return;
      }
      var found, at, failed := FindName(strings, Top(stack));
      if failed {
        StoppedEncode(packet[..], index, strings, stack);
        complete := false;
        n := 0;
      } else if found {
        n := AppendFound(strings, stack, at, base, total, done);
      } else {
        n := AppendLiteral(strings, stack, base, total, done);
      }
    }

    /** The end of a name. */
    method AppendRoot(stack: seq<bool>, ghost base: nat, ghost total: nat, ghost done: seq<seq<byte>>) returns (n: nat)
      requires Valid() && base <= index
      modifies this, packet
      ensures Valid() && Appended()
      ensures complete ==> n == index - old(index) == 1
      ensures complete && safe ==> Written(view, base, old(index), [], total, index)
      ensures complete && Neat(blank, old(view), base, done, []) ==> TidyIn(view)(blank) && safe == old(safe)
      ensures complete ==> view[old(index)] == 0 && EncodedAs([], stack)(old(packet[..]), old(view), view)
      ensures old(complete) && old(index) < MAX_PACKET_SIZE ==> complete
    {
      if Neat(blank, view, base, done, []) {
        NeatEnd(blank, view, base, done);
      }
      n := AppendU8(0);
    }

    /** A pointer to a match, instead of the rest of the name. */
    method AppendFound(strings: seq<seq<byte>>, stack: seq<bool>, at: nat, ghost base: nat, ghost total: nat,
                       ghost done: seq<seq<byte>>)
      returns (n: nat)
      requires Valid() && base <= index && strings != [] && at < index
      requires WellFormedLabel(strings[0]) ==> SearchFor(strings, Top(stack))(packet[..], index) == Hit(at)
      modifies this, packet
      ensures Valid() && Appended()
      ensures complete ==> n == index - old(index) == 2
      ensures complete && safe && WellFormedLabel(strings[0]) ==> Written(view, base, old(index), strings, total, index)
      ensures complete && Near() && Neat(blank, old(view), base, done, strings) ==>
        TidyIn(view)(blank) && safe == old(safe)
      ensures complete ==> view[old(index)] >= 0xC0
      ensures complete && WellFormedLabel(strings[0]) ==> EncodedAs(strings, stack)(old(packet[..]), old(view), view)
      ensures old(complete) && old(index) + 1 < MAX_PACKET_SIZE ==> complete
    {
      FoundEncode(packet[..], view, strings, stack, at);
      if Neat(blank, view, base, done, strings) && (blank || index + 2 < NEAR) {
        NeatPointer(blank, view, packet[..], base, done, strings, at, total);
      }
      n := AppendPointer(strings, at, base, total);
    }

    /** The first label is written out, and the rest of the name after it. */
    method AppendLiteral(strings: seq<seq<byte>>, stack: seq<bool>, ghost base: nat, ghost total: nat,
                         ghost done: seq<seq<byte>>)
      returns (n: nat)
      requires Valid() && base <= index && strings != []
      requires WellFormedLabel(strings[0]) ==> SearchFor(strings, Top(stack))(packet[..], index).Missing?
      modifies this, packet
      ensures Valid() && Appended()
      ensures complete ==> n == index - old(index) && 2 <= n <= WireSize(strings)
      ensures complete && safe && WellFormedLabels(strings) ==>
        Written(view, base, old(index), strings, total, index)
      ensures complete && Near() && Neat(blank, old(view), base, done, strings) ==>
        TidyIn(view)(blank) && safe == old(safe)
      ensures complete && TameLabel(strings[0]) ==> !LabelByte(view[old(index)])
      ensures complete && WellFormedLabels(strings) ==>
        EncodedAs(strings, stack)(old(packet[..]), old(view), view)
      ensures old(complete) && WellFormedLabels(strings) && old(index) + WireSize(strings) < MAX_PACKET_SIZE
              && !DroppedIn(strings, stack)(old(packet[..]), old(index)) ==>
        complete
      decreases |strings|, 1
    {
      ghost var start, before := view, packet[..];
      LabelFits(strings);
      n := AppendString(strings[0]);
      if n == 0 {
        complete := false;
      } else {
        var rest := AppendRest(strings, stack, base, total, done, start, before);
        n := n + rest;
      }
    }

    /** The rest of a name, behind its first label; `start` and `before` are the packet without that label. */
    method AppendRest(strings: seq<seq<byte>>, stack: seq<bool>, ghost base: nat, ghost total: nat,
                      ghost done: seq<seq<byte>>, ghost start: seq<int>, ghost before: seq<byte>)
      returns (n: nat)
      requires Valid() && base <= |start| && strings != [] && view == start + CharacterString(strings[0])
      requires |before| == MAX_PACKET_SIZE && packet[..] == Overlay(before, |start|, CharacterString(strings[0]))
      requires WellFormedLabel(strings[0]) ==> SearchFor(strings, Top(stack))(before, |start|).Missing?
      modifies this, packet
      ensures Valid() && Appended() && start <= view && |start| < |view| && view[|start|] == |strings[0]| % 256
      ensures complete ==> n == index - old(index) && 1 <= n <= WireSize(strings[1..])
      ensures complete && safe && WellFormedLabels(strings) ==>
        Written(view, base, |start|, strings, total, index)
      ensures complete && Near() && Neat(blank, start, base, done, strings) ==>
        TidyIn(view)(blank) && safe == old(safe)
      ensures complete && WellFormedLabels(strings) ==> EncodedAs(strings, stack)(before, start, view)
      ensures old(complete) && WellFormedLabels(strings) && old(index) + WireSize(strings[1..]) < MAX_PACKET_SIZE
              && !DroppedIn(strings, stack)(before, |start|) ==>
        complete
      decreases |strings|, 0
    {
      ghost var mid, q := view, packet[..];
      NeatLiteral(blank, start, mid, base, done, strings);
      n := AppendFqdn(strings[1..], Pop(stack), base, total, done + [strings[0]]);
      LiteralDone(start, mid, view, base, strings, total);
      EncodeLiteral(before, q, start, mid, view, strings, stack);
    }

    /** Appends a whole name. */
    method AppendName(strings: seq<seq<byte>>) returns (n: nat)
      requires Valid()
      modifies this, packet
      ensures Valid() && Appended()
      ensures complete ==> n == index - old(index) && 1 <= n && (strings != [] ==> n >= 2)
      ensures complete && Brief()(strings) ==> n < 200
      ensures complete && safe && WellFormedLabels(strings) ==> NameIn(view)(old(index), strings, index)
      ensures Keeps(Tame(blank)(strings), WireSize(strings))
      ensures complete && Tame(blank)(strings) ==> !LabelByte(view[old(index)])
      ensures complete && old(tidy) && Tame(blank)(strings) && Unlabelled()(old(view)) ==>
        view == old(view) + Wire(strings)
    {
      var stack: seq<bool> := *;
      NeatStart(blank, view, strings);
      ghost var was, start, before := tidy, view, packet[..];
      TameEncodes(blank, start, before, strings, stack);
      n := AppendFqdn(strings, stack, index, |strings|, []);
      LiteralView(before, start, view, strings, stack);
      tidy := was && Tidied();
    }
  }

  /** The buffer after some bytes were written to the end of the packet. */
  lemma FilledNext(p: seq<int>, q: seq<int>, v: seq<int>, s: seq<int>)
    requires |v| + |s| <= |p| && q == Overlay(p, |v|, s) && NoHole(s)
    ensures OverIn(v)(p) ==> OverIn(v + s)(q)
    ensures ZeroIn(|v|)(p) ==> ZeroIn(|v| + |s|)(q)
  {
  }

  lemma FilledPatch(p: seq<int>, q: seq<int>, v: seq<int>, at: nat, x: nat)
    requires |p| == |q| && at + 1 < |v| <= |p| && q == p[at := x / 256][at + 1 := x % 256]
    ensures OverIn(v)(p) ==> OverIn(Patch(v, at, x))(q)
    ensures ZeroIn(|v|)(p) ==> ZeroIn(|v|)(q)
  {
  }

  lemma OverlayTwice(p: seq<int>, i: nat, a: seq<int>, b: seq<int>)
    requires i + |a| + |b| <= |p|
    ensures Overlay(Overlay(p, i, a), i + |a|, b) == Overlay(p, i, a + b)
  {
  }

  lemma PointerHalves(at: nat)
    requires at < 0x4000
    ensures [(0xC000 + at) / 256, (0xC000 + at) % 256] == PointerBytes(at)
  {
  }

  // ---------------------------------------------------------------------------------------------------------
  // Tame names

  lemma TameBrief(blank: bool, strings: seq<seq<int>>)
    ensures Tame(blank)(strings) ==> Brief()(strings)
  {
    if Tame(blank)(strings) {
      TameSize(strings);
    }
  }

  lemma {:induction false} TameSize(strings: seq<seq<int>>)
    requires TameLabels(strings)
    ensures WireSize(strings) <= 1 + 32 * |strings|
  {
    if strings == [] {
    } else {
      assert TameLabel(strings[0]);
      assert forall k :: 0 <= k < |strings[1..]| ==> strings[1..][k] == strings[k + 1];
      TameSize(strings[1..]);
    }
  }

  /** Up to four tame labels, all different. */
  predicate TameName(strings: seq<seq<int>>) {
    |strings| <= 4 && TameLabels(strings) && Different(strings)
  }

  predicate ShortLabels(strings: seq<seq<int>>) {
    forall k :: 0 <= k < |strings| ==> |strings[k]| < FRONT
  }

  /** The same as a function of the name; unless the buffer is blank, the labels must be short as well. */
  function Tame(blank: bool): seq<seq<int>> -> bool {
    (strings: seq<seq<int>>) => TameName(strings) && (blank || ShortLabels(strings))
  }

  /** The packet is tidy up to the current name, of which `done` is written out and `strings` is to come. */
  predicate Neat(blank: bool, v: seq<int>, base: nat, done: seq<seq<int>>, strings: seq<seq<int>>) {
    && FRONT <= base <= |v| && TidyIn(v[..base])(blank) && Spelt(v, base, done, |v|) && Tame(blank)(done + strings)
  }

  lemma NeatStart(blank: bool, v: seq<int>, strings: seq<seq<int>>)
    ensures |v| >= FRONT && Tame(blank)(strings) && TidyIn(v)(blank) ==> Neat(blank, v, |v|, [], strings)
  {
    assert v[..|v|] == v && [] + strings == strings;
  }

  lemma TameParts(done: seq<seq<int>>, strings: seq<seq<int>>)
    requires TameName(done + strings)
    ensures TameLabels(done) && TameLabels(strings) && (strings != [] ==> strings[0] !in done)
  {
    var all := done + strings;
    assert forall k :: 0 <= k < |done| ==> all[k] == done[k];
    assert forall k :: 0 <= k < |strings| ==> all[|done| + k] == strings[k];
  }

  lemma NeatEnd(blank: bool, v: seq<int>, base: nat, done: seq<seq<int>>)
    requires Neat(blank, v, base, done, [])
    ensures TidyIn(v + [0])(blank)
  {
    assert done + [] == done;
    TameParts(done, []);
    EndTidy(v, base, done);
    EndsSolid(v + [0]);
  }

  lemma {:induction false} SpeltSnoc(v: seq<int>, w: seq<int>, i: nat, done: seq<seq<int>>, s: seq<int>)
    requires Spelt(v, i, done, |v|) && w == v + [|s|] + s
    ensures Spelt(w, i, done + [s], |w|)
    decreases |done|
  {
    if done == [] {
      assert w[|v|] == |s| && w[|v| + 1..|v| + 1 + |s|] == s;
      assert [s][1..] == [];
      assert Spelt(w, |w|, [s][1..], |w|);
    } else {
      var end := i + 1 + |done[0]|;
      assert w[i] == v[i] && w[i + 1..end] == v[i + 1..end];
      SpeltSnoc(v, w, end, done[1..], s);
      assert (done + [s])[1..] == done[1..] + [s];
    }
  }

  lemma NeatLiteral(blank: bool, v: seq<int>, w: seq<int>, base: nat, done: seq<seq<int>>, strings: seq<seq<byte>>)
    requires strings != [] && w == v + CharacterString(strings[0])
    ensures Neat(blank, v, base, done, strings) ==> Neat(blank, w, base, done + [strings[0]], strings[1..])
  {
    if Neat(blank, v, base, done, strings) {
      TameParts(done, strings);
      assert TameLabel(strings[0]);
      assert w == v + [|strings[0]|] + strings[0];
      SpeltSnoc(v, w, base, done, strings[0]);
      assert w[..base] == v[..base];
      assert done + [strings[0]] + strings[1..] == done + strings;
    }
  }

  /** A place that holds a tame label that the name does not have yet starts a whole name. */
  lemma NeatPlace(blank: bool, v: seq<int>, p: seq<int>, base: nat, done: seq<seq<int>>, strings: seq<seq<int>>,
                  at: nat)
    requires Neat(blank, v, base, done, strings) && strings != [] && Over(v, p) && (blank ==> ZeroFrom(p, |v|))
    requires at < |v| && Starts(p, at, strings[0])
    ensures at < base && Named(v[..base], at) && Named(v, at) && Flatten(p, at, at) == Flatten(v, at, at)
  {
    var s := strings[0];
    TameParts(done, strings);
    assert TameLabel(s) && s == (done + strings)[|done|];
    assert s[..|s|] == s;
    CandidateBefore(blank, v, base, done, p, at, s);
    assert Agrees(v[..base], v) && Agrees(v, p);
    NamedGrows(v[..base], v, at);
    FlattenStable(v, p, at, at);
  }

  /** A match that is found for a tame name is a safe target, and pointing to it keeps the packet tidy. */
  lemma NeatPointer(blank: bool, v: seq<int>, p: seq<int>, base: nat, done: seq<seq<int>>, strings: seq<seq<int>>,
                    at: nat,
                    total: nat)
    requires Neat(blank, v, base, done, strings) && strings != [] && at < |v| <= |p| < 0x4000
    requires Over(v, p) && (blank ==> ZeroFrom(p, |v|)) && (blank || |v| < NEAR)
    requires WellFormedLabel(strings[0]) ==> Occurs(p, at, strings)
    ensures SafeTarget(v, base, at, |strings|, total) && TidyIn(v + PointerBytes(at))(blank)
  {
    TameParts(done, strings);
    assert TameLabel(strings[0]);
    TameIsWellFormed(strings[0]);
    FirstItem(p, at, strings);
    assert strings[0][..|strings[0]|] == strings[0];
    NeatPlace(blank, v, p, base, done, strings, at);
    TameExact(Flatten(v, at, at).items, strings, total);
    PointTidy(v, base, done, at, |strings|);
    if !blank {
      PointerEnds(v, at);
    }
  }

  /**
   * Whatever the buffer held before: what is found for a tame name in a packet that is tidy so far is a safe target if
   * and only if its label ends in the written part, and does not only seem to go on with what is left in the buffer.
   */
  lemma TargetExact(v: seq<int>, p: seq<int>, base: nat, done: seq<seq<int>>, strings: seq<seq<int>>, at: nat,
                    total: nat)
    requires FRONT <= base <= |v| && IsTidy(v[..base]) && Spelt(v, base, done, |v|) && TameName(done + strings)
    requires strings != [] && Over(v, p) && at < |v| && Occurs(p, at, strings)
    ensures SafeTarget(v, base, at, |strings|, total) <==> at + |strings[0]| < |v|
  {
    var s := strings[0];
    TameParts(done, strings);
    assert TameLabel(s) && s == (done + strings)[|done|];
    FirstItem(p, at, strings);
    assert v[at] == |s|;
    if at + |s| < |v| {
      FoundLooks(v, p, at, s);
      if at >= base {
        FoundSpelt(v, base, done, p, at, s);
      }
      BeforeName(v, base, done, at);
      LooksNamed(v[..base], at);
      assert Agrees(v[..base], v) && Agrees(v, p);
      NamedGrows(v[..base], v, at);
      FlattenStable(v, p, at, at);
      TameExact(Flatten(v, at, at).items, strings, total);
    }
  }

  // ---------------------------------------------------------------------------------------------------------
  // What is written

  /** The packet has grown by the encoding of the name. */
  function EncodedAs(strings: seq<seq<byte>>, stack: seq<bool>): (seq<int>, seq<int>, seq<int>) -> bool {
    (p: seq<int>, v: seq<int>, w: seq<int>) =>
      var e := Encode(p, |v|, strings, stack);
      e.Coded? && w == v + e.bytes
  }

  lemma StoppedEncode(p: seq<int>, i: nat, strings: seq<seq<byte>>, stack: seq<bool>)
    requires strings != []
    ensures SearchFor(strings, Top(stack))(p, i).Stop? ==> DroppedIn(strings, stack)(p, i)
  {
  }

  lemma FoundEncode(p: seq<int>, v: seq<int>, strings: seq<seq<byte>>, stack: seq<bool>, at: nat)
    requires strings != []
    ensures SearchFor(strings, Top(stack))(p, |v|) == Hit(at) ==>
      Occurs(p, at, strings) && EncodedAs(strings, stack)(p, v, v + PointerBytes(at))
  {
    FindExact(p, |v|, strings, Top(stack));
  }

  lemma LabelFits(strings: seq<seq<byte>>)
    requires strings != []
    ensures WireSize(strings) == 1 + |strings[0]| % 256 + WireSize(strings[1..]) && WireSize(strings[1..]) >= 1
    ensures WellFormedLabels(strings) ==> |strings[0]| % 256 < 255 && WellFormedLabel(strings[0])
  {
  }

  /** A label is written out, and then what is behind it. */
  lemma LiteralEncodes(p: seq<int>, start: seq<int>, mid: seq<int>, view: seq<int>, strings: seq<seq<byte>>,
                       stack: seq<bool>, s: seq<byte>)
    requires strings != [] && s == CharacterString(strings[0]) && mid == start + s && |mid| <= |p|
    requires SearchFor(strings, Top(stack))(p, |start|).Missing?
    requires EncodedAs(strings[1..], Pop(stack))(Overlay(p, |start|, s), mid, view)
    ensures EncodedAs(strings, stack)(p, start, view)
  {
    var b := view[|mid|..];
    assert view == mid + b && mid + b == start + (s + b);
  }

  lemma LiteralDropped(p: seq<int>, i: nat, strings: seq<seq<byte>>, stack: seq<bool>, s: seq<byte>)
    requires strings != [] && s == CharacterString(strings[0]) && i + |s| <= |p|
    requires SearchFor(strings, Top(stack))(p, i).Missing?
    requires DroppedIn(strings[1..], Pop(stack))(Overlay(p, i, s), i + |s|)
    ensures DroppedIn(strings, stack)(p, i)
  {
  }

  /** The same on a condition. */
  lemma EncodeLiteral(p: seq<int>, q: seq<int>, start: seq<int>, mid: seq<int>, view: seq<int>,
                      strings: seq<seq<byte>>, stack: seq<bool>)
    requires strings != [] && mid == start + CharacterString(strings[0]) && |mid| <= |p|
    requires q == Overlay(p, |start|, CharacterString(strings[0]))
    requires WellFormedLabel(strings[0]) ==> SearchFor(strings, Top(stack))(p, |start|).Missing?
    ensures WellFormedLabel(strings[0]) ==>
      && (EncodedAs(strings[1..], Pop(stack))(q, mid, view) ==> EncodedAs(strings, stack)(p, start, view))
      && (DroppedIn(strings[1..], Pop(stack))(q, |mid|) ==> DroppedIn(strings, stack)(p, |start|))
  {
    var s := CharacterString(strings[0]);
    if WellFormedLabel(strings[0]) && EncodedAs(strings[1..], Pop(stack))(q, mid, view) {
      LiteralEncodes(p, start, mid, view, strings, stack, s);
    }
    if WellFormedLabel(strings[0]) && DroppedIn(strings[1..], Pop(stack))(q, |mid|) {
      LiteralDropped(p, |start|, strings, stack, s);
    }
  }

  /** A tame name for which there is room is not dropped. */
  lemma {:induction false} NeatEncodes(blank: bool, v: seq<int>, p: seq<int>, base: nat, done: seq<seq<int>>,
                                       strings: seq<seq<byte>>, stack: seq<bool>)
    requires Neat(blank, v, base, done, strings) && Over(v, p) && (blank ==> ZeroFrom(p, |v|))
    requires |v| + WireSize(strings) < |p|
    ensures !DroppedIn(strings, stack)(p, |v|)
    decreases |strings|
  {
    if strings == [] {
    } else {
      var s := CharacterString(strings[0]);
      TameParts(done, strings);
      assert TameLabel(strings[0]) && |s| == 1 + |strings[0]|;
      NeatFinds(blank, v, p, base, done, strings, stack);
      var q := Overlay(p, |v|, s);
      NeatLiteral(blank, v, v + s, base, done, strings);
      FilledNext(p, q, v, s);
      NeatEncodes(blank, v + s, q, base, done + [strings[0]], strings[1..], Pop(stack));
      NotDropped(p, |v|, strings, stack);
    }
  }

  lemma NeatFinds(blank: bool, v: seq<int>, p: seq<int>, base: nat, done: seq<seq<int>>, strings: seq<seq<byte>>,
                  stack: seq<bool>)
    requires Neat(blank, v, base, done, strings) && strings != [] && Over(v, p) && (blank ==> ZeroFrom(p, |v|))
    requires |v| + 1 + |strings[0]| < |p|
    ensures !SearchFor(strings, Top(stack))(p, |v|).Stop?
  {
    forall o | 0 <= o < |v|
      ensures !Stops(p, o, strings[0])
    {
      NeatGoesOn(blank, v, p, base, done, strings, o);
    }
    NeverStops(p, |v|, strings, Top(stack));
  }

  lemma NeatGoesOn(blank: bool, v: seq<int>, p: seq<int>, base: nat, done: seq<seq<int>>, strings: seq<seq<byte>>,
                   o: nat)
    requires Neat(blank, v, base, done, strings) && strings != [] && Over(v, p) && (blank ==> ZeroFrom(p, |v|))
    requires |v| + 1 + |strings[0]| < |p| && o < |v|
    ensures !Stops(p, o, strings[0])
  {
    if Starts(p, o, strings[0]) {
      NeatPlace(blank, v, p, base, done, strings, o);
    }
  }

  /** Nothing in the packet looks like a label. */
  function Unlabelled(): seq<int> -> bool {
    (v: seq<int>) => Quiet(v)
  }

  /** Then a tame name is written out; wherever a tame name is written, it is not dropped if there is room. */
  lemma TameEncodes(blank: bool, v: seq<int>, p: seq<int>, strings: seq<seq<byte>>, stack: seq<bool>)
    requires OverIn(v)(p) && (blank ==> ZeroIn(|v|)(p))
    ensures |v| >= FRONT && TidyIn(v)(blank) && Tame(blank)(strings) ==>
      && WellFormedLabels(strings)
      && (|v| + WireSize(strings) < |p| ==> !DroppedIn(strings, stack)(p, |v|))
      && (Unlabelled()(v) ==> LiteralIn(strings, stack)(p, |v|))
  {
    if |v| >= FRONT && TidyIn(v)(blank) && Tame(blank)(strings) {
      NeatStart(blank, v, strings);
      assert v[..|v|] == v && [] + strings == strings;
      TameParts([], strings);
      AllWellFormed(strings);
      if |v| + WireSize(strings) < |p| {
        NeatEncodes(blank, v, p, |v|, [], strings, stack);
      }
      if Quiet(v) {
        LiteralFrom(blank, v, p, |v|, [], strings, stack);
      }
    }
  }

  lemma LiteralView(p: seq<int>, v: seq<int>, w: seq<int>, strings: seq<seq<byte>>, stack: seq<bool>)
    ensures EncodedAs(strings, stack)(p, v, w) && LiteralIn(strings, stack)(p, |v|) ==> w == v + Wire(strings)
  {
  }

  lemma {:induction false} LiteralFrom(blank: bool, v: seq<int>, p: seq<int>, base: nat, done: seq<seq<int>>,
                                       strings: seq<seq<byte>>, stack: seq<bool>)
    requires Neat(blank, v, base, done, strings) && Over(v, p) && (blank ==> ZeroFrom(p, |v|)) && Quiet(v[..base])
    ensures LiteralIn(strings, stack)(p, |v|)
    decreases |strings|
  {
    if strings == [] {
    } else {
      var s := CharacterString(strings[0]);
      TameParts(done, strings);
      assert TameLabel(strings[0]) && |s| == 1 + |strings[0]|;
      forall o | 0 <= o < |v|
        ensures !Starts(p, o, strings[0])
      {
        QuietPlace(blank, v, p, base, done, strings, o);
      }
      NoStart(p, |v|, strings, Top(stack));
      if |v| + |s| <= |p| {
        NeatLiteral(blank, v, v + s, base, done, strings);
        FilledNext(p, Overlay(p, |v|, s), v, s);
        assert (v + s)[..base] == v[..base];
        LiteralFrom(blank, v + s, Overlay(p, |v|, s), base, done + [strings[0]], strings[1..], Pop(stack));
      }
      LiteralNext(p, |v|, strings, stack, s);
    }
  }

  /** If the name is encoded, it is written out. */
  function LiteralIn(strings: seq<seq<byte>>, stack: seq<bool>): (seq<int>, nat) -> bool {
    (p: seq<int>, i: nat) =>
      var e := Encode(p, i, strings, stack);
      e.Coded? ==> e.bytes == Wire(strings)
  }

  lemma LiteralNext(p: seq<int>, i: nat, strings: seq<seq<byte>>, stack: seq<bool>, s: seq<byte>)
    requires strings != [] && s == CharacterString(strings[0]) && !SearchFor(strings, Top(stack))(p, i).Hit?
    requires i + |s| <= |p| ==> LiteralIn(strings[1..], Pop(stack))(Overlay(p, i, s), i + |s|)
    ensures LiteralIn(strings, stack)(p, i)
  {
  }

  lemma QuietPlace(blank: bool, v: seq<int>, p: seq<int>, base: nat, done: seq<seq<int>>, strings: seq<seq<int>>,
                   o: nat)
    requires Neat(blank, v, base, done, strings) && strings != [] && Over(v, p) && (blank ==> ZeroFrom(p, |v|))
    requires Quiet(v[..base]) && o < |v|
    ensures !Starts(p, o, strings[0])
  {
    if Starts(p, o, strings[0]) {
      var s := strings[0];
      TameParts(done, strings);
      assert TameLabel(s) && s == (done + strings)[|done|] && s[..|s|] == s;
      CandidateLooks(blank, v, base, done, p, o, s);
    }
  }

  lemma NotDropped(p: seq<int>, i: nat, strings: seq<seq<byte>>, stack: seq<bool>)
    requires strings != [] && i + |CharacterString(strings[0])| <= |p| && !SearchFor(strings, Top(stack))(p, i).Stop?
    requires var s := CharacterString(strings[0]); !DroppedIn(strings[1..], Pop(stack))(Overlay(p, i, s), i + |s|)
    ensures !DroppedIn(strings, stack)(p, i)
  {
  }

  lemma PointerWritten(v: seq<int>, base: nat, o: nat, strings: seq<seq<int>>, total: nat)
    requires o < 0x4000 && SafeTarget(v, base, o, |strings|, total)
    requires Matches(Flatten(v, o, o).items, strings)
    ensures Written(v + PointerBytes(o), base, |v|, strings, total, |v| + 2)
  {
    WrittenPointer(v, base, o, strings, total);
  }

  /** What a literal label in front of the rest of a name comes to. */
  lemma LiteralDone(start: seq<int>, mid: seq<int>, view: seq<int>, base: nat, strings: seq<seq<byte>>, total: nat)
    requires strings != [] && mid == start + CharacterString(strings[0]) && mid <= view
    ensures start <= view && |start| < |view| && view[|start|] == |strings[0]| % 256
    ensures |mid| - |start| == 1 + |strings[0]| % 256
    ensures WellFormedLabels(strings) ==> WellFormedLabels(strings[1..])
    ensures WellFormedLabels(strings) && Written(view, base, |mid|, strings[1..], total, |view|) ==>
      Written(view, base, |start|, strings, total, |view|)
  {
    assert view[|start|] == mid[|start|];
    if WellFormedLabels(strings) {
      assert WellFormedLabel(strings[0]);
      assert forall k :: 0 <= k < |strings[1..]| ==> strings[1..][k] == strings[k + 1];
      if Written(view, base, |mid|, strings[1..], total, |view|) {
        AfterLiteral(start, mid, view, base, strings, total, |view|);
      }
    }
  }

  lemma AfterLiteral(start: seq<int>, mid: seq<int>, view: seq<int>, base: nat, strings: seq<seq<byte>>, total: nat,
                     j: nat)
    requires strings != [] && WellFormedLabel(strings[0])
    requires mid == start + CharacterString(strings[0]) && mid <= view
    requires Written(view, base, |mid|, strings[1..], total, j)
    ensures Written(view, base, |start|, strings, total, j)
  {
    var i := |start|;
    assert view[i] == mid[i];
    assert view[i + 1..i + 1 + |strings[0]|] == mid[i + 1..] == strings[0];
    WrittenLiteral(view, base, i, strings[0], strings[1..], total, j);
    assert strings == [strings[0]] + strings[1..];
  }
}
