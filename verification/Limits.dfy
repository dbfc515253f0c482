/** Names on which the encoder and the decoder disagree, because the encoder checks less than it would have to. */
module Limits {
  import opened Bytes
  import opened Names
  import opened RoundTrip
  import opened Pointers
  import opened Search
  import opened Tidy
  import opened Encoder
  import opened RecordWriter
  import opened Dispatch
  import opened Parser

  const HTTP: seq<byte> := [95, 104, 116, 116, 112]
  const TCP: seq<byte> := [95, 116, 99, 112]
  const HOST: seq<byte> := [108, 111, 99, 97, 108]
  const SUB_LABEL: seq<byte> := [95, 115, 117, 98]
  const MINE: seq<byte> := [109, 121]

  // ---------------------------------------------------------------------------------------------------------
  // One label at one place

  /** The label stands nowhere else. */
  predicate OnlyAt(p: seq<int>, end: nat, s: seq<int>, at: nat) {
    forall o :: 0 <= o < end && Starts(p, o, s) ==> o == at
  }

  lemma NoneStops(p: seq<int>, end: nat, strings: seq<seq<int>>, o: nat)
    requires strings != [] && end + |strings[0]| % 256 <= |p| && o < end && !Starts(p, o, strings[0])
    ensures !Stops(p, o, strings[0]) && !Occurs(p, o, strings)
  {
    if Occurs(p, o, strings) {
      OccursStarts(p, o, strings);
    }
  }

  lemma SearchOnly(p: seq<int>, end: nat, strings: seq<seq<int>>, at: nat)
    requires strings != [] && end + |strings[0]| % 256 <= |p| && OnlyAt(p, end, strings[0], at)
    requires at < end && Occurs(p, at, strings)
    ensures SearchFor(strings, false)(p, end) == Hit(at)
  {
    FindExact(p, end, strings, false);
    forall o | 0 <= o < at
      ensures !Stops(p, o, strings[0]) && !Hits(p, o, strings, false) && !Muddles(p, o, strings[0])
    {
      NoneStops(p, end, strings, o);
    }
  }

  lemma SearchNone(p: seq<int>, end: nat, strings: seq<seq<int>>)
    requires strings != [] && end + |strings[0]| % 256 <= |p| && OnlyAt(p, end, strings[0], end)
    ensures SearchFor(strings, false)(p, end) == Missing
  {
    FindExact(p, end, strings, false);
    forall o | 0 <= o < end
      ensures !Stops(p, o, strings[0]) && !Hits(p, o, strings, false)
    {
      NoneStops(p, end, strings, o);
    }
  }

  /** The search gives up where the label stands and cannot be read. */
  lemma SearchStops(p: seq<int>, end: nat, strings: seq<seq<int>>, at: nat)
    requires strings != [] && end + |strings[0]| % 256 <= |p| && OnlyAt(p, end, strings[0], at)
    requires at < end && Starts(p, at, strings[0]) && !Flatten(p, at, at).Flat?
    ensures SearchFor(strings, false)(p, end) == Found.Stop(at)
  {
    FindDecides(p, end, strings, false);
    forall o | 0 <= o < at
      ensures !Stops(p, o, strings[0]) && !Hits(p, o, strings, false)
    {
      NoneStops(p, end, strings, o);
    }
    assert Stops(p, at, strings[0]) && Clear(p, at, strings, false);
    FindExact(p, end, strings, false);
    OneOutcome(SearchFor(strings, false)(p, end), Found.Stop(at), p, end, strings, false);
  }

  // ---------------------------------------------------------------------------------------------------------
  // A pointer into the name itself

  /** The packet of a host that has begun: a header with open counts, in a blank buffer. */
  method BeginPacket() returns (w: Writer)
    ensures fresh(w) && fresh(w.packet) && w.Valid() && w.blank && w.complete && w.safe && w.tidy
    ensures w.view == OpenHeader(FLAGS_AUTHORITATIVE)
  {
    w := new Writer(seq(MAX_PACKET_SIZE, _ => 0));
    WriteHeader(w, FLAGS_AUTHORITATIVE);
  }

  /** A header, and then some bytes. */
  predicate Begins(p: seq<int>, s: seq<int>) {
    && |p| == MAX_PACKET_SIZE && 12 + |s| <= |p| && p[12..12 + |s|] == s
    && p[0] == 0 && p[1] == 0 && p[2] == 0x84 && p[3] == 0
    && (forall k :: 4 <= k < 12 ==> p[k] == 0) && ZeroFrom(p, 12 + |s|)
  }

  const LABEL: seq<byte> := [5, 108, 111, 99, 97, 108]
  const TWICE: seq<byte> := [5, 108, 111, 99, 97, 108, 0xC0, 12]

  lemma BeginsNext(p: seq<int>, s: seq<int>, more: seq<int>)
    requires Begins(p, s) && 12 + |s| + |more| <= |p|
    ensures Begins(Overlay(p, 12 + |s|, more), s + more)
  {
    var q := Overlay(p, 12 + |s|, more);
    assert forall k :: 0 <= k < |s| ==> p[12 + k] == s[k];
    assert q[12..12 + |s| + |more|] == s + more;
  }

  lemma NothingThere(p: seq<int>)
    requires Begins(p, [])
    ensures OnlyAt(p, 12, HOST, 12)
  {
  }

  lemma LabelOnly(p: seq<int>)
    requires Begins(p, LABEL)
    ensures OnlyAt(p, 18, HOST, 12) && p[12] == 5 && p[13..18] == HOST && p[18] == 0
  {
    assert forall k :: 0 <= k < 6 ==> p[12..18][k] == p[12 + k];
    assert forall k :: 0 <= k < 6 ==> p[12 + k] == LABEL[k];
    assert p[13..18] == LABEL[1..6] == HOST;
    forall o | 0 <= o < 18 && p[o] == 5
      ensures o == 12
    {
      assert o >= 12 ==> p[12 + (o - 12)] == LABEL[o - 12];
    }
  }

  lemma LabelOccurs(p: seq<int>)
    requires |p| > 18 && p[12] == 5 && p[13..18] == HOST && p[18] == 0
    ensures Occurs(p, 12, [HOST])
  {
    assert Flatten(p, 12, 18) == Flat([], 19);
    assert [Label(HOST)] + [] == [Label(HOST)];
    FirstLabel(HOST, []);
  }

  lemma EncodeFollows(p: seq<byte>, i: nat, strings: seq<seq<byte>>, rest: seq<seq<byte>>, s: seq<byte>,
                      bytes: seq<int>)
    requires strings != [] && s == CharacterString(strings[0]) && strings[1..] == rest && i + |s| <= |p|
    requires SearchFor(strings, false)(p, i) == Missing && Encode(Overlay(p, i, s), i + |s|, rest, []) == Coded(bytes)
    ensures Encode(p, i, strings, []) == Coded(s + bytes)
  {
  }

  /** For the second label the encoder finds the first one. */
  lemma SecondEncoded(q: seq<int>)
    requires Begins(q, LABEL)
    ensures Encode(q, 18, [HOST], []) == Coded(PointerBytes(12))
  {
    LabelOnly(q);
    LabelOccurs(q);
    SearchOnly(q, 18, [HOST], 12);
  }

  /** What the encoder makes of the host name `local`: a label, and a pointer to it. */
  lemma LocalEncoded(p: seq<byte>)
    requires Begins(p, [])
    ensures Encode(p, 12, [HOST, LOCAL_DOMAIN], []) == Coded(TWICE)
  {
    var strings := [HOST, LOCAL_DOMAIN];
    assert CharacterString(HOST) == LABEL && strings[1..] == [HOST];
    NothingThere(p);
    SearchNone(p, 12, strings);
    BeginsNext(p, [], LABEL);
    assert [] + LABEL == LABEL;
    SecondEncoded(Overlay(p, 12, LABEL));
    EncodeFollows(p, 12, strings, [HOST], LABEL, PointerBytes(12));
    assert LABEL + PointerBytes(12) == TWICE;
  }

  lemma TwiceUnreadable(p: seq<int>)
    requires |p| >= 20 && p[12..20] == TWICE
    ensures Flatten(p, 12, 12) == Bad && ParseName(p, 12) == NoName
  {
    assert forall k :: 0 <= k < 8 ==> p[12 + k] == TWICE[k];
    assert Flatten(p, 12, 18) == Bad;
  }

  lemma LocalWellFormed()
    ensures WellFormed([HOST, LOCAL_DOMAIN]) && WellFormedLabels([HOST, LOCAL_DOMAIN])
    ensures WireSize([HOST, LOCAL_DOMAIN]) == 13
  {
    assert [HOST, LOCAL_DOMAIN][1..] == [LOCAL_DOMAIN] && [LOCAL_DOMAIN][1..] == [] && |LOCAL_DOMAIN| == |HOST| == 5;
    assert WireSize([LOCAL_DOMAIN]) == 7;
  }

  /** What is written behind a header, in the buffer. */
  lemma WrittenBegins(v: seq<int>, p: seq<int>, s: seq<byte>)
    requires v == OpenHeader(FLAGS_AUTHORITATIVE) + s && Over(v, p) && ZeroFrom(p, |v|) && |p| == MAX_PACKET_SIZE
    ensures Begins(p, s)
  {
    assert v[0] == 0 && v[1] == 0 && v[2] == 0x84 && v[3] == 0;
    assert forall k :: 4 <= k < 12 ==> v[k] == HOLE;
    assert forall k :: 0 <= k < |s| ==> v[12 + k] == s[k];
    assert p[12..12 + |s|] == s;
  }

  /**
   * The host name `local` in a blank buffer, when the flags of the searches are not raised: for the second label the
   * encoder finds the first one, and points into the name that it is writing.
   */
  method LocalTwice() returns (w: Writer, packet: seq<byte>)
    ensures fresh(w) && fresh(w.packet) && w.Valid() && w.blank && w.complete
    ensures w.view == OpenHeader(FLAGS_AUTHORITATIVE) + TWICE
    ensures WellFormed([HOST, LOCAL_DOMAIN]) && ParseName(packet, 12) == NoName
  {
    LocalWellFormed();
    w := BeginPacket();
    assert OpenHeader(FLAGS_AUTHORITATIVE) + [] == OpenHeader(FLAGS_AUTHORITATIVE);
    WrittenBegins(w.view, w.packet[..], []);
    LocalEncoded(w.packet[..]);
    var n := w.AppendFqdn([HOST, LOCAL_DOMAIN], [], 12, 2, []);
    packet := w.packet[..w.index];
    WrittenBegins(w.view, w.packet[..], TWICE);
    assert packet[12..20] == w.packet[..][12..20];
    TwiceUnreadable(packet);
  }

  lemma TwiceOnly(p: seq<int>)
    requires Begins(p, TWICE)
    ensures OnlyAt(p, 20, HOST, 12) && Starts(p, 12, HOST)
  {
    assert forall k :: 0 <= k < 8 ==> p[12 + k] == TWICE[k];
    assert p[13..18] == TWICE[1..6] == HOST;
    forall o | 0 <= o < 20 && p[o] == 5
      ensures o == 12
    {
      assert o >= 12 ==> p[12 + (o - 12)] == TWICE[o - 12];
    }
  }

  /**
   * The next name of that host is dropped, although there is room for it: the search meets the first one, which cannot
   * be read, and gives up.
   */
  method LocalAgain() returns (w: Writer, n: nat, ghost p: seq<byte>)
    ensures w.Valid() && w.view == OpenHeader(FLAGS_AUTHORITATIVE) + TWICE && !w.complete && n == 0
    ensures Begins(p, TWICE) && Drops(p, 20, [HOST, LOCAL_DOMAIN], [])
  {
    LocalWellFormed();
    var packet;
    w, packet := LocalTwice();
    p := w.packet[..];
    WrittenBegins(w.view, p, TWICE);
    TwiceOnly(p);
    TwiceUnreadable(p);
    SearchStops(p, 20, [HOST, LOCAL_DOMAIN], 12);
    DropsExact(p, 20, [HOST, LOCAL_DOMAIN], []);
    n := w.AppendFqdn([HOST, LOCAL_DOMAIN], [], 20, 2, []);
  }
}
