/** Names spelled in the data of TXT records: the encoder takes them for names of the packet. */
module TextLimits {
  import opened Bytes
  import opened Names
  import opened RoundTrip
  import opened Pointers
  import opened Search
  import opened Tidy
  import opened Encoder
  import opened Records
  import opened TidyRecords
  import opened RecordWriter
  import opened Dispatch
  import opened Parser
  import opened Limits

  // ---------------------------------------------------------------------------------------------------------
  // A TXT record with a name in it

  /** Labels written out, and then a pointer to the second byte of the packet, which is zero. */
  function Spelled(labels: seq<seq<byte>>): (s: seq<byte>)
    ensures s != []
  {
    if labels == [] then [0xC0, 1] else [LowByte(|labels[0]|)] + labels[0] + Spelled(labels[1..])
  }

  const SERVER: Server := Server([104, 104], [])

  const OWNER: seq<seq<byte>> := InstanceFqdn([97, 98], [95, 120], UDP)

  /** The service `ab._x._udp` with one item, `k=` and the spelled name. */
  function Spelling(labels: seq<seq<byte>>): Service {
    Service([97, 98], [95, 120], UDP, 0, 0, 0, [TxtItem([107], Spelled(labels))])
  }

  /** Owner, fixed part, RDLENGTH, the length of the string, and `k=`. */
  function Lead(n: nat): seq<int> {
    [2, 97, 98, 2, 95, 120, 4, 95, 117, 100, 112, 5, 108, 111, 99, 97, 108, 0, 0, 16, 0, 1, 0, 0, 17, 148, 0, n + 3,
      n + 2, 107, 61]
  }

  /** The place of the spelled name. */
  const AT: nat := 43

  /** The packet with that record, up to the spelled name. */
  function Before(n: nat): (v: seq<int>)
    ensures |v| == AT && v[1] == 0 && forall k :: 0 <= k < 31 ==> v[12 + k] == Lead(n)[k]
  {
    OpenHeader(FLAGS_AUTHORITATIVE) + Lead(n)
  }

  function WithText(labels: seq<seq<byte>>): seq<int> {
    Before(|Spelled(labels)|) + Spelled(labels)
  }

  lemma TextBytes1(s: seq<byte>)
    requires |s| < 250
    ensures TxtData([TxtItem([107], s)]) == [|s| + 2, 107, 61] + s
  {
    var item := TxtItem([107], s);
    assert [item][1..] == [];
    var text := TxtString(item);
    assert text == [107, 61] + s;
    assert CharacterString(text) == [|text|] + text;
    assert TxtStrings([item]) == CharacterString(text) + TxtStrings([]);
  }

  lemma WireNext(a: seq<byte>, rest: seq<seq<byte>>)
    requires |a| < 256
    ensures Wire([a] + rest) == [|a|] + a + Wire(rest)
  {
    assert ([a] + rest)[1..] == rest;
    assert CharacterString(a) == [|a|] + a;
  }

  lemma TwoWires(a: seq<byte>, b: seq<byte>, rest: seq<seq<byte>>, two: seq<byte>)
    requires |a| < 256 && |b| < 256 && two == [|a|] + a + [|b|] + b
    ensures Wire([a] + ([b] + rest)) == two + Wire(rest)
  {
    WireNext(a, [b] + rest);
    WireNext(b, rest);
    assert [|a|] + a + ([|b|] + b + Wire(rest)) == two + Wire(rest);
  }

  const OWNER_HEAD: seq<byte> := [2, 97, 98, 2, 95, 120]
  const OWNER_TAIL: seq<byte> := [4, 95, 117, 100, 112, 5, 108, 111, 99, 97, 108]

  lemma OwnerBytes()
    ensures Wire(OWNER) == OWNER_HEAD + (OWNER_TAIL + [0])
  {
    var a, b, c, d: seq<byte> := [97, 98], [95, 120], [95, 117, 100, 112], [108, 111, 99, 97, 108];
    assert OWNER == [a] + ([b] + ([c] + ([d] + [])));
    assert OWNER_HEAD == [|a|] + a + [|b|] + b;
    assert OWNER_TAIL == [|c|] + c + [|d|] + d;
    TwoWires(a, b, [c] + ([d] + []), OWNER_HEAD);
    TwoWires(c, d, [], OWNER_TAIL);
  }

  lemma OwnerIsTame()
    ensures Tame(true)(OWNER)
  {
    assert Lower(UDP[1]) != Lower(SUB[1]);
    assert TameLabel(OWNER[0]) && TameLabel(OWNER[1]) && TameLabel(OWNER[2]) && TameLabel(OWNER[3]);
  }

  const FIXED: seq<int> := [0, 16, 0, 1, 0, 0, 17, 148]

  lemma LeadIs(n: nat)
    ensures Lead(n) == OWNER_HEAD + (OWNER_TAIL + [0]) + FIXED + [0, n + 3, n + 2, 107, 61]
  {
  }

  lemma FixedBytes()
    ensures Fixed(TYPE_TXT, Class(false), TXT_TTL) == FIXED
  {
  }

  lemma PatchJoin(a: seq<int>, data: seq<int>, x: nat)
    requires x < 256
    ensures Patch(a + [HOLE, HOLE] + data, |a|, x) == a + [0, x] + data
  {
  }

  lemma JoinLead(h: seq<int>, owner: seq<int>, fixed: seq<int>, n: nat, s: seq<int>)
    ensures h + owner + fixed + [0, n + 3] + ([n + 2, 107, 61] + s)
         == h + (owner + fixed + [0, n + 3, n + 2, 107, 61]) + s
  {
  }

  lemma TextView(s: seq<byte>)
    requires |s| < 250
    ensures TextBytes(OpenHeader(FLAGS_AUTHORITATIVE), OWNER, false, TXT_TTL, TxtData([TxtItem([107], s)]))
        == Before(|s|) + s
  {
    var h, data := OpenHeader(FLAGS_AUTHORITATIVE), [|s| + 2, 107, 61] + s;
    TextBytes1(s);
    OwnerBytes();
    FixedBytes();
    var head := h + Wire(OWNER) + FIXED;
    assert |head| == 38;
    PatchJoin(head, data, |s| + 3);
    JoinLead(h, Wire(OWNER), FIXED, |s|, s);
    LeadIs(|s|);
  }

  lemma OwnerTame(s: seq<byte>)
    requires |s| < 250
    ensures TameFixed(TYPE_TXT, TXT_TTL) && |TxtData([TxtItem([107], s)])| == |s| + 3
    ensures WireSize(OWNER) == 18
  {
    OwnerBytes();
    TextBytes1(s);
    assert |Wire(OWNER)| == WireSize(OWNER);
  }

  /** A packet with that record, as the serialiser writes it. */
  method WriteText(labels: seq<seq<byte>>) returns (w: Writer)
    requires |Spelled(labels)| < 250
    ensures fresh(w) && fresh(w.packet) && w.Valid() && w.blank && w.complete && w.view == WithText(labels)
  {
    var s := Spelled(labels);
    w := BeginPacket();
    HeaderTidy(FLAGS_AUTHORITATIVE);
    OwnerIsTame();
    OwnerTame(s);
    TextView(s);
    var n; ghost var p;
    n, p := AppendTxtRecord(w, Spelling(labels), SERVER, false, false);
  }

  // ---------------------------------------------------------------------------------------------------------
  // The spelled name

  lemma SpelledThere(v: seq<int>, pre: seq<int>, labels: seq<seq<byte>>, post: seq<int>)
    requires v == pre + Spelled(labels) + post && Readable(labels) && |pre| > 1 && pre[1] == 0
    ensures Flatten(v, |pre|, |pre|).Flat? && Flatten(v, |pre|, |pre|).items == Literals(labels) + [Jump]
  {
    var i := |pre|;
    var j := SpelledLabels(v, pre, labels, post);
    assert Agrees(v, v) && v[1] == 0;
    FlattenSpelt(v, v, i, i, labels, j);
    assert Flatten(v, 1, 1) == Flat([], 2);
    assert [Jump] + [] == [Jump];
    assert Flatten(v, i, j) == Flat([Jump], j + 2);
  }

  lemma {:induction false} SpelledLabels(v: seq<int>, pre: seq<int>, labels: seq<seq<byte>>, post: seq<int>)
    returns (j: nat)
    requires v == pre + Spelled(labels) + post && Readable(labels)
    ensures |pre| <= j && j + 1 < |v| && Spelt(v, |pre|, labels, j) && v[j] == 0xC0 && v[j + 1] == 1
    decreases |labels|
  {
    if labels == [] {
      j := |pre|;
      assert v[j] == 0xC0 && v[j + 1] == 1;
    } else {
      var l := labels[0];
      ReadableTail(labels);
      FirstSpelled(v, pre, l, Spelled(labels[1..]), post);
      j := SpelledLabels(v, pre + [|l|] + l, labels[1..], post);
    }
  }

  lemma ReadableTail(labels: seq<seq<byte>>)
    requires Readable(labels) && labels != []
    ensures Readable(labels[1..]) && IsReadable(labels[0])
  {
    assert forall k :: 0 <= k < |labels[1..]| ==> labels[1..][k] == labels[k + 1];
  }

  lemma FirstSpelled(v: seq<int>, pre: seq<int>, l: seq<byte>, rest: seq<byte>, post: seq<int>)
    requires v == pre + ([LowByte(|l|)] + l + rest) + post && |l| < 64
    ensures v[|pre|] == |l| && v[|pre| + 1..|pre| + 1 + |l|] == l && v == pre + [|l|] + l + rest + post
  {
    var w := pre + [|l|] + l + rest + post;
    assert v == w;
    assert w[|pre| + 1..|pre| + 1 + |l|] == l;
  }

  lemma LiteralsSolid(labels: seq<seq<byte>>)
    ensures Solid(Literals(labels) + [Jump])
  {
  }

  /** What is written out of a name before the pointer. */
  function Front(strings: seq<seq<byte>>): seq<byte> {
    if strings == [] then [] else [LowByte(|strings[0]|)] + strings[0] + Front(strings[1..])
  }

  lemma {:induction false} FrontSpelt(v: seq<int>, pre: seq<int>, strings: seq<seq<byte>>)
    requires v == pre + Front(strings) && Readable(strings)
    ensures Spelt(v, |pre|, strings, |v|)
    decreases |strings|
  {
    if strings == [] {
      assert v == pre;
    } else {
      var l, rest := strings[0], Front(strings[1..]);
      ReadableTail(strings);
      assert v == pre + ([LowByte(|l|)] + l + rest) + [];
      FirstSpelled(v, pre, l, rest, []);
      assert v == pre + [|l|] + l + rest;
      FrontSpelt(v, pre + [|l|] + l, strings[1..]);
    }
  }

  /**
   * A name spelled in the value of a TXT item is a candidate like any other. A name behind it of which `k` labels are
   * written out and that then points to it reads back if and only if the spelled name is exact.
   */
  lemma TextCandidate(labels: seq<seq<byte>>, items: seq<Item>, strings: seq<seq<byte>>, k: nat, q: seq<int>)
    requires WellFormed(strings) && k < |strings| && Readable(labels)
    requires items == Literals(labels) + [Jump] && Matches(items, strings[k..])
    requires Agrees(WithText(labels) + Front(strings[..k]) + PointerBytes(AT), q)
    ensures var v := WithText(labels) + Front(strings[..k]);
      && Occurs(v, AT, strings[k..])
      && (ReadsBackAt(q, |WithText(labels)|, strings, |v| + 2) <==> Exact(items, |strings| - k, |strings|))
  {
    var s, base := Spelled(labels), |WithText(labels)|;
    var v := WithText(labels) + Front(strings[..k]);
    assert v == Before(|s|) + s + Front(strings[..k]);
    WellFormedReadable(strings[..k]);
    SpelledThere(v, Before(|s|), labels, Front(strings[..k]));
    FrontSpelt(v, WithText(labels), strings[..k]);
    LiteralsSolid(labels);
    InsideEnds(v, AT, AT);
    assert Agrees(v, v);
    PointerExact(v, v, q, base, k, AT, strings);
  }

  // ---------------------------------------------------------------------------------------------------------
  // Where a label stands

  /** The length of a label and its first two characters. */
  predicate Marked(v: seq<int>, o: nat, s: seq<int>)
    requires |s| >= 2
  {
    o + 2 < |v| && v[o] == |s| && v[o + 1] == s[0] && v[o + 2] == s[1]
  }

  lemma OnlyMarked(v: seq<int>, p: seq<int>, s: seq<byte>, at: nat)
    requires Over(v, p) && ZeroFrom(p, |v|) && 2 <= |s| < 64 && s[0] != 0 && s[1] != 0
    requires forall o :: 0 <= o < |v| && Marked(v, o, s) ==> o == at
    ensures OnlyAt(p, |v|, s, at)
  {
    forall o | 0 <= o < |v| && Starts(p, o, s)
      ensures o == at
    {
      assert p[o + 1..o + 1 + |s|][0] == p[o + 1] == s[0] && p[o + 1..o + 1 + |s|][1] == p[o + 2] == s[1];
      assert o + 2 < |v|;
      assert Marked(v, o, s);
    }
  }

  /** Before the spelled name none of three labels stands. */
  lemma LeadLengths(n: nat)
    requires 6 <= n < 250
    ensures |Lead(n)| == 31
    ensures forall k :: 0 <= k < 31 && Lead(n)[k] == 5 ==> k == 11
    ensures forall k :: 0 <= k < 31 && Lead(n)[k] == 4 ==> k == 6
    ensures forall k :: 0 <= k < 31 && Lead(n)[k] == 2 ==> k == 0 || k == 3
    ensures Lead(n)[1] == 97 && Lead(n)[4] == 95 && Lead(n)[5] == 120 && Lead(n)[8] == 117 && Lead(n)[12] == 108
  {
  }

  lemma LeadUnmarked(n: nat, v: seq<int>, o: nat)
    requires 6 <= n < 250 && Before(n) <= v && o < AT
    ensures !Marked(v, o, HTTP) && !Marked(v, o, TCP) && !Marked(v, o, MINE)
  {
    LeadLengths(n);
    var b := Before(n);
    assert v[o] == b[o];
    if o >= 12 {
      assert v[o] == Lead(n)[o - 12];
      assert v[13] == b[13] && v[16] == b[16] && v[17] == b[17] && v[20] == b[20] && v[24] == b[24];
      assert b[13] == Lead(n)[1] && b[16] == Lead(n)[4] && b[17] == Lead(n)[5] && b[20] == Lead(n)[8];
      assert b[24] == Lead(n)[12];
    }
  }

  // ---------------------------------------------------------------------------------------------------------
  // A trailing `_sub`

 lemma FoldTwo(a: seq<int>, b: seq<int>)
    requires WellFormedLabel(a) && WellFormedLabel(b) && !JoinsHost(b)
    ensures Fold(Fresh(false), [Label(a), Label(b)]) == Name([a, b, [], []], 2, false, false)
  {
    CStrWhole(a);
    CStrWhole(b);
    FoldAppend(Fresh(false), [], Label(a));
    FoldAppend(Fresh(false), [Label(a)], Label(b));
    assert [] + [Label(a)] == [Label(a)] && [Label(a)] + [Label(b)] == [Label(a), Label(b)];
    assert Store(Fresh(false), Label(a)) == Started(a);
    assert Store(Started(a), Label(b)) == Name([a, b, [], []], 2, false, false);
  }

  lemma {:induction false} FoldAppend(n: Name, items: seq<Item>, item: Item)
    requires n.Valid() && Short(items) && ShortItem(item)
    ensures Short(items + [item]) && Fold(n, items + [item]) == Store(Fold(n, items), item)
    decreases |items|
  {
    if items == [] {
      assert [] + [item] == [item] && [item][1..] == [];
      assert Fold(Store(n, item), []) == Store(n, item);
    } else {
      assert (items + [item])[1..] == items[1..] + [item];
      FoldAppend(Store(n, items[0]), items[1..], item);
    }
  }

  lemma FoldSub(a: seq<int>, b: seq<int>)
    requires WellFormedLabel(a) && WellFormedLabel(b) && !JoinsHost(b)
    ensures var items := [Label(a), Label(b)] + [Label(SUB_LABEL)] + [Jump];
      Short(items) && Fold(Fresh(false), items) == Name([a, b, [], []], 2, true, false)
  {
    var two := [Label(a), Label(b)];
    FoldTwo(a, b);
    CStrWhole(SUB_LABEL);
    FoldAppend(Fresh(false), two, Label(SUB_LABEL));
    FoldAppend(Fresh(false), two + [Label(SUB_LABEL)], Jump);
  }

  const SUB_LABELS: seq<seq<byte>> := [TCP, HOST, SUB_LABEL]

  /** `_tcp.local._sub` */
  const SUB_SPELLED: seq<byte> := [4, 95, 116, 99, 112, 5, 108, 111, 99, 97, 108, 4, 95, 115, 117, 98, 0xC0, 1]

  lemma SubSpelled()
    ensures Spelled(SUB_LABELS) == SUB_SPELLED && Readable(SUB_LABELS)
  {
    assert SUB_LABELS[1..] == [HOST, SUB_LABEL] && [HOST, SUB_LABEL][1..] == [SUB_LABEL] && [SUB_LABEL][1..] == [];
    assert Spelled([SUB_LABEL]) == [4, 95, 115, 117, 98, 0xC0, 1];
    assert Spelled([HOST, SUB_LABEL]) == [5, 108, 111, 99, 97, 108] + Spelled([SUB_LABEL]);
  }

  lemma SubMatches()
    ensures Matches(Literals(SUB_LABELS) + [Jump], [TCP, HOST])
    ensures !Exact(Literals(SUB_LABELS) + [Jump], 2, 3)
  {
    LabelsWellFormed();
    FoldSub(TCP, HOST);
    assert Literals(SUB_LABELS) + [Jump] == [Label(TCP), Label(HOST)] + [Label(SUB_LABEL)] + [Jump];
    NotExact(SUB_LABELS);
  }

  /** Every spelled label counts. */
  lemma NotExact(labels: seq<seq<byte>>)
    ensures |Labels(Literals(labels) + [Jump])| == |labels|
  {
    LiteralLabels(labels);
    LabelsAppend(Literals(labels), [Jump]);
  }

  lemma SubLengths()
    ensures forall k :: 0 <= k < 18 && SUB_SPELLED[k] == 4 ==> k == 0 || k == 11
    ensures forall k :: 0 <= k < 18 && SUB_SPELLED[k] == 5 ==> k == 5
    ensures SUB_SPELLED[6] == 108 && SUB_SPELLED[13] == 115
  {
  }

  lemma SubMarks(v: seq<int>, front: seq<byte>)
    requires v == WithText(SUB_LABELS) + front && (front == [] || front == [5, 95, 104, 116, 116, 112])
    ensures forall o :: 0 <= o < |v| && Marked(v, o, TCP) ==> o == AT
    ensures front == [] ==> forall o :: 0 <= o < |v| ==> !Marked(v, o, HTTP)
  {
    forall o | 0 <= o < |v|
      ensures Marked(v, o, TCP) ==> o == AT
      ensures front == [] ==> !Marked(v, o, HTTP)
    {
      SubSpelled();
      if o < AT {
        LeadUnmarked(18, v, o);
      } else {
        SubMark(v, front, o);
      }
    }
  }

  lemma SubMark(v: seq<int>, front: seq<byte>, o: nat)
    requires |v| == AT + 18 + |front| && v[AT..AT + 18] == SUB_SPELLED && v[AT + 18..] == front && AT <= o < |v|
    requires front == [] || front == [5, 95, 104, 116, 116, 112]
    ensures Marked(v, o, TCP) ==> o == AT
    ensures front == [] ==> !Marked(v, o, HTTP)
  {
    SubLengths();
    if o < AT + 18 {
      assert v[o] == v[AT..AT + 18][o - AT];
      assert v[AT + 6] == v[AT..AT + 18][6] && v[AT + 13] == v[AT..AT + 18][13];
    } else {
      assert v[o] == v[AT + 18..][o - AT - 18];
    }
  }

  /** Behind the first label the search finds the text. */
  lemma SubSecond(q: seq<byte>, v: seq<int>, s: seq<byte>)
    requires s == [5, 95, 104, 116, 116, 112] && v == WithText(SUB_LABELS) + s
    requires |q| == MAX_PACKET_SIZE && Over(v, q) && ZeroFrom(q, |v|) && |v| < 100
    ensures Encode(q, |v|, [TCP, HOST], []) == Coded(PointerBytes(AT))
  {
    SubMarks(v, s);
    OnlyMarked(v, q, TCP, AT);
    SubOccurs(v, q);
    SearchOnly(q, |v|, [TCP, HOST], AT);
  }

  lemma SubEncoded(p: seq<byte>)
    requires |p| == MAX_PACKET_SIZE && Over(WithText(SUB_LABELS), p) && ZeroFrom(p, |WithText(SUB_LABELS)|)
    ensures Encode(p, |WithText(SUB_LABELS)|, [HTTP, TCP, HOST], []) == Coded(CharacterString(HTTP) + PointerBytes(AT))
  {
    var v, s := WithText(SUB_LABELS), CharacterString(HTTP);
    var strings, rest := [HTTP, TCP, HOST], [TCP, HOST];
    SubSpelled();
    assert v + [] == v && strings[1..] == rest && s == [5, 95, 104, 116, 116, 112];
    SubMarks(v, []);
    OnlyMarked(v, p, HTTP, |v|);
    SearchNone(p, |v|, strings);
    FilledNext(p, Overlay(p, |v|, s), v, s);
    SubSecond(Overlay(p, |v|, s), v + s, s);
    EncodeFollows(p, |v|, strings, rest, s, PointerBytes(AT));
  }

  lemma SubOccurs(v: seq<int>, q: seq<int>)
    requires v == WithText(SUB_LABELS) + CharacterString(HTTP) && Over(v, q)
    ensures Occurs(q, AT, [TCP, HOST])
  {
    SubCandidate(v + PointerBytes(AT));
    SubSpelled();
    LiteralsSolid(SUB_LABELS);
    SpelledThere(v, Before(18), SUB_LABELS, CharacterString(HTTP));
    assert Agrees(v, q);
    FlattenStable(v, q, AT, AT);
  }

  lemma SubParts()
    ensures WellFormed([HTTP, TCP, HOST]) && [HTTP, TCP, HOST][1..] == [TCP, HOST] && [HTTP, TCP, HOST][..1] == [HTTP]
    ensures Front([HTTP]) == CharacterString(HTTP) && |CharacterString(HTTP)| == 6
  {
    LabelsWellFormed();
    assert [HTTP][1..] == [];
  }

  lemma SubCandidate(q: seq<int>)
    requires Agrees(WithText(SUB_LABELS) + CharacterString(HTTP) + PointerBytes(AT), q)
    ensures Occurs(WithText(SUB_LABELS) + CharacterString(HTTP), AT, [TCP, HOST])
    ensures !ReadsBackAt(q, |WithText(SUB_LABELS)|, [HTTP, TCP, HOST], |WithText(SUB_LABELS)| + 8)
  {
    SubMatches();
    SubSpelled();
    SubParts();
    TextCandidate(SUB_LABELS, Literals(SUB_LABELS) + [Jump], [HTTP, TCP, HOST], 1, q);
  }

  lemma LabelsWellFormed()
    ensures WellFormedLabel(HTTP) && WellFormedLabel(TCP) && WellFormedLabel(HOST) && WellFormedLabel(MINE)
  {
    assert Lower(TCP[1]) != Lower(SUB[1]);
  }

  lemma ServiceWellFormed()
    ensures WellFormedLabels([HTTP, TCP, HOST]) && WellFormed([HTTP, TCP, HOST])
    ensures WireSize([HTTP, TCP, HOST]) == 18
  {
    LabelsWellFormed();
    assert |HTTP| == 5 && |TCP| == 4 && |HOST| == 5;
    assert [HTTP, TCP, HOST][1..] == [TCP, HOST] && [TCP, HOST][1..] == [HOST] && [HOST][1..] == [];
    assert WireSize([HOST]) == 7;
    assert WireSize([TCP, HOST]) == 12;
  }

  /** What the encoder has written then. */
  lemma EncodedView(p: seq<int>, v: seq<int>, w: seq<int>, strings: seq<seq<byte>>, bytes: seq<int>)
    requires Encode(p, |v|, strings, []) == Coded(bytes)
    ensures !DroppedIn(strings, [])(p, |v|)
    ensures EncodedAs(strings, [])(p, v, w) ==> w == v + bytes
  {
  }

  /** The name behind the text, written by the encoder with no flag raised. */
  method WriteBehind(w: Writer, strings: seq<seq<byte>>, ghost bytes: seq<int>)
    requires w.Valid() && w.complete && WellFormedLabels(strings) && w.index + WireSize(strings) < MAX_PACKET_SIZE
    requires Encode(w.packet[..], w.index, strings, []) == Coded(bytes)
    modifies w, w.packet
    ensures w.Valid() && w.view == old(w.view) + bytes
  {
    ghost var p, v := w.packet[..], w.view;
    EncodedView(p, v, v, strings, bytes);
    var n := w.AppendFqdn(strings, [], w.index, |strings|, []);
    EncodedView(p, v, w.view, strings, bytes);
  }

  /**
   * The service `ab._x._udp` has a TXT value that spells `_tcp.local._sub`. Behind its TXT record the serialiser writes
   * `_http._tcp.local`, when the flags of the searches are not raised: it points into the value, and the name does not
   * read back.
   */
  method SubInText() returns (packet: seq<byte>, base: nat)
    ensures base <= |packet| && WellFormed([HTTP, TCP, HOST]) && !ReadsBackAt(packet, base, [HTTP, TCP, HOST], |packet|)
  {
    SubSpelled();
    ServiceWellFormed();
    var w := WriteText(SUB_LABELS);
    base := w.index;
    SubEncoded(w.packet[..]);
    WriteBehind(w, [HTTP, TCP, HOST], CharacterString(HTTP) + PointerBytes(AT));
    packet := w.packet[..w.index];
    SubBytes(w.view, packet);
  }

  lemma SubBytes(v: seq<int>, packet: seq<int>)
    requires v == WithText(SUB_LABELS) + (CharacterString(HTTP) + PointerBytes(AT))
    requires Agrees(v, packet) && |v| == |packet|
    ensures !ReadsBackAt(packet, |WithText(SUB_LABELS)|, [HTTP, TCP, HOST], |packet|)
  {
    assert v == WithText(SUB_LABELS) + CharacterString(HTTP) + PointerBytes(AT);
    assert |CharacterString(HTTP)| == 6;
    SubCandidate(packet);
  }

  // ---------------------------------------------------------------------------------------------------------
  // A fifth label

  lemma FoldFour(a: seq<int>, b: seq<int>, c: seq<int>, d: seq<int>)
    requires WellFormedLabel(a) && WellFormedLabel(b) && !JoinsHost(b) && WellFormedLabel(c) && WellFormedLabel(d)
    ensures var four := [Label(a), Label(b)] + [Label(c)] + [Label(d)];
      Short(four) && Fold(Fresh(false), four) == Name([a, b, c, d], 4, false, false)
  {
    var two := [Label(a), Label(b)];
    FoldTwo(a, b);
    CStrWhole(c);
    CStrWhole(d);
    FoldAppend(Fresh(false), two, Label(c));
    FoldAppend(Fresh(false), two + [Label(c)], Label(d));
  }

  lemma FoldFive(a: seq<int>, b: seq<int>, c: seq<int>, d: seq<int>)
    requires WellFormedLabel(a) && WellFormedLabel(b) && !JoinsHost(b) && WellFormedLabel(c) && WellFormedLabel(d)
    ensures var items := [Label(a), Label(b)] + [Label(c)] + [Label(d)] + [Label(d)] + [Jump];
      Short(items) && Fold(Fresh(false), items) == Name([a, b, c, d], 4, false, true)
  {
    var four := [Label(a), Label(b)] + [Label(c)] + [Label(d)];
    FoldFour(a, b, c, d);
    CStrWhole(d);
    FoldAppend(Fresh(false), four, Label(d));
    FoldAppend(Fresh(false), four + [Label(d)], Jump);
  }

  const FIFTH_LABELS: seq<seq<byte>> := [MINE, HTTP, TCP, HOST, HOST]

  const INSTANCE: seq<seq<byte>> := [MINE, HTTP, TCP, HOST]

  /** `my._http._tcp.local.local` */
  const FIFTH_SPELLED: seq<byte> := FIFTH_HEAD + FIFTH_TAIL
  const FIFTH_HEAD: seq<byte> := [2, 109, 121, 5, 95, 104, 116, 116, 112, 4, 95, 116, 99, 112]
  const FIFTH_TAIL: seq<byte> := [5, 108, 111, 99, 97, 108, 5, 108, 111, 99, 97, 108, 0xC0, 1]

  lemma SpelledNext(a: seq<byte>, rest: seq<seq<byte>>)
    requires |a| < 64
    ensures Spelled([a] + rest) == [|a|] + a + Spelled(rest)
  {
    assert ([a] + rest)[1..] == rest && LowByte(|a|) == |a|;
  }

  lemma HostsSpelled()
    ensures Spelled([HOST] + ([HOST] + [])) == FIFTH_TAIL
  {
    SpelledNext(HOST, [HOST] + []);
    SpelledNext(HOST, []);
  }

  /** Three labels in front of others. */
  lemma ThreeSpelled(a: seq<byte>, b: seq<byte>, c: seq<byte>, rest: seq<seq<byte>>, three: seq<byte>)
    requires |a| < 64 && |b| < 64 && |c| < 64 && three == [|a|] + a + [|b|] + b + [|c|] + c
    ensures Spelled([a] + ([b] + ([c] + rest))) == three + Spelled(rest)
  {
    SpelledNext(a, [b] + ([c] + rest));
    SpelledNext(b, [c] + rest);
    SpelledNext(c, rest);
    assert [|a|] + a + ([|b|] + b + ([|c|] + c + Spelled(rest))) == three + Spelled(rest);
  }

  lemma FifthSpelled()
    ensures Spelled(FIFTH_LABELS) == FIFTH_SPELLED
  {
    assert FIFTH_LABELS == [MINE] + ([HTTP] + ([TCP] + ([HOST] + ([HOST] + []))));
    assert FIFTH_HEAD == [|MINE|] + MINE + [|HTTP|] + HTTP + [|TCP|] + TCP;
    ThreeSpelled(MINE, HTTP, TCP, [HOST] + ([HOST] + []), FIFTH_HEAD);
    HostsSpelled();
  }

  lemma FifthLengths()
    ensures |FIFTH_SPELLED| == 28 && forall k :: 0 <= k < 28 && FIFTH_SPELLED[k] == 2 ==> k == 0
  {
    assert forall k :: 0 <= k < 14 ==> FIFTH_SPELLED[k] == FIFTH_HEAD[k];
    assert forall k :: 0 <= k < 14 ==> FIFTH_SPELLED[14 + k] == FIFTH_TAIL[k];
    assert forall k :: 0 <= k < 14 && FIFTH_HEAD[k] == 2 ==> k == 0;
    assert forall k :: 0 <= k < 14 ==> FIFTH_TAIL[k] != 2;
    forall k | 0 <= k < 28
      ensures FIFTH_SPELLED[k] == 2 ==> k == 0
    {
      if k < 14 {
        assert FIFTH_SPELLED[k] == FIFTH_HEAD[k];
      } else {
        assert FIFTH_SPELLED[14 + (k - 14)] == FIFTH_TAIL[k - 14];
      }
    }
  }

  lemma FifthReadable()
    ensures Readable(FIFTH_LABELS)
  {
  }

  lemma FifthMatches()
    ensures Matches(Literals(FIFTH_LABELS) + [Jump], INSTANCE) && !Exact(Literals(FIFTH_LABELS) + [Jump], 4, 4)
  {
    LabelsWellFormed();
    FoldFive(MINE, HTTP, TCP, HOST);
    assert Literals(FIFTH_LABELS) + [Jump]
        == [Label(MINE), Label(HTTP)] + [Label(TCP)] + [Label(HOST)] + [Label(HOST)] + [Jump];
    NotExact(FIFTH_LABELS);
  }

  lemma FifthMarks(v: seq<int>)
    requires v == WithText(FIFTH_LABELS)
    ensures forall o :: 0 <= o < |v| && Marked(v, o, MINE) ==> o == AT
  {
    forall o | 0 <= o < |v|
      ensures Marked(v, o, MINE) ==> o == AT
    {
      FifthSpelled();
      FifthLengths();
      if o < AT {
        LeadUnmarked(28, v, o);
      } else {
        assert v[o] == FIFTH_SPELLED[o - AT];
      }
    }
  }

  lemma FifthCandidate(q: seq<int>)
    requires Agrees(WithText(FIFTH_LABELS) + PointerBytes(AT), q)
    ensures Occurs(WithText(FIFTH_LABELS), AT, INSTANCE) && WellFormed(INSTANCE) && WellFormedLabels(INSTANCE)
    ensures !ReadsBackAt(q, |WithText(FIFTH_LABELS)|, INSTANCE, |WithText(FIFTH_LABELS)| + 2)
  {
    LabelsWellFormed();
    FifthMatches();
    FifthReadable();
    assert INSTANCE[0..] == INSTANCE && INSTANCE[..0] == [];
    assert WithText(FIFTH_LABELS) + Front([]) == WithText(FIFTH_LABELS);
    TextCandidate(FIFTH_LABELS, Literals(FIFTH_LABELS) + [Jump], INSTANCE, 0, q);
  }

  lemma FifthEncoded(p: seq<byte>)
    requires |p| == MAX_PACKET_SIZE && Over(WithText(FIFTH_LABELS), p) && ZeroFrom(p, |WithText(FIFTH_LABELS)|)
    ensures Encode(p, |WithText(FIFTH_LABELS)|, INSTANCE, []) == Coded(PointerBytes(AT))
  {
    var v := WithText(FIFTH_LABELS);
    FifthSpelled();
    FifthLengths();
    FifthReadable();
    FifthMarks(v);
    OnlyMarked(v, p, MINE, AT);
    FifthCandidate(v + PointerBytes(AT));
    LiteralsSolid(FIFTH_LABELS);
    assert v == Before(28) + Spelled(FIFTH_LABELS) + [];
    SpelledThere(v, Before(28), FIFTH_LABELS, []);
    assert Agrees(v, p);
    FlattenStable(v, p, AT, AT);
    SearchOnly(p, |v|, INSTANCE, AT);
  }

  lemma InstanceSize()
    ensures WireSize(INSTANCE) == 21
  {
    ServiceWellFormed();
    assert INSTANCE[1..] == [HTTP, TCP, HOST] && |MINE| == 2;
  }

  /**
   * A TXT value that spells `my._http._tcp.local.local`: the instance name `my._http._tcp.local` behind it points
   * there, and does not read back.
   */
  method FifthInText() returns (packet: seq<byte>, base: nat)
    ensures base <= |packet| && WellFormed(INSTANCE) && !ReadsBackAt(packet, base, INSTANCE, |packet|)
  {
    FifthSpelled();
    InstanceSize();
    var w := WriteText(FIFTH_LABELS);
    base := w.index;
    FifthEncoded(w.packet[..]);
    FifthCandidate(WithText(FIFTH_LABELS) + PointerBytes(AT));
    WriteBehind(w, INSTANCE, PointerBytes(AT));
    packet := w.packet[..w.index];
    FifthCandidate(packet);
  }
}
