/** Records and questions that keep a packet tidy. */
module TidyRecords {
  import opened Bytes
  import opened Tidy
  import opened Encoder
  import opened Records

  /** RDATA in which nothing looks like a label, not even together with the RDLENGTH in front of it. */
  predicate QuietData(bytes: seq<int>) {
    |bytes| < 256 && Quiet(bytes) && !Looks([|bytes|] + bytes, 0)
  }

  /** The same as a function of the bytes; unless the buffer is blank, they must not seem to go on behind their end. */
  function QuietBytes(blank: bool): seq<int> -> bool {
    (bytes: seq<int>) => QuietData(bytes) && (blank || !Dangles(bytes))
  }

  /** A port that does not look like the length of a short label, or like one with a character behind it. */
  predicate SteadyPort(port: nat) {
    !(2 <= port % 256 < FRONT) && !(2 <= port / 256 < FRONT && LabelByte(port % 256))
  }

  predicate TameData(blank: bool, d: Rdata) {
    match d
    case Target(name) => Tame(blank)(name)
    case Location(priority, weight, port, host) =>
      priority == 0 && weight == 0 && (blank || SteadyPort(port)) && Tame(blank)(host)
    case Raw(bytes) => QuietBytes(blank)(bytes)
  }

  /** The types and TTLs of the responder. */
  predicate TameFixed(rtype: nat, ttl: nat) {
    rtype < 256 && (ttl == 0 || ttl == 120 || ttl == 4500)
  }

  predicate TameRecord(blank: bool, r: Record) {
    Tame(blank)(r.owner) && TameFixed(r.rtype, r.ttl) && TameData(blank, r.data)
  }

  predicate TameQuestion(blank: bool, q: Question) {
    Tame(blank)(q.name) && q.qtype < 256
  }

  // ---------------------------------------------------------------------------------------------------------
  // Sizes without compression

  function DataSize(d: Rdata): nat {
    match d
    case Target(name) => WireSize(name)
    case Location(_, _, _, host) => 6 + WireSize(host)
    case Raw(bytes) => |bytes|
  }

  function RecordSize(r: Record): nat {
    WireSize(r.owner) + 10 + DataSize(r.data)
  }

  function QuestionSize(q: Question): nat {
    WireSize(q.name) + 4
  }

  // ---------------------------------------------------------------------------------------------------------
  // What keeps a packet tidy

  lemma QuietFixed(rtype: nat, clas: nat, ttl: nat)
    requires TameFixed(rtype, ttl) && (clas == CLASS_IN || clas == CLASS_IN_FLUSH)
    ensures var s := Fixed(rtype, clas, ttl) + [HOLE, HOLE]; |s| == 10 && Quiet(s) && s[0] == 0
  {
    var s := Fixed(rtype, clas, ttl) + [HOLE, HOLE];
    assert s[0] == 0 && s[1] == rtype && (s[2] == 0 || s[2] == 0x80) && s[3] == 1 && s[4] == 0 && s[5] == 0;
    assert s[6] == 0 || s[6] == 17;
    assert s[7] == 0 || s[7] == 120 || s[7] == 148;
    assert s[6] == 17 ==> s[7] == 148;
    assert s[8] == HOLE && s[9] == HOLE;
    forall j | 0 <= j < |s|
      ensures !Looks(s, j)
    {
      assert j == 1 ==> !LabelByte(s[2]);
      assert j == 6 ==> s[6] == 17 ==> !LabelByte(s[7]);
    }
  }

  /** The fixed part of a record is appended to a tidy packet. */
  lemma TidyFixed(v: seq<int>, rtype: nat, clas: nat, ttl: nat)
    requires IsTidy(v) && |v| >= FRONT && TameFixed(rtype, ttl) && (clas == CLASS_IN || clas == CLASS_IN_FLUSH)
    ensures TidyIn(v + Fixed(rtype, clas, ttl) + [HOLE, HOLE])(false)
  {
    QuietFixed(rtype, clas, ttl);
    EndsSolid(v + Fixed(rtype, clas, ttl) + [HOLE, HOLE]);
    TidyAppend(v, Fixed(rtype, clas, ttl) + [HOLE, HOLE]);
    assert v + Fixed(rtype, clas, ttl) + [HOLE, HOLE] == v + (Fixed(rtype, clas, ttl) + [HOLE, HOLE]);
  }

  /** The place of RDLENGTH, with at most the numbers of an SRV record behind it. */
  predicate OpenAt(v: seq<int>, at: nat) {
    && FRONT <= at && at + 2 <= |v| <= at + 8 && v[at] == HOLE && v[at + 1] == HOLE
    && (at + 2 < |v| ==> !LabelByte(v[at + 2]))
  }

  /** A value is filled in, with a byte behind it that is no character. */
  lemma SolidPatch(v: seq<int>, at: nat, x: nat)
    requires at + 2 < |v| && !LabelByte(v[at + 2]) && !Dangles(v)
    ensures !Dangles(Patch(v, at, x))
  {
    var w := Patch(v, at, x);
    assert forall k :: 0 <= k < |v| && k != at && k != at + 1 ==> w[k] == v[k];
    forall o | 0 <= o < |w|
      ensures !Tail(w, o)
    {
      assert o < at + 2 ==> !LabelByte(w[at + 2]);
      assert o >= at + 2 ==> !Tail(v, o);
    }
  }

  /** RDLENGTH is filled in behind a name. */
  lemma TidyLength(blank: bool, v: seq<int>, full: seq<int>, at: nat, x: nat)
    requires TidyIn(full)(blank) && OpenAt(v, at) && v <= full && |v| < |full| && x < 512
    requires at + 2 == |v| ==> !LabelByte(full[|v|])
    ensures TidyIn(Patch(full, at, x))(blank)
  {
    assert full[at] == v[at] && full[at + 1] == v[at + 1];
    var w := Patch(full, at, x);
    assert w[at + 2] == full[at + 2] && !LabelByte(w[at + 2]);
    TidyPatch(full, at, x);
    if !blank {
      SolidPatch(full, at, x);
    }
  }

  lemma QuietAppended(v: seq<int>, bytes: seq<int>)
    requires IsTidy(v) && |v| > FRONT && Stopped(v) && Quiet(bytes)
    ensures IsTidy(v + bytes)
  {
    if bytes == [] {
      assert v + bytes == v;
    } else {
      TidyAppend(v, bytes);
    }
  }

  lemma LengthQuiet(w: seq<int>, at: nat, bytes: seq<int>)
    requires at + 2 + |bytes| == |w| && w[at + 1] == |bytes| && w[at + 2..] == bytes && !Looks([|bytes|] + bytes, 0)
    ensures !Looks(w, at + 1)
  {
    var s := [|bytes|] + bytes;
    assert forall k :: 0 <= k < |bytes| ==> bytes[k] == w[at + 2 + k];
    assert forall k :: 0 <= k <= |bytes| ==> s[k] == w[at + 1 + k];
  }

  lemma SolidRaw(w: seq<int>, at: nat, bytes: seq<int>)
    requires at + 2 + |bytes| == |w| && w[at] == 0 && w[at + 1] == |bytes| && w[at + 2..] == bytes && !Dangles(bytes)
    ensures !Dangles(w)
  {
    assert forall k :: 0 <= k < |bytes| ==> bytes[k] == w[at + 2 + k];
    forall o | 0 <= o < |w|
      ensures !Tail(w, o)
    {
      assert o < at ==> !LabelByte(w[at]);
      assert o >= at + 2 ==> !Tail(bytes, o - at - 2);
    }
  }

  /** RDATA that is quiet is appended, and RDLENGTH filled in. */
  lemma TidyRaw(blank: bool, v: seq<int>, bytes: seq<int>, at: nat)
    requires TidyIn(v)(blank) && FRONT <= at && at + 2 == |v| && v[at] == HOLE && v[at + 1] == HOLE
    requires QuietBytes(blank)(bytes)
    ensures TidyIn(Patch(v + bytes, at, |bytes|))(blank)
  {
    var full := v + bytes;
    QuietAppended(v, bytes);
    var w := Patch(full, at, |bytes|);
    assert w[at + 2..] == full[at + 2..] == bytes;
    LengthQuiet(w, at, bytes);
    assert full[at] == v[at] && full[at + 1] == v[at + 1];
    TidyPatch(full, at, |bytes|);
    if !blank {
      SolidRaw(w, at, bytes);
    }
  }

  /** The numbers of an SRV record with priority and weight zero. */
  lemma TidyNumbers(blank: bool, v: seq<int>, port: nat)
    requires IsTidy(v) && |v| >= FRONT && port < 0x10000 && (blank || SteadyPort(port))
    ensures TidyIn(v + (U16(0) + U16(0) + U16(port)))(blank)
  {
    var s := U16(0) + U16(0) + U16(port);
    assert s == [0, 0, 0, 0, port / 256, port % 256];
    TidyAppend(v, s);
    if !blank {
      SolidPort(v + s, port);
    }
  }

  lemma SolidPort(w: seq<int>, port: nat)
    requires |w| >= 3 && w[|w| - 3] == 0 && w[|w| - 2] == port / 256 && w[|w| - 1] == port % 256 && SteadyPort(port)
    ensures !Dangles(w)
  {
    forall o | 0 <= o < |w|
      ensures !Tail(w, o)
    {
      assert o < |w| - 3 ==> !LabelByte(w[|w| - 3]);
    }
  }

  lemma TidyQuestionFields(v: seq<int>, qtype: nat, unicast: bool)
    requires IsTidy(v) && |v| >= FRONT && qtype < 256
    ensures TidyIn(v + (U16(qtype) + U16(if unicast then 0x8001 else 0x0001)))(false)
  {
    var s := U16(qtype) + U16(if unicast then 0x8001 else 0x0001);
    assert s == [0, qtype, if unicast then 0x80 else 0, 1];
    forall j | 0 <= j < |s|
      ensures !Looks(s, j)
    {
      assert j == 1 ==> !LabelByte(s[2]);
    }
    TidyAppend(v, s);
    EndsSolid(v + s);
  }

  /** One of the four counts of the header is filled in. */
  lemma TidyCount(blank: bool, v: seq<int>, at: nat, x: nat)
    requires TidyIn(v)(blank) && HEAD_LEN <= |v| && at + 2 <= HEAD_LEN && x < 256
    requires forall k :: at <= k < HEAD_LEN ==> v[k] == HOLE
    requires at + 2 < HEAD_LEN || HEAD_LEN < |v|
    ensures TidyIn(Patch(v, at, x))(blank)
  {
    var w := Patch(v, at, x);
    assert IsTidy(v) && (at + 2 < HEAD_LEN ==> v[at + 2] == HOLE) && (at + 2 == HEAD_LEN ==> at + 2 == FRONT);
    assert w[at + 2] == v[at + 2] && !LabelByte(v[at + 2]);
    TidyPatch(v, at, x);
    if !blank {
      SolidPatch(v, at, x);
    }
  }
}
