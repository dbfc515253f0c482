/** Questions and resource records, and what it means for one to stand in a packet (section 4.1 of RFC 1035). */
module Records {
  import opened Bytes
  import opened Names
  import opened RoundTrip

  const HEAD_LEN: nat := 12
  const TYPE_A: nat := 1
  const TYPE_PTR: nat := 12
  const TYPE_TXT: nat := 16
  const TYPE_AAAA: nat := 28
  const TYPE_SRV: nat := 33
  const CLASS_IN: nat := 1
  const CLASS_IN_FLUSH: nat := 0x8001

  datatype Rdata =
    | Target(name: seq<seq<byte>>)
    | Location(priority: nat, weight: nat, port: nat, host: seq<seq<byte>>)
    | Raw(bytes: seq<byte>)

  datatype Record = Record(owner: seq<seq<byte>>, rtype: nat, clas: nat, ttl: nat, data: Rdata)

  datatype Question = Question(name: seq<seq<byte>>, qtype: nat, unicast: bool)

  /** Where an entry stands: its first byte, the first byte after its name, and the first byte after it. */
  datatype Place = Place(start: nat, head: nat, end: nat)

  predicate U16At(v: seq<int>, i: nat, x: int) {
    i + 1 < |v| && v[i] == x / 256 && v[i + 1] == x % 256 && 0 <= x < 0x10000
  }

  predicate U32At(v: seq<int>, i: nat, x: int) {
    U16At(v, i, x / 65536) && U16At(v, i + 2, x % 65536)
  }

  predicate DataAt(v: seq<int>, i: nat, d: Rdata, j: nat) {
    match d
    case Target(name) => NameAt(v, i, name, j)
    case Location(priority, weight, port, host) =>
      U16At(v, i, priority) && U16At(v, i + 2, weight) && U16At(v, i + 4, port) && NameAt(v, i + 6, host, j)
    case Raw(bytes) => j == i + |bytes| && j <= |v| && v[i..j] == bytes
  }

  /** Everything of a record but its RDATA. */
  predicate HeadAt(v: seq<int>, p: Place, r: Record) {
    && NameAt(v, p.start, r.owner, p.head)
    && U16At(v, p.head, r.rtype) && U16At(v, p.head + 2, r.clas) && U32At(v, p.head + 4, r.ttl)
    && p.head + 10 <= p.end <= |v| && U16At(v, p.head + 8, p.end - p.head - 10)
  }

  /** The record stands there, and its RDLENGTH is the size of its RDATA. */
  predicate RecordAt(v: seq<int>, p: Place, r: Record) {
    HeadAt(v, p, r) && DataAt(v, p.head + 10, r.data, p.end)
  }

  predicate QuestionAt(v: seq<int>, p: Place, q: Question) {
    && NameAt(v, p.start, q.name, p.head)
    && U16At(v, p.head, q.qtype) && U16At(v, p.head + 2, if q.unicast then 0x8001 else 1)
    && p.end == p.head + 4
  }

  function DataIn(v: seq<int>): (nat, Rdata, nat) -> bool {
    (i: nat, d: Rdata, j: nat) => DataAt(v, i, d, j)
  }

  function HeadIn(v: seq<int>): (Place, Record) -> bool {
    (p, r) => HeadAt(v, p, r)
  }

  function RecordIn(v: seq<int>): (Place, Record) -> bool {
    (p, r) => RecordAt(v, p, r)
  }

  function QuestionIn(v: seq<int>): (Place, Question) -> bool {
    (p, q) => QuestionAt(v, p, q)
  }

  /** The entries stand one after the other from `i` to `j`. */
  predicate Chain<T>(at: (Place, T) -> bool, i: nat, places: seq<Place>, xs: seq<T>, j: nat)
    decreases |xs|
  {
    if xs == [] then places == [] && i == j
    else places != [] && places[0].start == i && at(places[0], xs[0])
         && Chain(at, places[0].end, places[1..], xs[1..], j)
  }

  lemma {:induction false} ChainJoin<T>(at: (Place, T) -> bool, i: nat, ps: seq<Place>, xs: seq<T>, m: nat,
                                        qs: seq<Place>, ys: seq<T>, j: nat)
    requires Chain(at, i, ps, xs, m) && Chain(at, m, qs, ys, j)
    ensures Chain(at, i, ps + qs, xs + ys, j)
    decreases |xs|
  {
    if xs == [] {
      assert ps + qs == qs && xs + ys == ys;
    } else {
      ChainJoin(at, ps[0].end, ps[1..], xs[1..], m, qs, ys, j);
      assert (ps + qs)[1..] == ps[1..] + qs && (xs + ys)[1..] == xs[1..] + ys;
    }
  }

  lemma {:induction false} ChainWeaken<T(!new)>(at: (Place, T) -> bool, at': (Place, T) -> bool, i: nat,
                                                places: seq<Place>, xs: seq<T>, j: nat)
    requires Chain(at, i, places, xs, j)
    requires forall p, x :: at(p, x) ==> at'(p, x)
    ensures Chain(at', i, places, xs, j)
    decreases |xs|
  {
    if xs == [] {
    } else {
      ChainWeaken(at, at', places[0].end, places[1..], xs[1..], j);
    }
  }

  lemma ChainOne<T>(at: (Place, T) -> bool, p: Place, x: T)
    requires at(p, x)
    ensures Chain(at, p.start, [p], [x], p.end)
  {
    assert [p][1..] == [] && [x][1..] == [];
    assert Chain(at, p.end, [p][1..], [x][1..], p.end);
  }

  // ---------------------------------------------------------------------------------------------------------
  // Entries keep standing while the packet grows and its open places are patched

  lemma RawStable(a: seq<int>, p: seq<int>, i: nat, bytes: seq<byte>)
    requires Agrees(a, p) && i + |bytes| <= |a| && a[i..i + |bytes|] == bytes
    ensures p[i..i + |bytes|] == bytes
  {
    assert NoHole(bytes);
    SameSlice(a, p, i, i + |bytes|);
  }

  lemma DataStable(a: seq<int>, p: seq<int>, i: nat, d: Rdata, j: nat)
    requires Agrees(a, p) && DataAt(a, i, d, j)
    ensures DataAt(p, i, d, j)
  {
    match d
    case Target(name) => WrittenStable(a, p, i, i, name, |name|, j);
    case Location(_, _, _, host) => WrittenStable(a, p, i + 6, i + 6, host, |host|, j);
    case Raw(bytes) => RawStable(a, p, i, bytes);
  }

  lemma U16Stable(a: seq<int>, p: seq<int>, i: nat, x: int)
    requires Agrees(a, p) && U16At(a, i, x)
    ensures U16At(p, i, x)
  {
    assert a[i] != HOLE && a[i + 1] != HOLE;
  }

  lemma HeadStable(a: seq<int>, p: seq<int>, place: Place, r: Record)
    requires Agrees(a, p) && HeadAt(a, place, r)
    ensures HeadAt(p, place, r)
  {
    var h := place.head;
    WrittenStable(a, p, place.start, place.start, r.owner, |r.owner|, h);
    U16Stable(a, p, h, r.rtype);
    U16Stable(a, p, h + 2, r.clas);
    U16Stable(a, p, h + 4, r.ttl / 65536);
    U16Stable(a, p, h + 6, r.ttl % 65536);
    U16Stable(a, p, h + 8, place.end - h - 10);
  }

  lemma RecordStable(a: seq<int>, p: seq<int>, place: Place, r: Record)
    requires Agrees(a, p) && RecordAt(a, place, r)
    ensures RecordAt(p, place, r)
  {
    HeadStable(a, p, place, r);
    DataStable(a, p, place.head + 10, r.data, place.end);
  }

  lemma QuestionStable(a: seq<int>, p: seq<int>, place: Place, q: Question)
    requires Agrees(a, p) && QuestionAt(a, place, q)
    ensures QuestionAt(p, place, q)
  {
    WrittenStable(a, p, place.start, place.start, q.name, |q.name|, place.head);
    U16Stable(a, p, place.head, q.qtype);
    U16Stable(a, p, place.head + 2, if q.unicast then 0x8001 else 1);
  }

  lemma RecordsStable(a: seq<int>, p: seq<int>, i: nat, places: seq<Place>, rs: seq<Record>, j: nat)
    requires Agrees(a, p) && Chain(RecordIn(a), i, places, rs, j)
    ensures Chain(RecordIn(p), i, places, rs, j)
  {
    forall place, r | RecordIn(a)(place, r)
      ensures RecordIn(p)(place, r)
    {
      RecordStable(a, p, place, r);
    }
    ChainWeaken(RecordIn(a), RecordIn(p), i, places, rs, j);
  }

  lemma QuestionsStable(a: seq<int>, p: seq<int>, i: nat, places: seq<Place>, qs: seq<Question>, j: nat)
    requires Agrees(a, p) && Chain(QuestionIn(a), i, places, qs, j)
    ensures Chain(QuestionIn(p), i, places, qs, j)
  {
    forall place, q | QuestionIn(a)(place, q)
      ensures QuestionIn(p)(place, q)
    {
      QuestionStable(a, p, place, q);
    }
    ChainWeaken(QuestionIn(a), QuestionIn(p), i, places, qs, j);
  }

  // ---------------------------------------------------------------------------------------------------------
  // How a record comes to stand: name, fixed part with an open RDLENGTH, RDATA, patch

  function U16(x: nat): seq<int> {
    [x / 256, x % 256]
  }

  function Fixed(rtype: nat, clas: nat, ttl: nat): seq<int> {
    U16(rtype) + U16(clas) + U16(ttl / 65536) + U16(ttl % 65536)
  }

  function FixedPart(r: Record): seq<int> {
    Fixed(r.rtype, r.clas, r.ttl)
  }

  lemma FixedPartAt(v: seq<int>, h: nat, r: Record)
    requires Encodable(r)
    requires h + 8 <= |v| && v[h..h + 8] == FixedPart(r)
    ensures U16At(v, h, r.rtype) && U16At(v, h + 2, r.clas) && U32At(v, h + 4, r.ttl)
  {
    var w := v[h..h + 8];
    assert v[h] == w[0] && v[h + 1] == w[1] && v[h + 2] == w[2] && v[h + 3] == w[3];
    assert v[h + 4] == w[4] && v[h + 5] == w[5] && v[h + 6] == w[6] && v[h + 7] == w[7];
  }

  lemma Patched(v: seq<int>, at: nat, x: nat)
    requires at + 1 < |v| && v[at] == HOLE && v[at + 1] == HOLE
    ensures Agrees(v, Patch(v, at, x))
  {
  }

  lemma FixedBytes(named: seq<int>, fixed: seq<int>, full: seq<int>, h: nat, x: nat)
    requires |fixed| == 8 && h == |named| && named + fixed + [HOLE, HOLE] <= full
    ensures var done := Patch(full, h + 8, x);
      Agrees(full, done) && Agrees(named, done) && done[h..h + 8] == fixed
  {
    var begin := named + fixed + [HOLE, HOLE];
    assert begin[h..h + 8] == fixed && begin[h + 8] == HOLE && begin[h + 9] == HOLE;
    assert full[h..h + 8] == begin[h..h + 8] && full[h + 8] == begin[h + 8] && full[h + 9] == begin[h + 9];
    Patched(full, h + 8, x);
  }

  predicate Encodable(r: Record) {
    r.rtype < 0x10000 && r.clas < 0x10000 && r.ttl < 0x100000000
  }

  lemma SealHead(named: seq<int>, full: seq<int>, p: Place, r: Record, x: nat)
    requires NameIn(named)(p.start, r.owner, p.head) && p.head == |named| && Encodable(r)
    requires named + FixedPart(r) + [HOLE, HOLE] <= full
    requires p.end == |full| && x == p.end - p.head - 10 < 0x10000
    ensures HeadIn(Patch(full, p.head + 8, x))(p, r)
  {
    FixedBytes(named, FixedPart(r), full, p.head, x);
    var done := Patch(full, p.head + 8, x);
    FixedPartAt(done, p.head, r);
    WrittenStable(named, done, p.start, p.start, r.owner, |r.owner|, p.head);
  }

  lemma FinishRecord(named: seq<int>, full: seq<int>, p: Place, r: Record, x: nat)
    requires NameIn(named)(p.start, r.owner, p.head) && p.head == |named| && Encodable(r)
    requires named + FixedPart(r) + [HOLE, HOLE] <= full
    requires p.end == |full| && x == p.end - p.head - 10 < 0x10000 && DataIn(full)(p.head + 10, r.data, p.end)
    ensures RecordIn(Patch(full, p.head + 8, x))(p, r)
  {
    SealHead(named, full, p, r, x);
    FixedBytes(named, FixedPart(r), full, p.head, x);
    DataStable(full, Patch(full, p.head + 8, x), p.head + 10, r.data, p.end);
  }
}
