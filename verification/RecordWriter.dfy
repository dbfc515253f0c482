/** The record and question serialisers of the responder. */
module RecordWriter {
  import opened Bytes
  import opened RoundTrip
  import opened Tidy
  import opened Encoder
  import opened Records
  import opened TidyRecords

  const PTR_TTL: nat := 4500
  const TXT_TTL: nat := 4500
  const SRV_TTL: nat := 120
  const A_TTL: nat := 120

  const SERVICES: seq<byte> := [95, 115, 101, 114, 118, 105, 99, 101, 115]
  const DNS_SD: seq<byte> := [95, 100, 110, 115, 45, 115, 100]
  const UDP: seq<byte> := [95, 117, 100, 112]
  const LOCAL_DOMAIN: seq<byte> := [108, 111, 99, 97, 108]

  type u16 = x: int | 0 <= x < 0x10000

  datatype TxtItem = TxtItem(key: seq<byte>, value: seq<byte>)

  /** A registered service. An empty instance name stands for an absent one. */
  datatype Service = Service(instance: seq<byte>, service: seq<byte>, proto: seq<byte>,
                             priority: u16, weight: u16, port: u16, txt: seq<TxtItem>)

  /** The names of the server that records fall back on; empty stands for absent. */
  datatype Server = Server(hostname: seq<byte>, instance: seq<byte>)

  function InstanceName(s: Service, server: Server): seq<byte> {
    if s.instance != [] then s.instance
    else if server.instance != [] then server.instance
    else server.hostname
  }

  function Class(flush: bool): nat {
    if flush then CLASS_IN_FLUSH else CLASS_IN
  }

  function TxtString(item: TxtItem): seq<byte> {
    item.key + [EQUALS] + item.value
  }

  /** The character strings of a TXT record, or a single zero byte (section 6.1 of RFC 6763). */
  function TxtStrings(items: seq<TxtItem>): seq<byte> {
    if items == [] then [] else CharacterString(TxtString(items[0])) + TxtStrings(items[1..])
  }

  function TxtData(items: seq<TxtItem>): seq<byte> {
    if items == [] then [0] else TxtStrings(items)
  }

  // ---------------------------------------------------------------------------------------------------------
  // What each kind of record says

  function ServiceName(service: seq<byte>, proto: seq<byte>): seq<seq<byte>> {
    [service, proto, LOCAL_DOMAIN]
  }

  function InstanceFqdn(instance: seq<byte>, service: seq<byte>, proto: seq<byte>): seq<seq<byte>> {
    [instance, service, proto, LOCAL_DOMAIN]
  }

  /** A PTR record never carries the cache-flush bit, whatever its caller asks for. */
  function PtrRecord(instance: seq<byte>, service: seq<byte>, proto: seq<byte>, bye: bool): Record {
    Record(ServiceName(service, proto), TYPE_PTR, Class(false), if bye then 0 else PTR_TTL,
           Target(InstanceFqdn(instance, service, proto)))
  }

  function SdPtrRecord(s: Service, flush: bool): Record {
    Record([SERVICES, DNS_SD, UDP, LOCAL_DOMAIN], TYPE_PTR, Class(flush), PTR_TTL,
           Target(ServiceName(s.service, s.proto)))
  }

  function TxtRecord(s: Service, server: Server, flush: bool, bye: bool): Record {
    Record(InstanceFqdn(InstanceName(s, server), s.service, s.proto), TYPE_TXT, Class(flush),
           if bye then 0 else TXT_TTL, Raw(TxtData(s.txt)))
  }

  function SrvRecord(s: Service, server: Server, flush: bool, bye: bool): Record {
    Record(InstanceFqdn(InstanceName(s, server), s.service, s.proto), TYPE_SRV, Class(flush),
           if bye then 0 else SRV_TTL, Location(s.priority, s.weight, s.port, [server.hostname, LOCAL_DOMAIN]))
  }

  function AddressRecord(rtype: u16, address: seq<byte>, server: Server, flush: bool, bye: bool): Record {
    Record([server.hostname, LOCAL_DOMAIN], rtype, Class(flush), if bye then 0 else A_TTL, Raw(address))
  }

  datatype Kind = PTR | SRV | TXT | SDPTR | A | AAAA | OTHER

  datatype Custom = NoCustom | Custom(instance: seq<byte>, service: seq<byte>, proto: seq<byte>)

  datatype MaybeService = NoService | Some(it: Service)

  datatype Answer = Answer(kind: Kind, service: MaybeService, custom: Custom, flush: bool, bye: bool)

  /** The addresses to announce on an interface: none, its own, or also that of the other one on the same subnet. */
  datatype Addresses = Addresses(v4: seq<seq<byte>>, v6: seq<seq<byte>>) {
    predicate Valid() {
      && |v4| <= 2 && (forall k :: 0 <= k < |v4| ==> |v4[k]| == 4)
      && |v6| <= 2 && (forall k :: 0 <= k < |v6| ==> |v6[k]| == 16)
    }
  }

  function AddressRecords(rtype: u16, addresses: seq<seq<byte>>, server: Server, flush: bool, bye: bool): seq<Record> {
    seq(|addresses|, k requires 0 <= k < |addresses| => AddressRecord(rtype, addresses[k], server, flush, bye))
  }

  /** The records that an answer stands for. */
  function Expected(a: Answer, server: Server, addresses: Addresses): seq<Record> {
    match a.kind
    case PTR =>
      if a.service.Some? then
        [PtrRecord(InstanceName(a.service.it, server), a.service.it.service, a.service.it.proto, a.bye)]
      else if a.custom.Custom? then [PtrRecord(a.custom.instance, a.custom.service, a.custom.proto, a.bye)]
      else []
    case SRV =>
      if a.service.Some? && InstanceName(a.service.it, server) != [] then
        [SrvRecord(a.service.it, server, a.flush, a.bye)] else []
    case TXT =>
      if a.service.Some? && InstanceName(a.service.it, server) != [] then
        [TxtRecord(a.service.it, server, a.flush, a.bye)] else []
    case SDPTR => if a.service.Some? then [SdPtrRecord(a.service.it, a.flush)] else []
    case A => AddressRecords(TYPE_A, addresses.v4, server, a.flush, a.bye)
    case AAAA => AddressRecords(TYPE_AAAA, addresses.v6, server, a.flush, a.bye)
    case OTHER => []
  }

  function ExpectedAll(answers: seq<Answer>, server: Server, addresses: Addresses): seq<Record> {
    if answers == [] then []
    else Expected(answers[0], server, addresses) + ExpectedAll(answers[1..], server, addresses)
  }

  /** Every name of the record is one that the encoder and the decoder agree on. */
  predicate WellNamed(r: Record) {
    && Ours(r.owner)
    && (r.data.Target? ==> Ours(r.data.name))
    && (r.data.Location? ==> Ours(r.data.host))
  }

  /** Labels are at most 63 bytes, so a name of four labels that ends in `local` takes at most 199 bytes. */
  lemma {:induction false} SmallName(strings: seq<seq<byte>>)
    requires strings != [] && WellFormedLabels(strings) && strings[|strings| - 1] == LOCAL_DOMAIN
    ensures WireSize(strings) <= 64 * |strings| - 57
    ensures |strings| <= 4 ==> Brief()(strings)
  {
    assert WellFormedLabel(strings[0]);
    if |strings| == 1 {
      assert WireSize(strings[1..]) == 1;
    } else {
      SmallName(strings[1..]);
    }
  }

  lemma OursBrief(strings: seq<seq<byte>>)
    ensures Ours(strings) ==> Brief()(strings)
  {
    if Ours(strings) {
      SmallName(strings);
    }
  }

  /** A name that the encoder and the decoder agree on, in the domain `local`. */
  predicate Ours(strings: seq<seq<byte>>) {
    2 <= |strings| <= 4 && WellFormed(strings) && strings[|strings| - 1] == LOCAL_DOMAIN
  }

  // ---------------------------------------------------------------------------------------------------------
  // The serialisers

  /** Type, class and TTL. */
  method AppendFixed(w: Writer, rtype: nat, flush: bool, ttl: nat)
    requires w.Valid() && rtype < 0x10000 && ttl < 0x100000000 && w.index + 10 < MAX_PACKET_SIZE
    modifies w, w.packet
    ensures w.Valid() && w.safe == old(w.safe) && w.complete == old(w.complete) && w.blank == old(w.blank)
    ensures w.view == old(w.view) + Fixed(rtype, Class(flush), ttl)
  {
    ghost var before := w.view;
    var n := w.AppendU16(rtype);
    n := w.AppendU16(Class(flush));
    n := w.AppendU32(ttl);
    assert w.view == before + Fixed(rtype, Class(flush), ttl);
  }

  /** Two bytes that are filled in later. */
  method AppendOpen(w: Writer)
    requires w.Valid() && w.index + 2 < MAX_PACKET_SIZE
    modifies w, w.packet
    ensures w.Valid() && w.safe == old(w.safe) && w.complete == old(w.complete) && w.blank == old(w.blank)
    ensures w.view == old(w.view) + [HOLE, HOLE]
  {
    ghost var before := w.view;
    var n := w.AppendU16(0);
    FilledOpen(before, w.packet[..]);
    w.view, w.tidy := before + [HOLE, HOLE], false;
  }

  /** Type, class, TTL, and two bytes for RDLENGTH that are filled in later. */
  method AppendType(w: Writer, rtype: nat, flush: bool, ttl: nat) returns (n: nat)
    requires w.Valid() && rtype < 0x10000 && ttl < 0x100000000
    modifies w, w.packet
    ensures w.Valid() && w.Appended() && w.safe == old(w.safe)
    ensures n != 0 ==>
      n == 10 && w.view == old(w.view) + Fixed(rtype, Class(flush), ttl) + [HOLE, HOLE]
    ensures old(w.index) + 10 < MAX_PACKET_SIZE ==> n == 10 && w.complete == old(w.complete)
    ensures n == 0 ==> !w.complete
    ensures w.Keeps(TameFixed(rtype, ttl), 10)
  {
    if w.index + 10 >= MAX_PACKET_SIZE {
      w.complete := false;
      return 0;
    }
    FixedTidy(w.blank, w.view, rtype, Class(flush), ttl);
    ghost var was := w.tidy;
    AppendFixed(w, rtype, flush, ttl);
    AppendOpen(w);
    w.tidy := was && w.Tidied();
    return 10;
  }

  lemma FixedTidy(blank: bool, v: seq<int>, rtype: nat, clas: nat, ttl: nat)
    requires clas == CLASS_IN || clas == CLASS_IN_FLUSH
    ensures TameFixed(rtype, ttl) && TidyIn(v)(blank) && |v| >= FRONT ==>
      TidyIn(v + Fixed(rtype, clas, ttl) + [HOLE, HOLE])(blank)
  {
    if TameFixed(rtype, ttl) && TidyIn(v)(blank) && |v| >= FRONT {
      TidyFixed(v, rtype, clas, ttl);
    }
  }

  /** An open value is zero in the buffer. */
  lemma FilledOpen(v: seq<int>, p: seq<int>)
    ensures OverIn(v + [0, 0])(p) ==> OverIn(v + [HOLE, HOLE])(p)
    ensures AgreesIn(v + [0, 0])(p) ==> AgreesIn(v + [HOLE, HOLE])(p)
  {
    assert forall k :: 0 <= k < |v| ==> (v + [0, 0])[k] == (v + [HOLE, HOLE])[k];
  }

  /** The name and the fixed part of a record. The length of a name is kept in a single byte. */
  method Begin(w: Writer, owner: seq<seq<byte>>, rtype: nat, flush: bool, ttl: nat, checked: bool)
    returns (n: nat, ghost named: seq<int>)
    requires w.Valid() && rtype < 0x10000 && ttl < 0x100000000 && owner != []
    modifies w, w.packet
    ensures w.Valid() && w.Appended() && (n == 0 ==> !w.complete)
    ensures n != 0 ==>
      old(w.view) <= named && w.view == named + Fixed(rtype, Class(flush), ttl) + [HOLE, HOLE]
    ensures w.complete ==> |named| >= old(w.index) + 2
    ensures w.complete && w.safe && WellFormedLabels(owner) ==> NameIn(named)(old(w.index), owner, |named|)
    ensures w.Keeps(Tame(w.blank)(owner) && TameFixed(rtype, ttl), WireSize(owner) + 10)
    ensures w.complete && old(w.tidy) && Tame(w.blank)(owner) && Unlabelled()(old(w.view)) ==>
      named == old(w.view) + Wire(owner)
  {
    var length := AppendOwner(w, owner);
    named := w.view;
    n := 0;
    if length != 0 || !checked {
      n := AppendType(w, rtype, flush, ttl);
      n := if n == 0 then 0 else length + n;
    }
  }

  /** The owner of a record, with its length as a byte holds it. */
  method AppendOwner(w: Writer, owner: seq<seq<byte>>) returns (length: byte)
    requires w.Valid() && owner != []
    modifies w, w.packet
    ensures w.Valid() && w.Appended() && (length == 0 ==> !w.complete)
    ensures w.complete ==> w.index >= old(w.index) + 2
    ensures w.complete && w.safe && WellFormedLabels(owner) ==> NameIn(w.view)(old(w.index), owner, w.index)
    ensures w.Keeps(Tame(w.blank)(owner), WireSize(owner))
    ensures w.complete && old(w.tidy) && Tame(w.blank)(owner) && Unlabelled()(old(w.view)) ==>
      w.view == old(w.view) + Wire(owner)
  {
    TameBrief(w.blank, owner);
    var n := w.AppendName(owner);
    length := LowByte(n);
    SmallByte(n);
    if length == 0 {
      w.complete := false;
    }
  }

  /** The name that ends the RDATA of a record, and then RDLENGTH, whose place is `at`. */
  method AppendTarget(w: Writer, at: nat, strings: seq<seq<byte>>) returns (size: nat, ghost full: seq<int>)
    requires w.Valid() && at + 2 <= w.index && strings != []
    modifies w, w.packet
    ensures w.Valid() && (w.complete ==> old(w.complete)) && (w.safe ==> old(w.safe)) && w.blank == old(w.blank)
    ensures w.index >= old(w.index) && old(w.view) <= full && |full| == w.index
    ensures size == 0 ==> !w.complete && w.view == full
    ensures size != 0 ==> w.view == Patch(full, at, size + old(w.index) - at - 2)
    ensures w.complete && Brief()(strings) ==> size == w.index - old(w.index)
    ensures size < 256
    ensures w.complete && w.safe && WellFormedLabels(strings) ==> NameIn(full)(old(w.index), strings, |full|)
    ensures w.StaysTidy(Tame(w.blank)(strings) && OpenAt(old(w.view), at))
    ensures w.StaysComplete(Tame(w.blank)(strings), WireSize(strings))
  {
    ghost var before := w.view;
    var extra := w.index - at - 2;
    TameBrief(w.blank, strings);
    var length := w.AppendName(strings);
    full := w.view;
    size := LowByte(length);
    SmallByte(length);
    if size == 0 {
      w.complete := false;
    } else {
      Seal(w, at, size + extra, before);
    }
  }

  /** RDLENGTH is filled in behind a name; `before` is the packet without the name. */
  method Seal(w: Writer, at: nat, x: nat, ghost before: seq<int>)
    requires w.Valid() && before <= w.view && at + 2 <= |before| && x < 0x10000
    modifies w`view, w`tidy, w`blank, w.packet
    ensures w.Valid() && w.blank == old(w.blank) && w.view == Patch(old(w.view), at, x)
    ensures w.StaysTidy(OpenAt(before, at) && |before| < |old(w.view)| && x < 512 && !LabelByte(old(w.view)[|before|]))
  {
    SealedName(w.blank, before, w.view, at, x);
    ghost var was := w.tidy;
    w.SetU16(at, x);
    w.tidy := was && w.Tidied();
  }

  lemma SealedName(blank: bool, v: seq<int>, full: seq<int>, at: nat, x: nat)
    requires v <= full && at + 2 <= |v|
    ensures TidyIn(full)(blank) && OpenAt(v, at) && |v| < |full| && x < 512 && !LabelByte(full[|v|]) ==>
      TidyIn(Patch(full, at, x))(blank)
  {
    if TidyIn(full)(blank) && OpenAt(v, at) && |v| < |full| && x < 512 && !LabelByte(full[|v|]) {
      TidyLength(blank, v, full, at, x);
    }
  }

  function LocationFields(priority: nat, weight: nat, port: nat): (f: seq<int>)
    ensures |f| == 6
  {
    U16(priority) + U16(weight) + U16(port)
  }

  /** The RDATA in front of the name that ends it. */
  function Fields(d: Rdata): seq<int> {
    if d.Location? then LocationFields(d.priority, d.weight, d.port) else []
  }

  /** The name that ends the RDATA. */
  function Ending(d: Rdata): seq<seq<byte>> {
    match d
    case Target(name) => name
    case Location(_, _, _, host) => host
    case Raw(_) => []
  }

  predicate Portable(d: Rdata) {
    !d.Raw? && (d.Location? ==> d.priority < 0x10000 && d.weight < 0x10000 && d.port < 0x10000)
  }

  lemma TargetData(v: seq<int>, i: nat, d: Rdata)
    requires Portable(d) && i + |Fields(d)| <= |v| && v[i..i + |Fields(d)|] == Fields(d)
    requires NameIn(v)(i + |Fields(d)|, Ending(d), |v|)
    ensures DataIn(v)(i, d, |v|)
  {
    if d.Location? {
      var w := v[i..i + 6];
      assert v[i] == w[0] && v[i + 1] == w[1] && v[i + 2] == w[2];
      assert v[i + 3] == w[3] && v[i + 4] == w[4] && v[i + 5] == w[5];
    }
  }

  /** A record whose RDATA ends in a name: owner, fixed part, fields, name, RDLENGTH. */
  lemma RecordWithTarget(named: seq<int>, mid: seq<int>, full: seq<int>, p: Place, r: Record, x: nat)
    requires NameIn(named)(p.start, r.owner, p.head) && p.head == |named| && Encodable(r) && Portable(r.data)
    requires mid == named + FixedPart(r) + [HOLE, HOLE] + Fields(r.data) && mid <= full
    requires NameIn(full)(|mid|, Ending(r.data), |full|)
    requires p.end == |full| && x == p.end - p.head - 10 < 0x10000
    ensures RecordIn(Patch(full, p.head + 8, x))(p, r)
  {
    var i := p.head + 10;
    assert full[i..i + |Fields(r.data)|] == mid[i..] == Fields(r.data);
    TargetData(full, i, r.data);
    assert named + FixedPart(r) + [HOLE, HOLE] <= mid;
    FinishRecord(named, full, p, r, x);
  }

  /** The same on a condition. */
  lemma TargetDone(named: seq<int>, mid: seq<int>, full: seq<int>, p: Place, r: Record, x: nat)
    requires mid == named + FixedPart(r) + [HOLE, HOLE] + Fields(r.data) && mid <= full
    requires p.head == |named| && p.end == |full| && Encodable(r) && Portable(r.data)
    ensures NameIn(named)(p.start, r.owner, p.head) && NameIn(full)(|mid|, Ending(r.data), |full|)
            && x == p.end - p.head - 10 < 0x10000 ==>
      RecordIn(Patch(full, p.head + 8, x))(p, r)
  {
    if NameIn(named)(p.start, r.owner, p.head) && NameIn(full)(|mid|, Ending(r.data), |full|)
       && x == p.end - p.head - 10 < 0x10000 {
      RecordWithTarget(named, mid, full, p, r, x);
    }
  }

  /** RDLENGTH is open, with the numbers of an SRV record behind it or nothing. */
  lemma OpenHead(named: seq<int>, r: Record, mid: seq<int>)
    requires mid == named + FixedPart(r) + [HOLE, HOLE] + Fields(r.data)
    ensures forall blank :: |named| >= FRONT && TameData(blank, r.data) ==> OpenAt(mid, |named| + 8)
  {
    var h := |named|;
    assert mid[h + 8] == HOLE && mid[h + 9] == HOLE;
    assert r.data.Location? ==> mid[h + 10] == r.data.priority / 256;
  }

  /** The name that ends the RDATA, and RDLENGTH, and with them the record. */
  method FinishTarget(w: Writer, strings: seq<seq<byte>>, ghost start: nat, ghost named: seq<int>, ghost r: Record,
                      extra: nat)
    returns (n: nat, ghost p: Place)
    requires w.Valid() && strings != [] && Encodable(r) && Portable(r.data)
    requires extra == |Fields(r.data)| && Ending(r.data) == strings
    requires w.view == named + FixedPart(r) + [HOLE, HOLE] + Fields(r.data) && w.index == |named| + 10 + extra
    modifies w, w.packet
    ensures w.Valid() && named <= w.view && w.index >= old(w.index) && w.blank == old(w.blank)
    ensures (w.complete ==> old(w.complete)) && (w.safe ==> old(w.safe))
    ensures n == 0 ==> !w.complete
    ensures w.complete && w.safe && NameIn(named)(start, r.owner, |named|) && Ours(strings) ==>
      RecordIn(w.view)(p, r) && p.start == start && p.end == w.index
    ensures w.Keeps(|named| >= FRONT && TameData(w.blank, r.data), WireSize(strings))
  {
    ghost var mid, full := w.view, w.view;
    var at := w.index - 2 - extra;
    assert at == |named| + 8;
    OpenHead(named, r, mid);
    OursBrief(strings);
    n, full := AppendTarget(w, at, strings);
    p := Place(start, |named|, w.index);
    TargetFacts(named, mid, full, w.view, p, r, n + extra, n != 0);
  }

  /** What the name that ends the RDATA, and RDLENGTH if the name could be written, come to. */
  lemma TargetFacts(named: seq<int>, mid: seq<int>, full: seq<int>, after: seq<int>, p: Place, r: Record, x: nat,
                    sealed: bool)
    requires mid == named + FixedPart(r) + [HOLE, HOLE] + Fields(r.data) && mid <= full
    requires p.head == |named| && p.end == |full| && Encodable(r) && Portable(r.data)
    requires after == if sealed then Patch(full, p.head + 8, x) else full
    ensures named <= after
    ensures sealed && NameIn(named)(p.start, r.owner, |named|) && NameIn(full)(|mid|, Ending(r.data), |full|)
            && x == |full| - |named| - 10 < 0x10000 ==>
      RecordIn(after)(p, r)
  {
    assert named <= mid;
    KeepsFront(named, full, p.head + 8, x);
    TargetDone(named, mid, full, p, r, x);
  }

  /** A PTR record. A discovery pointer goes on even if its name could not be written (`checked` is false). */
  method AppendPointerRecord(w: Writer, owner: seq<seq<byte>>, flush: bool, ttl: nat, target: seq<seq<byte>>,
                             checked: bool)
    returns (n: nat, ghost p: Place)
    requires w.Valid() && owner != [] && target != [] && ttl < 0x100000000
    modifies w, w.packet
    ensures w.Valid() && w.Appended() && (n == 0 ==> !w.complete)
    ensures w.complete && w.safe && Ours(owner) && Ours(target) ==>
      RecordIn(w.view)(p, Record(owner, TYPE_PTR, Class(flush), ttl, Target(target)))
      && p.start == old(w.index) && p.end == w.index
    ensures var r := Record(owner, TYPE_PTR, Class(flush), ttl, Target(target));
      w.Keeps(TameRecord(w.blank, r), RecordSize(r))
  {
    ghost var start := w.index;
    ghost var r := Record(owner, TYPE_PTR, Class(flush), ttl, Target(target));
    var head; ghost var named;
    head, named := Begin(w, owner, TYPE_PTR, flush, ttl, checked);
    if head == 0 {
      n, p := 0, Place(start, start, start);
    } else {
      assert w.view == named + FixedPart(r) + [HOLE, HOLE] + Fields(r.data);
      n, p := FinishTarget(w, target, start, named, r, 0);
      n := if n == 0 then 0 else head + n;
    }
  }

  /** Filling in a value leaves what stands before it. */
  lemma KeepsFront(a: seq<int>, full: seq<int>, at: nat, x: nat)
    requires at + 1 < |full|
    ensures a <= full && |a| <= at ==> a <= Patch(full, at, x)
  {
    if a <= full && |a| <= at {
      var w := Patch(full, at, x);
      assert w[..|a|] == w[..at][..|a|] == full[..at][..|a|] == a;
    }
  }

  /** RDLENGTH is open behind a fixed part. */
  lemma OpenBehind(named: seq<int>, fixed: seq<int>, mid: seq<int>)
    requires mid == named + fixed + [HOLE, HOLE] && |fixed| == 8
    ensures mid[|mid| - 2] == HOLE && mid[|mid| - 1] == HOLE && (|named| >= 2 ==> |mid| >= FRONT)
    ensures |mid| - 2 >= FRONT ==> OpenAt(mid, |mid| - 2)
  {
  }

  lemma RawDone(named: seq<int>, mid: seq<int>, full: seq<int>, p: Place, r: Record, x: nat)
    requires NameIn(named)(p.start, r.owner, p.head) && p.head == |named| && Encodable(r) && r.data.Raw?
    requires mid == named + FixedPart(r) + [HOLE, HOLE] && full == mid + r.data.bytes
    requires p.end == |full| && x == |r.data.bytes| < 0x10000
    ensures RecordIn(Patch(full, p.head + 8, x))(p, r)
  {
    var i := p.head + 10;
    assert full[i..] == r.data.bytes && full[i..p.end] == full[i..];
    assert DataIn(full)(i, r.data, p.end);
    FinishRecord(named, full, p, r, x);
  }

  /** An SRV record with the given names. */
  method AppendLocationRecord(w: Writer, owner: seq<seq<byte>>, flush: bool, ttl: nat,
                              priority: u16, weight: u16, port: u16, host: seq<seq<byte>>)
    returns (n: nat, ghost p: Place)
    requires w.Valid() && owner != [] && host != [] && ttl < 0x100000000
    modifies w, w.packet
    ensures w.Valid() && w.Appended() && (n == 0 ==> !w.complete)
    ensures w.complete && w.safe && Ours(owner) && Ours(host) ==>
      RecordIn(w.view)(p, Record(owner, TYPE_SRV, Class(flush), ttl, Location(priority, weight, port, host)))
      && p.start == old(w.index) && p.end == w.index
    ensures var r := Record(owner, TYPE_SRV, Class(flush), ttl, Location(priority, weight, port, host));
      w.Keeps(TameRecord(w.blank, r), RecordSize(r))
  {
    ghost var start := w.index;
    ghost var r := Record(owner, TYPE_SRV, Class(flush), ttl, Location(priority, weight, port, host));
    var head; ghost var named;
    head, named := BeginLocation(w, owner, flush, ttl, priority, weight, port);
    if head == 0 {
      n, p := 0, Place(start, start, start);
    } else {
      assert w.view == named + FixedPart(r) + [HOLE, HOLE] + Fields(r.data);
      n, p := FinishTarget(w, host, start, named, r, 6);
      n := if n == 0 then 0 else head + n + 6;
    }
  }

  /** The name, the fixed part and the numbers of an SRV record. */
  method BeginLocation(w: Writer, owner: seq<seq<byte>>, flush: bool, ttl: nat, priority: u16, weight: u16, port: u16)
    returns (n: nat, ghost named: seq<int>)
    requires w.Valid() && owner != [] && ttl < 0x100000000
    modifies w, w.packet
    ensures w.Valid() && w.Appended() && (n == 0 ==> !w.complete)
    ensures n != 0 ==>
      && old(w.view) <= named
      && w.view == named + Fixed(TYPE_SRV, Class(flush), ttl) + [HOLE, HOLE] + LocationFields(priority, weight, port)
    ensures w.complete && w.safe && WellFormedLabels(owner) ==> NameIn(named)(old(w.index), owner, |named|)
    ensures w.Keeps(Tame(w.blank)(owner) && TameFixed(TYPE_SRV, ttl) && TameNumbers(w.blank, priority, weight, port),
                    WireSize(owner) + 16)
  {
    n, named := Begin(w, owner, TYPE_SRV, flush, ttl, true);
    if n != 0 {
      var ok := AppendFields(w, priority, weight, port);
      if !ok {
        n := 0;
      }
    }
  }

  method AppendSrvRecord(w: Writer, s: Service, server: Server, flush: bool, bye: bool) returns (n: nat, ghost p: Place)
    requires w.Valid()
    modifies w, w.packet
    ensures w.Valid() && w.Appended() && (n == 0 ==> !w.complete || InstanceName(s, server) == [])
    ensures InstanceName(s, server) == [] ==>
      n == 0 && w.Unchanged() && p.start == w.index
    ensures w.complete && w.safe && InstanceName(s, server) != [] && WellNamed(SrvRecord(s, server, flush, bye)) ==>
      RecordIn(w.view)(p, SrvRecord(s, server, flush, bye)) && p.start == old(w.index) && p.end == w.index
    ensures InstanceName(s, server) != [] ==>
      w.Keeps(TameRecord(w.blank, SrvRecord(s, server, flush, bye)), RecordSize(SrvRecord(s, server, flush, bye)))
  {
    var instance := InstanceName(s, server);
    if instance == [] {
      return 0, Place(w.index, w.index, w.index);
    }
    n, p := AppendLocationRecord(w, InstanceFqdn(instance, s.service, s.proto), flush, if bye then 0 else SRV_TTL,
                                 s.priority, s.weight, s.port, [server.hostname, LOCAL_DOMAIN]);
  }

  /** The numbers of an SRV record that keep a packet tidy. */
  predicate TameNumbers(blank: bool, priority: u16, weight: u16, port: u16) {
    priority == 0 && weight == 0 && (blank || SteadyPort(port))
  }

  lemma NumbersTidy(blank: bool, v: seq<int>, priority: u16, weight: u16, port: u16)
    ensures TameNumbers(blank, priority, weight, port) && TidyIn(v)(blank) && |v| >= FRONT ==>
      TidyIn(v + LocationFields(priority, weight, port))(blank)
  {
    if TameNumbers(blank, priority, weight, port) && TidyIn(v)(blank) && |v| >= FRONT {
      TidyNumbers(blank, v, port);
    }
  }

  method AppendFields(w: Writer, priority: u16, weight: u16, port: u16) returns (ok: bool)
    requires w.Valid()
    modifies w, w.packet
    ensures w.Valid() && w.Appended() && w.safe == old(w.safe)
    ensures ok ==> w.complete == old(w.complete) && w.view == old(w.view) + LocationFields(priority, weight, port)
    ensures !ok ==> !w.complete
    ensures w.Keeps(TameNumbers(w.blank, priority, weight, port), 6)
  {
    ghost var before, was := w.view, w.tidy;
    NumbersTidy(w.blank, before, priority, weight, port);
    var a := w.AppendU16(priority);
    var b := w.AppendU16(weight);
    var c := w.AppendU16(port);
    ok := a + b + c == 6;
    if ok {
      assert w.view == before + LocationFields(priority, weight, port);
    }
    w.tidy := was && w.Tidied();
  }

  /** A record whose RDATA is a given run of bytes. */
  method AppendRawRecord(w: Writer, owner: seq<seq<byte>>, rtype: u16, flush: bool, ttl: nat, bytes: seq<byte>)
    returns (n: nat, ghost p: Place)
    requires w.Valid() && owner != [] && ttl < 0x100000000 && |bytes| < 256
    modifies w, w.packet
    ensures w.Valid() && w.Appended() && (n == 0 ==> !w.complete)
    ensures w.complete && w.safe && Ours(owner) ==>
      RecordIn(w.view)(p, Record(owner, rtype, Class(flush), ttl, Raw(bytes)))
      && p.start == old(w.index) && p.end == w.index
    ensures var r := Record(owner, rtype, Class(flush), ttl, Raw(bytes));
      w.Keeps(TameRecord(w.blank, r), RecordSize(r))
  {
    ghost var start := w.index;
    ghost var r := Record(owner, rtype, Class(flush), ttl, Raw(bytes));
    var head; ghost var named;
    head, named := Begin(w, owner, rtype, flush, ttl, true);
    if head == 0 {
      n, p := 0, Place(start, start, start);
    } else {
      n, p := FinishRaw(w, bytes, start, named, r);
      n := if n == 0 then 0 else head + |bytes|;
    }
  }

  /** The RDATA and RDLENGTH, and with them the record. */
  method FinishRaw(w: Writer, bytes: seq<byte>, ghost start: nat, ghost named: seq<int>, ghost r: Record)
    returns (n: nat, ghost p: Place)
    requires w.Valid() && Encodable(r) && r.data == Raw(bytes) && |bytes| < 256
    requires w.view == named + FixedPart(r) + [HOLE, HOLE]
    modifies w, w.packet
    ensures w.Valid() && named <= w.view && w.index >= old(w.index) && w.blank == old(w.blank)
    ensures (w.complete ==> old(w.complete)) && (w.safe ==> old(w.safe))
    ensures n == 0 ==> !w.complete
    ensures w.complete && w.safe && NameIn(named)(start, r.owner, |named|) ==>
      RecordIn(w.view)(p, r) && p.start == start && p.end == w.index
    ensures w.Keeps(|named| >= FRONT && TameData(w.blank, r.data), |bytes|)
  {
    ghost var mid := w.view;
    p := Place(start, |named|, |mid| + |bytes|);
    if w.index + |bytes| > MAX_PACKET_SIZE {
      w.complete := false;
      n := 0;
    } else {
      BytesDone(named, mid, p, r, bytes);
      FillRaw(w, bytes);
      n := 1;
    }
  }

  /** What bytes behind an open RDLENGTH, and RDLENGTH, come to. */
  lemma BytesDone(named: seq<int>, mid: seq<int>, p: Place, r: Record, bytes: seq<byte>)
    requires mid == named + FixedPart(r) + [HOLE, HOLE] && r.data == Raw(bytes) && Encodable(r)
    requires p.head == |named| && p.end == |mid| + |bytes|
    ensures |named| >= FRONT ==> OpenAt(mid, |mid| - 2)
    ensures named <= Patch(mid + bytes, |mid| - 2, |bytes|)
    ensures NameIn(named)(p.start, r.owner, |named|) && |bytes| < 0x10000 ==>
      RecordIn(Patch(mid + bytes, |mid| - 2, |bytes|))(p, r)
  {
    OpenBehind(named, FixedPart(r), mid);
    FrontOf(named, FixedPart(r), mid, bytes);
    BytesRecord(named, mid, p, r, bytes);
  }

  lemma FrontOf(named: seq<int>, fixed: seq<int>, mid: seq<int>, bytes: seq<int>)
    requires mid == named + fixed + [HOLE, HOLE]
    ensures named <= Patch(mid + bytes, |mid| - 2, |bytes|)
  {
    KeepsFront(named, mid + bytes, |mid| - 2, |bytes|);
  }

  lemma BytesRecord(named: seq<int>, mid: seq<int>, p: Place, r: Record, bytes: seq<byte>)
    requires mid == named + FixedPart(r) + [HOLE, HOLE] && r.data == Raw(bytes) && Encodable(r)
    requires p.head == |named| && p.end == |mid| + |bytes|
    ensures NameIn(named)(p.start, r.owner, |named|) && |bytes| < 0x10000 ==>
      RecordIn(Patch(mid + bytes, |mid| - 2, |bytes|))(p, r)
  {
    if NameIn(named)(p.start, r.owner, |named|) && |bytes| < 0x10000 {
      RawDone(named, mid, mid + bytes, p, r, |bytes|);
    }
  }

  /** RDATA behind an open RDLENGTH, and then RDLENGTH. */
  method FillRaw(w: Writer, bytes: seq<byte>)
    requires w.Valid() && |bytes| < 256 && w.index + |bytes| <= MAX_PACKET_SIZE && w.index >= 2
    modifies w, w.packet
    ensures w.Valid() && w.complete == old(w.complete) && w.safe == old(w.safe) && w.blank == old(w.blank)
    ensures w.view == Patch(old(w.view) + bytes, old(w.index) - 2, |bytes|)
    ensures w.StaysTidy(QuietBytes(w.blank)(bytes) && OpenAt(old(w.view), old(w.index) - 2))
  {
    var at := w.index - 2;
    RawTidy(w.blank, w.view, bytes);
    ghost var was := w.tidy;
    w.Copy(bytes);
    SealData(w, at, |bytes|, was);
  }

  /** RDLENGTH is filled in behind the RDATA. */
  method SealData(w: Writer, at: nat, size: nat, ghost was: bool)
    requires w.Valid() && at + 2 <= w.index && size < 0x10000
    modifies w`view, w`tidy, w`blank, w.packet
    ensures w.Valid() && w.blank == old(w.blank) && w.view == Patch(old(w.view), at, size)
    ensures w.tidy == (was && w.Tidied())
  {
    w.SetU16(at, size);
    w.tidy := was && w.Tidied();
  }

  lemma RawTidy(blank: bool, v: seq<int>, bytes: seq<int>)
    requires |v| >= 2
    ensures TidyIn(v)(blank) && OpenAt(v, |v| - 2) && QuietBytes(blank)(bytes) ==>
      TidyIn(Patch(v + bytes, |v| - 2, |bytes|))(blank)
  {
    if TidyIn(v)(blank) && OpenAt(v, |v| - 2) && QuietBytes(blank)(bytes) {
      TidyRaw(blank, v, bytes, |v| - 2);
    }
  }

  method AppendAddressRecord(w: Writer, rtype: u16, address: seq<byte>, server: Server, flush: bool, bye: bool)
    returns (n: nat, ghost p: Place)
    requires w.Valid() && |address| < 256
    modifies w, w.packet
    ensures w.Valid() && w.Appended() && (n == 0 ==> !w.complete || server.hostname == [])
    ensures w.complete && w.safe && WellNamed(AddressRecord(rtype, address, server, flush, bye)) ==>
      n != 0 && RecordIn(w.view)(p, AddressRecord(rtype, address, server, flush, bye))
      && p.start == old(w.index) && p.end == w.index
    ensures w.Keeps(TameRecord(w.blank, AddressRecord(rtype, address, server, flush, bye)),
                    RecordSize(AddressRecord(rtype, address, server, flush, bye)))
  {
    if server.hostname == [] {
      assert !WellFormedLabel([server.hostname, LOCAL_DOMAIN][0]);
      return 0, Place(w.index, w.index, w.index);
    }
    n, p := AppendRawRecord(w, [server.hostname, LOCAL_DOMAIN], rtype, flush, if bye then 0 else A_TTL, address);
  }

  /** One item of a TXT record; a string of 255 bytes looks like a failure to the caller. */
  method AppendItem(w: Writer, item: TxtItem) returns (l: nat)
    requires w.Valid()
    modifies w, w.packet
    ensures w.Valid() && w.Appended() && w.safe == old(w.safe)
    ensures l == 0 ==> !w.complete
    ensures l != 0 ==> w.view == old(w.view) + CharacterString(TxtString(item)) && l == |w.view| - |old(w.view)|
    ensures var size := |CharacterString(TxtString(item))|;
      old(w.complete) && size < 256 && old(w.index) + size < MAX_PACKET_SIZE ==> w.complete
  {
    l := w.AppendString(TxtString(item));
    if l == 0 {
      w.complete := false;
    }
  }

  method AppendItems(w: Writer, items: seq<TxtItem>) returns (ok: bool, size: nat)
    requires w.Valid()
    modifies w, w.packet
    ensures w.Valid() && w.Appended() && w.safe == old(w.safe)
    ensures ok ==> w.view == old(w.view) + TxtStrings(items) && size == |w.view| - |old(w.view)|
    ensures !ok ==> !w.complete
    ensures old(w.complete) && |TxtStrings(items)| < 256 && old(w.index) + |TxtStrings(items)| < MAX_PACKET_SIZE ==>
      w.complete
  {
    size := 0;
    ghost var start, all := w.view, w.view + TxtStrings(items);
    for i := 0 to |items|
      invariant w.Valid() && w.safe == old(w.safe) && (w.complete ==> old(w.complete)) && start <= w.view
      invariant w.blank == old(w.blank)
      invariant w.view + TxtStrings(items[i..]) == all && size == |w.view| - |start|
      invariant old(w.complete) && |TxtStrings(items)| < 256 && |all| < MAX_PACKET_SIZE ==> w.complete
    {
      ghost var before := w.view;
      TxtStringsNext(items, i);
      var l := AppendItem(w, items[i]);
      if l == 0 {
        return false, size;
      }
      TxtStringsStep(items, i, before, w.view);
      size := size + l;
    }
    ok := true;
  }

  lemma TxtStringsNext(items: seq<TxtItem>, i: nat)
    requires i < |items|
    ensures |CharacterString(TxtString(items[i]))| <= |TxtStrings(items[i..])|
  {
    assert items[i..][0] == items[i];
  }

  lemma TxtStringsStep(items: seq<TxtItem>, i: nat, before: seq<int>, after: seq<int>)
    requires i < |items| && after == before + CharacterString(TxtString(items[i]))
    ensures after + TxtStrings(items[i + 1..]) == before + TxtStrings(items[i..])
  {
    assert items[i..][1..] == items[i + 1..];
  }

  /** The RDATA of a TXT record; the single zero byte of an empty one is written without a check for room. */
  method AppendTxtData(w: Writer, items: seq<TxtItem>) returns (ok: bool, size: nat)
    requires w.Valid()
    modifies w, w.packet
    ensures w.Valid() && w.Appended() && w.safe == old(w.safe)
    ensures ok ==> w.view == old(w.view) + TxtData(items) && size == |TxtData(items)|
    ensures !ok ==> !w.complete
    ensures old(w.complete) && |TxtData(items)| < 256 && old(w.index) + |TxtData(items)| < MAX_PACKET_SIZE ==>
        w.complete
  {
    ok, size := AppendItems(w, items);
    if ok && size == 0 {
      assert items == [];
      if w.index >= MAX_PACKET_SIZE {
        w.complete := false;
        return false, 0;
      }
      size := 1;
      w.Copy([0]);
    }
  }

  /** A TXT record with the given name. */
  method AppendTextRecord(w: Writer, owner: seq<seq<byte>>, flush: bool, ttl: nat, items: seq<TxtItem>)
    returns (n: nat, ghost p: Place)
    requires w.Valid() && owner != [] && ttl < 0x100000000
    modifies w, w.packet
    ensures w.Valid() && w.Appended() && (n == 0 ==> !w.complete)
    ensures w.complete && w.safe && Ours(owner) ==>
      RecordIn(w.view)(p, Record(owner, TYPE_TXT, Class(flush), ttl, Raw(TxtData(items))))
      && p.start == old(w.index) && p.end == w.index
    ensures var r := Record(owner, TYPE_TXT, Class(flush), ttl, Raw(TxtData(items)));
      && w.StaysTidy(TameRecord(w.blank, r))
      && w.StaysComplete(Tame(w.blank)(owner) && TameFixed(TYPE_TXT, ttl) && |TxtData(items)| < 256, RecordSize(r))
    ensures w.complete && old(w.tidy) && Tame(w.blank)(owner) && TameFixed(TYPE_TXT, ttl) && w.Near() ==>
      w.safe && (Unlabelled()(old(w.view)) ==> w.view == TextBytes(old(w.view), owner, flush, ttl, TxtData(items)))
  {
    ghost var start := w.index;
    ghost var r := Record(owner, TYPE_TXT, Class(flush), ttl, Raw(TxtData(items)));
    var head; ghost var named;
    head, named := Begin(w, owner, TYPE_TXT, flush, ttl, true);
    if head == 0 {
      n, p := 0, Place(start, start, start);
    } else {
      n, p := FinishText(w, items, start, named, r);
      n := if n == 0 then 0 else head + n;
    }
  }

  /** The packet with a TXT record whose owner is written out. */
  function TextBytes(v: seq<int>, owner: seq<seq<byte>>, flush: bool, ttl: nat, data: seq<byte>): seq<int> {
    Sealed(v + Wire(owner) + Fixed(TYPE_TXT, Class(flush), ttl) + [HOLE, HOLE], data)
  }

  /** RDATA behind an open RDLENGTH that is filled in. */
  function Sealed(mid: seq<int>, data: seq<byte>): seq<int>
    requires |mid| >= 2
  {
    Patch(mid + data, |mid| - 2, |data|)
  }

  /** The strings and RDLENGTH, and with them the record. */
  method FinishText(w: Writer, items: seq<TxtItem>, ghost start: nat, ghost named: seq<int>, ghost r: Record)
    returns (n: nat, ghost p: Place)
    requires w.Valid() && Encodable(r) && r.data == Raw(TxtData(items))
    requires w.view == named + FixedPart(r) + [HOLE, HOLE]
    modifies w, w.packet
    ensures w.Valid() && named <= w.view && w.index >= old(w.index) && w.blank == old(w.blank)
    ensures (w.complete ==> old(w.complete)) && (w.safe ==> old(w.safe))
    ensures n == 0 ==> !w.complete
    ensures w.complete && w.safe && NameIn(named)(start, r.owner, |named|) ==>
      RecordIn(w.view)(p, r) && p.start == start && p.end == w.index
    ensures w.StaysTidy(|named| >= FRONT && TameData(w.blank, r.data))
    ensures w.StaysComplete(|TxtData(items)| < 256, |TxtData(items)|)
    ensures w.safe == old(w.safe)
    ensures w.complete ==> w.view == Sealed(old(w.view), TxtData(items))
  {
    ghost var mid := w.view;
    p := Place(start, |named|, |mid| + |TxtData(items)|);
    BytesDone(named, mid, p, r, TxtData(items));
    var ok;
    ok, n := FillText(w, items);
    if !ok {
      n := 0;
    }
  }

  /** The strings behind an open RDLENGTH, and then RDLENGTH. */
  method FillText(w: Writer, items: seq<TxtItem>) returns (ok: bool, size: nat)
    requires w.Valid() && w.index >= 2
    modifies w, w.packet
    ensures w.Valid() && (w.complete ==> old(w.complete)) && w.safe == old(w.safe) && (!ok ==> !w.complete)
        && w.blank == old(w.blank)
    ensures !ok ==> old(w.view) <= w.view
    ensures w.index >= old(w.index)
    ensures ok ==>
      size == |TxtData(items)| && w.view == Patch(old(w.view) + TxtData(items), old(w.index) - 2, size)
    ensures w.StaysTidy(QuietBytes(w.blank)(TxtData(items)) && OpenAt(old(w.view), old(w.index) - 2))
    ensures w.StaysComplete(|TxtData(items)| < 256, |TxtData(items)|)
  {
    var at := w.index - 2;
    RawTidy(w.blank, w.view, TxtData(items));
    ghost var was := w.tidy;
    ok, size := AppendTxtData(w, items);
    if ok {
      SealData(w, at, size, was);
    }
  }

  method AppendTxtRecord(w: Writer, s: Service, server: Server, flush: bool, bye: bool) returns (n: nat, ghost p: Place)
    requires w.Valid()
    modifies w, w.packet
    ensures w.Valid() && w.Appended() && (n == 0 ==> !w.complete || InstanceName(s, server) == [])
    ensures InstanceName(s, server) == [] ==>
      n == 0 && w.Unchanged() && p.start == w.index
    ensures w.complete && w.safe && InstanceName(s, server) != [] && WellNamed(TxtRecord(s, server, flush, bye)) ==>
      RecordIn(w.view)(p, TxtRecord(s, server, flush, bye)) && p.start == old(w.index) && p.end == w.index
    ensures InstanceName(s, server) != [] ==>
      var r := TxtRecord(s, server, flush, bye);
      && w.StaysTidy(TameRecord(w.blank, r))
      && w.StaysComplete(Tame(w.blank)(r.owner) && TameFixed(TYPE_TXT, r.ttl) && |TxtData(s.txt)| < 256, RecordSize(r))
    ensures InstanceName(s, server) != [] ==>
      var r := TxtRecord(s, server, flush, bye);
      w.complete && old(w.tidy) && Tame(w.blank)(r.owner) && TameFixed(TYPE_TXT, r.ttl) && w.Near() ==>
        && w.safe
        && (Unlabelled()(old(w.view)) ==> w.view == TextBytes(old(w.view), r.owner, flush, r.ttl, TxtData(s.txt)))
  {
    var instance := InstanceName(s, server);
    if instance == [] {
      return 0, Place(w.index, w.index, w.index);
    }
    n, p := AppendTextRecord(w, InstanceFqdn(instance, s.service, s.proto), flush, if bye then 0 else TXT_TTL, s.txt);
  }
}
