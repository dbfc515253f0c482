/** The over-the-air update client: it cuts one slice out of an HTTP body that arrives in chunks. */
module Ota {
  import opened Bytes

  const TEXT_BUFFSIZE: nat := 1024
  const NEWLINE: int := 10
  const CRLF: seq<int> := [13, 10]
  const WORD: nat := 0x1_0000_0000

  /** "Content-Length" */
  const CONTENT_LENGTH: seq<int> := [67, 111, 110, 116, 101, 110, 116, 45, 76, 101, 110, 103, 116, 104]

  datatype Phase = INIT | PREPARE | START | RECVED | FINISH

  // ---------------------------------------------------------------------------------------------------------
  // Header lines

  /** The length of the line at `i` with its newline; more than is left if there is no newline. */
  function LineLength(s: seq<byte>, i: nat): (n: nat)
    ensures n >= 1
    decreases |s| - i
  {
    if i >= |s| || s[i] == NEWLINE then 1 else 1 + LineLength(s, i + 1)
  }

  method ReadUntil(s: seq<byte>, i: nat) returns (n: nat)
    requires i <= |s|
    ensures n == LineLength(s, i)
  {
    var j := i;
    while j < |s| && s[j] != NEWLINE
      invariant i <= j <= |s| && (j - i) + LineLength(s, j) == LineLength(s, i)
    {
      j := j + 1;
    }
    return j - i + 1;
  }

  /** Where the header ends: behind the first line of two bytes. */
  datatype Scan = Found(next: nat) | AtEnd | Zero | Malformed

  function ScanHeader(s: seq<byte>, i: nat): Scan
    decreases |s| - i
  {
    if i >= |s| then AtEnd
    else if s[i] == 0 then Zero
    else
      var n := LineLength(s, i);
      if i + n > |s| then Malformed
      else if n == 2 then Found(i + 2)
      else ScanHeader(s, i + n)
  }

  function Shift(r: Scan, d: nat): Scan {
    if r.Found? then Found(r.next + d) else r
  }

  lemma {:induction false} LineShift(a: seq<byte>, b: seq<byte>, j: nat)
    ensures LineLength(a + b, |a| + j) == LineLength(b, j)
    decreases |b| - j
  {
    if j >= |b| {
    } else {
      assert (a + b)[|a| + j] == b[j];
      LineShift(a, b, j + 1);
    }
  }

  lemma {:induction false} LineStays(a: seq<byte>, b: seq<byte>, i: nat)
    requires i + LineLength(a, i) <= |a|
    ensures LineLength(a + b, i) == LineLength(a, i)
    decreases |a| - i
  {
    assert (a + b)[i] == a[i];
    if a[i] == NEWLINE {
    } else {
      LineStays(a, b, i + 1);
    }
  }

  lemma {:induction false} ScanShift(a: seq<byte>, b: seq<byte>, j: nat)
    ensures ScanHeader(a + b, |a| + j) == Shift(ScanHeader(b, j), |a|)
    decreases |b| - j
  {
    if j >= |b| {
    } else {
      assert (a + b)[|a| + j] == b[j];
      LineShift(a, b, j);
      ScanShift(a, b, j + LineLength(b, j));
    }
  }

  /** A header that ends in `a` ends there whatever follows; one that goes on goes on in what follows. */
  lemma {:induction false} ScanAppend(a: seq<byte>, b: seq<byte>, i: nat)
    requires i <= |a|
    ensures ScanHeader(a, i).Found? ==> ScanHeader(a + b, i) == ScanHeader(a, i)
    ensures ScanHeader(a, i).AtEnd? ==> ScanHeader(a + b, i) == Shift(ScanHeader(b, 0), |a|)
    decreases |a| - i
  {
    if i == |a| {
      ScanShift(a, b, 0);
    } else if a[i] != 0 && i + LineLength(a, i) <= |a| {
      assert (a + b)[i] == a[i];
      LineStays(a, b, i);
      if LineLength(a, i) != 2 {
        ScanAppend(a, b, i + LineLength(a, i));
      }
    }
  }

  /** A header line that starts with a zero byte does so whatever follows. */
  lemma {:induction false} ScanZero(a: seq<byte>, b: seq<byte>, i: nat)
    requires i <= |a| && ScanHeader(a, i).Zero?
    ensures ScanHeader(a + b, i).Zero?
    decreases |a| - i
  {
    assert (a + b)[i] == a[i];
    if a[i] == 0 {
    } else {
      LineStays(a, b, i);
      ScanZero(a, b, i + LineLength(a, i));
    }
  }

  lemma {:induction false} ScanInside(s: seq<byte>, i: nat)
    ensures ScanHeader(s, i).Found? ==> i + 2 <= ScanHeader(s, i).next <= |s|
    decreases |s| - i
  {
    if i >= |s| || s[i] == 0 || i + LineLength(s, i) > |s| {
    } else {
      ScanInside(s, i + LineLength(s, i));
    }
  }

  // ---------------------------------------------------------------------------------------------------------
  // Content-Length

  /** strstr from `i` on; the length of the text plus one if there is no occurrence. */
  function Find(text: seq<int>, pattern: seq<int>, i: nat): (k: nat)
    ensures k <= |text| ==> i <= k && k + |pattern| <= |text| && text[k..k + |pattern|] == pattern
    ensures k <= |text| + 1
    decreases |text| - i
  {
    if i + |pattern| > |text| then |text| + 1
    else if text[i..i + |pattern|] == pattern then i
    else Find(text, pattern, i + 1)
  }

  function Digits(text: seq<int>, sum: nat): nat {
    if text == [] || !(48 <= text[0] <= 57) then sum else Digits(text[1..], sum * 10 + (text[0] - 48))
  }

  /** atoi of a number without a sign, after blanks. */
  function Number(text: seq<int>): nat {
    if text != [] && text[0] == 32 then Number(text[1..]) else Digits(text, 0)
  }

  datatype Length = Absent | Length(n: nat) | Unterminated

  /** The number behind the first "Content-Length: " in a text; its line must end there as well. */
  function LengthIn(text: seq<int>): Length {
    var at := Find(text, CONTENT_LENGTH, 0);
    if at > |text| then Absent
    else if at + 16 > |text| then Unterminated
    else
      var end := Find(text, CRLF, at + 16);
      if end > |text| || end - at - 16 >= 32 then Unterminated else Length(Number(text[at + 16..end]))
  }

  /** What is looked at is what was received, up to a zero byte. */
  function ContentLength(chunk: seq<byte>): Length {
    LengthIn(CStr(chunk))
  }

  // ---------------------------------------------------------------------------------------------------------
  // The parser

  /** `parts` partitions share an image; this one takes part number `part`. */
  datatype Firm = Firm(parts: nat, part: nat, phase: Phase, contentLen: nat, readBytes: nat, writeBytes: nat,
                       size: nat, offset: nat)

  /** The size of each of the parts of a body of `n` bytes. */
  function PartSize(n: nat, parts: nat): nat
    requires parts > 0
  {
    n / parts
  }

  /** Where part number `part` starts. */
  function PartStart(size: nat, part: nat): nat {
    size * part
  }

  function NoteLength(f: Firm, n: nat): Firm
    requires f.parts > 0
  {
    f.(contentLen := n, size := PartSize(n, f.parts), offset := PartStart(PartSize(n, f.parts), f.part))
  }

  /** The slice is the part that the content length gives. */
  predicate Sized(f: Firm) {
    f.parts > 0 && f.size == PartSize(f.contentLen, f.parts) && f.offset == PartStart(f.size, f.part)
  }

  /** The header ends in this chunk, or it goes on, or the client gives up. */
  datatype Http = Done(firm: Firm, next: nat) | More(firm: Firm) | Fatal

  function ParseHttp(f: Firm, chunk: seq<byte>, i: nat): (r: Http)
    requires f.parts > 0
    ensures !r.Fatal? ==> r.firm.parts == f.parts && r.firm.part == f.part
    decreases |chunk| - i
  {
    if i >= |chunk| || chunk[i] == 0 then More(f)
    else
      var length := if f.contentLen == 0 then ContentLength(chunk) else Absent;
      if length.Unterminated? then Fatal
      else
        var g := if length.Length? then NoteLength(f, length.n) else f;
        var n := LineLength(chunk, i);
        if i + n > |chunk| then Fatal
        else if n == 2 then (if g.contentLen == 0 then Fatal else Done(g.(phase := PREPARE), i + 2))
        else ParseHttp(g, chunk, i + n)
  }

  /** What one call makes of its input: the bytes to write, none if there are none, or a failure. */
  datatype Out = Out(firm: Firm, data: seq<byte>) | Failed

  function Sub32(a: nat, b: nat): nat {
    (a - b) % WORD
  }

  /** A part of the body. Nothing keeps the first write from going beyond the slice. */
  function BodyStep(f: Firm, part: seq<byte>): (r: Out)
    ensures r.Out? ==> r.firm.parts == f.parts && r.firm.part == f.part
  {
    if f.phase == PREPARE then
      var read := f.readBytes + |part|;
      if read < f.offset then Out(f.(readBytes := read), [])
      else if read - f.offset > |part| then Failed
      else
        Out(f.(readBytes := read, writeBytes := f.writeBytes + (read - f.offset), phase := START),
            part[|part| - (read - f.offset)..])
    else if f.phase == START then
      if f.writeBytes + |part| > f.size then
        var n := Sub32(f.size, f.writeBytes);
        if n > |part| then Failed
        else Out(f.(writeBytes := f.writeBytes + n, phase := RECVED), part[..n])
      else Out(f.(writeBytes := f.writeBytes + |part|), part)
    else Failed
  }

  /** What is behind the header belongs to the body. */
  function AfterHeader(h: Http, chunk: seq<byte>): (r: Out)
    ensures r.Out? ==> !h.Fatal? && r.firm.parts == h.firm.parts && r.firm.part == h.firm.part
  {
    match h
    case Fatal => Failed
    case More(g) => Out(g, [])
    case Done(g, next) => if next >= |chunk| then Out(g, []) else BodyStep(g, chunk[next..])
  }

  function ParseMsg(f: Firm, chunk: seq<byte>): (r: Out)
    requires f.parts > 0
    ensures r.Out? ==> r.firm.parts == f.parts && r.firm.part == f.part
  {
    if f.phase == INIT then AfterHeader(ParseHttp(f, chunk, 0), chunk) else BodyStep(f, chunk)
  }

  // ---------------------------------------------------------------------------------------------------------
  // The slice

  /** The part of the body that the client is to write, as far as the body has arrived. */
  function Slice(body: seq<byte>, offset: nat, size: nat): seq<byte> {
    if |body| <= offset then []
    else if |body| <= offset + size then body[offset..]
    else body[offset..offset + size]
  }

  /** What the client knows of the body and has written of it. */
  predicate BodyOk(f: Firm, body: seq<byte>, written: seq<byte>) {
    && f.size < WORD
    && match f.phase
       case PREPARE => f.readBytes == |body| && f.writeBytes == 0 && written == [] && (|body| < f.offset || body == [])
       case START => |body| >= f.offset && written == body[f.offset..] && f.writeBytes == |written| <= f.size
       case RECVED => |body| >= f.offset + f.size && written == body[f.offset..f.offset + f.size]
       case _ => false
  }

  /** The part of the body that reaches the slice does not reach beyond it. */
  predicate Fits(f: Firm, part: seq<byte>) {
    f.phase == PREPARE && f.readBytes + |part| >= f.offset ==> f.readBytes + |part| <= f.offset + f.size
  }

  lemma BodyIsSlice(f: Firm, body: seq<byte>, written: seq<byte>)
    requires BodyOk(f, body, written)
    ensures written == Slice(body, f.offset, f.size)
    ensures f.phase == RECVED ==> |written| == f.size
  {
  }

  lemma PrepareOk(f: Firm, body: seq<byte>, part: seq<byte>)
    requires BodyOk(f, body, []) && f.phase == PREPARE && part != [] && Fits(f, part)
    ensures var r := BodyStep(f, part); r.Out? && BodyOk(r.firm, body + part, r.data)
  {
    var read := |body| + |part|;
    if read >= f.offset {
      var k := |part| - (read - f.offset);
      assert (body + part)[f.offset..] == part[k..];
    }
  }

  lemma StartOk(f: Firm, body: seq<byte>, written: seq<byte>, part: seq<byte>)
    requires BodyOk(f, body, written) && f.phase == START
    ensures var r := BodyStep(f, part); r.Out? && BodyOk(r.firm, body + part, written + r.data)
  {
    assert (body + part)[f.offset..] == written + part;
    if f.writeBytes + |part| > f.size {
      var n := f.size - f.writeBytes;
      assert (body + part)[f.offset..f.offset + f.size] == (written + part)[..f.size] == written + part[..n];
    }
  }

  /** Another part of the body: the slice grows by what of it lies in the slice. */
  lemma BodyStepOk(f: Firm, body: seq<byte>, written: seq<byte>, part: seq<byte>)
    requires BodyOk(f, body, written) && f.phase != RECVED && part != [] && Fits(f, part)
    ensures var r := BodyStep(f, part); r.Out? && BodyOk(r.firm, body + part, written + r.data)
  {
    if f.phase == PREPARE {
      PrepareOk(f, body, part);
      assert written + BodyStep(f, part).data == BodyStep(f, part).data;
    } else {
      StartOk(f, body, written, part);
    }
  }

  /** The first write is right if and only if the part that reaches the slice does not reach beyond it. */
  lemma FirstWriteExact(f: Firm, body: seq<byte>, part: seq<byte>)
    requires BodyOk(f, body, []) && f.phase == PREPARE && part != []
    ensures var r := BodyStep(f, part);
      r.Out? && (r.data == Slice(body + part, f.offset, f.size) <==> Fits(f, part))
  {
    var read := |body| + |part|;
    if read >= f.offset {
      var k := |part| - (read - f.offset);
      assert (body + part)[f.offset..] == part[k..];
    }
  }

  /** A slice of one byte, and a first part of the body of two: both are written. */
  lemma FirstWriteTooLong()
    ensures var f := Firm(1, 0, PREPARE, 1, 0, 0, 1, 0);
      && BodyOk(f, [], []) && Sized(f) && !Fits(f, [7, 8])
      && BodyStep(f, [7, 8]).Out? && BodyStep(f, [7, 8]).data == [7, 8] && Slice([7, 8], f.offset, f.size) == [7]
  {
  }

  /** A slice of at least a buffer's length always fits. */
  lemma LargeFits(f: Firm, body: seq<byte>, written: seq<byte>, part: seq<byte>)
    requires BodyOk(f, body, written) && |part| <= TEXT_BUFFSIZE <= f.size
    ensures Fits(f, part)
  {
  }

  // ---------------------------------------------------------------------------------------------------------
  // The stream

  /** The header without the body: how parsing it goes does not depend on what the fields hold. */
  lemma {:induction false} HttpScans(f: Firm, chunk: seq<byte>, i: nat)
    requires f.parts > 0
    ensures var r := ParseHttp(f, chunk, i);
      && (r.Done? ==> ScanHeader(chunk, i) == Found(r.next) && r.firm.phase == PREPARE)
      && (r.More? ==> ScanHeader(chunk, i).AtEnd? || ScanHeader(chunk, i).Zero?)
      && (r.More? ==> r.firm.phase == f.phase)
      && (!r.Fatal? ==> r.firm.readBytes == f.readBytes && r.firm.writeBytes == f.writeBytes)
    decreases |chunk| - i
  {
    if i >= |chunk| || chunk[i] == 0 {
    } else {
      var length := if f.contentLen == 0 then ContentLength(chunk) else Absent;
      var g := if length.Length? then NoteLength(f, length.n) else f;
      HttpScans(g, chunk, i + LineLength(chunk, i));
    }
  }

  lemma {:induction false} HttpSized(f: Firm, chunk: seq<byte>, i: nat)
    requires Sized(f)
    ensures var r := ParseHttp(f, chunk, i); !r.Fatal? ==> Sized(r.firm)
    decreases |chunk| - i
  {
    if i >= |chunk| || chunk[i] == 0 {
    } else {
      var length := if f.contentLen == 0 then ContentLength(chunk) else Absent;
      var g := if length.Length? then NoteLength(f, length.n) else f;
      HttpSized(g, chunk, i + LineLength(chunk, i));
    }
  }

  /** The slice stays the one that the content length gives. */
  lemma StaysSized(f: Firm, chunk: seq<byte>)
    requires Sized(f)
    ensures var r := ParseMsg(f, chunk); r.Out? ==> Sized(r.firm)
  {
    HttpSized(f, chunk, 0);
  }

  /** What the client has made of the stream so far. */
  predicate StreamOk(f: Firm, stream: seq<byte>, written: seq<byte>) {
    && f.parts > 0
    && if f.phase == INIT then
         written == [] && ScanHeader(stream, 0) == AtEnd && f.readBytes == 0 && f.writeBytes == 0
       else
         && ScanHeader(stream, 0).Found?
         && ScanHeader(stream, 0).next <= |stream|
         && BodyOk(f, stream[ScanHeader(stream, 0).next..], written)
  }

  /** The body of a stream, empty until the header has ended. */
  function Body(stream: seq<byte>): seq<byte> {
    var r := ScanHeader(stream, 0);
    if r.Found? && r.next <= |stream| then stream[r.next..] else []
  }

  /** The slice is as long as a buffer, or else the part of the body does not reach beyond the slice. */
  predicate Suits(f: Firm, part: seq<byte>) {
    f.size < WORD && (TEXT_BUFFSIZE <= f.size || Fits(f, part))
  }

  predicate HeaderSuits(h: Http, chunk: seq<byte>) {
    h.Done? && h.next <= |chunk| ==> Suits(h.firm, chunk[h.next..])
  }

  /** What is asked of a chunk: no header line starts with a zero byte, and its part of the body suits. */
  predicate Regular(f: Firm, chunk: seq<byte>)
    requires f.parts > 0
  {
    && 0 < |chunk| <= TEXT_BUFFSIZE
    && if f.phase == INIT then
         !ScanHeader(chunk, 0).Zero? && HeaderSuits(ParseHttp(f, chunk, 0), chunk)
       else Suits(f, chunk)
  }

  lemma FirstPart(g: Firm, part: seq<byte>)
    requires g.phase == PREPARE && g.readBytes == 0 && g.writeBytes == 0
    requires 0 < |part| <= TEXT_BUFFSIZE && Suits(g, part)
    ensures var r := BodyStep(g, part); r.Out? && BodyOk(r.firm, part, r.data)
  {
    assert BodyOk(g, [], []);
    assert TEXT_BUFFSIZE <= g.size ==> Fits(g, part);
    PrepareOk(g, [], part);
    assert [] + part == part;
  }

  /** The first part of the body, behind a header that ends in `chunk`. */
  lemma BodyBegins(g: Firm, next: nat, stream: seq<byte>, chunk: seq<byte>)
    requires g.parts > 0 && g.phase == PREPARE && g.readBytes == 0 && g.writeBytes == 0
    requires ScanHeader(stream + chunk, 0) == Found(|stream| + next)
    requires next <= |chunk| <= TEXT_BUFFSIZE && Suits(g, chunk[next..])
    ensures var r := AfterHeader(Done(g, next), chunk); r.Out? && StreamOk(r.firm, stream + chunk, r.data)
  {
    var part := chunk[next..];
    assert (stream + chunk)[|stream| + next..] == part;
    if next < |chunk| {
      FirstPart(g, part);
    }
  }

  lemma HeaderTaken(h: Http, stream: seq<byte>, chunk: seq<byte>)
    requires ScanHeader(stream, 0) == AtEnd && HeaderSuits(h, chunk) && |chunk| <= TEXT_BUFFSIZE
    requires h.Done? ==> ScanHeader(chunk, 0) == Found(h.next) && h.firm.phase == PREPARE
    requires h.More? ==> ScanHeader(chunk, 0) == AtEnd && h.firm.phase == INIT
    requires !h.Fatal? ==> h.firm.parts > 0 && h.firm.readBytes == 0 && h.firm.writeBytes == 0
    ensures var r := AfterHeader(h, chunk); r.Out? ==> StreamOk(r.firm, stream + chunk, r.data)
  {
    ScanAppend(stream, chunk, 0);
    ScanInside(chunk, 0);
    if h.Done? {
      BodyBegins(h.firm, h.next, stream, chunk);
    }
  }

  lemma HeaderChunk(f: Firm, stream: seq<byte>, chunk: seq<byte>)
    requires StreamOk(f, stream, []) && f.phase == INIT && Regular(f, chunk)
    ensures var r := ParseMsg(f, chunk); r.Out? ==> StreamOk(r.firm, stream + chunk, r.data)
  {
    HttpScans(f, chunk, 0);
    HeaderTaken(ParseHttp(f, chunk, 0), stream, chunk);
  }

  lemma BodyChunk(f: Firm, stream: seq<byte>, written: seq<byte>, chunk: seq<byte>)
    requires StreamOk(f, stream, written) && f.phase != INIT && f.phase != RECVED && Regular(f, chunk)
    ensures var r := ParseMsg(f, chunk); r.Out? && StreamOk(r.firm, stream + chunk, written + r.data)
  {
    var h := ScanHeader(stream, 0).next;
    ScanAppend(stream, chunk, 0);
    assert (stream + chunk)[h..] == stream[h..] + chunk;
    if TEXT_BUFFSIZE <= f.size {
      LargeFits(f, stream[h..], written, chunk);
    }
    BodyStepOk(f, stream[h..], written, chunk);
  }

  /** The client after all chunks, and what it has written; it stops early once the slice is complete. */
  datatype Session = Session(firm: Firm, stream: seq<byte>, written: seq<byte>) | Broken

  function Receive(f: Firm, stream: seq<byte>, written: seq<byte>, chunks: seq<seq<byte>>): Session
    requires f.parts > 0
    decreases |chunks|
  {
    if chunks == [] || f.phase == RECVED || f.phase == FINISH then Session(f, stream, written)
    else
      var r := ParseMsg(f, chunks[0]);
      if r.Failed? then Broken
      else Receive(r.firm, stream + chunks[0], written + r.data, chunks[1..])
  }

  /** All chunks that are looked at are regular. */
  predicate AllRegular(f: Firm, chunks: seq<seq<byte>>)
    requires f.parts > 0
    decreases |chunks|
  {
    || chunks == [] || f.phase == RECVED || f.phase == FINISH
    || (Regular(f, chunks[0])
        && (ParseMsg(f, chunks[0]).Out? ==> AllRegular(ParseMsg(f, chunks[0]).firm, chunks[1..])))
  }

  lemma {:induction false} ReceiveOk(f: Firm, stream: seq<byte>, written: seq<byte>, chunks: seq<seq<byte>>)
    requires StreamOk(f, stream, written) && Sized(f) && AllRegular(f, chunks)
    ensures var s := Receive(f, stream, written, chunks);
      s.Session? ==>
        StreamOk(s.firm, s.stream, s.written) && Sized(s.firm) && s.firm.parts == f.parts && s.firm.part == f.part
    decreases |chunks|
  {
    if chunks == [] || f.phase == RECVED || f.phase == FINISH {
    } else {
      var r := ParseMsg(f, chunks[0]);
      StaysSized(f, chunks[0]);
      if f.phase == INIT {
        HeaderChunk(f, stream, chunks[0]);
        assert r.Out? ==> written + r.data == r.data;
      } else {
        BodyChunk(f, stream, written, chunks[0]);
      }
      if r.Out? {
        ReceiveOk(r.firm, stream + chunks[0], written + r.data, chunks[1..]);
      }
    }
  }

  function Fresh(parts: nat, part: nat): Firm {
    Firm(parts, part, INIT, 0, 0, 0, 0, 0)
  }

  /**
   * However a response is cut into chunks, as long as the client does not give up, it has written exactly the part
   * of the slice that has arrived, and all of it once it says so. The slice is the one that the content length gives.
   */
  lemma ChunkingIndependent(parts: nat, part: nat, chunks: seq<seq<byte>>)
    requires parts > 0 && AllRegular(Fresh(parts, part), chunks)
    ensures var s := Receive(Fresh(parts, part), [], [], chunks);
      s.Session? ==>
        && (s.firm.phase != INIT ==> s.written == Slice(Body(s.stream), s.firm.offset, s.firm.size))
        && (s.firm.phase == INIT ==> s.written == [])
        && (s.firm.phase == RECVED ==> |s.written| == s.firm.size)
        && s.firm.size == PartSize(s.firm.contentLen, parts) && s.firm.offset == PartStart(s.firm.size, part)
  {
    ReceiveOk(Fresh(parts, part), [], [], chunks);
    var s := Receive(Fresh(parts, part), [], [], chunks);
    if s.Session? && s.firm.phase != INIT {
      BodyIsSlice(s.firm, Body(s.stream), s.written);
    }
  }

  // ---------------------------------------------------------------------------------------------------------
  // The loop over one chunk

  /** Where the loop over a chunk stands. */
  datatype Loop = Loop(phase: Phase, pos: nat)

  /** Behind the header the loop goes on with the body; otherwise the chunk is used up. */
  function HeaderTurn(h: Http, input: seq<byte>, pos: nat): (r: Loop)
    requires pos <= |input|
    ensures r.pos <= |input|
  {
    if h.Done? && pos + h.next <= |input| then Loop(PREPARE, pos + h.next) else Loop(INIT, |input|)
  }

  function LoopTurn(f: Firm, input: seq<byte>, l: Loop): (r: Loop)
    requires f.parts > 0 && l.pos <= |input|
    ensures r.pos <= |input|
  {
    match l.phase
    case INIT => HeaderTurn(ParseHttp(f, input[l.pos..], 0), input, l.pos)
    case PREPARE => Loop(START, |input|)
    case START => Loop(START, |input|)
    case RECVED => Loop(FINISH, l.pos)
    case FINISH => l
  }

  function LoopAfter(f: Firm, input: seq<byte>, turns: nat): (r: Loop)
    requires f.parts > 0
    ensures r.pos <= |input|
  {
    if turns == 0 then Loop(f.phase, 0) else LoopTurn(f, input, LoopAfter(f, input, turns - 1))
  }

  lemma TurnStuck(f: Firm, input: seq<byte>, l: Loop)
    requires f.parts > 0 && l.pos <= |input| && (l.phase == RECVED || l.phase == FINISH)
    ensures LoopTurn(f, input, l) == Loop(FINISH, l.pos)
  {
  }

  lemma {:induction false} LoopStuck(f: Firm, input: seq<byte>, turns: nat)
    requires f.parts > 0 && (f.phase == RECVED || f.phase == FINISH)
    ensures LoopAfter(f, input, turns).pos == 0
    ensures LoopAfter(f, input, turns).phase == RECVED || LoopAfter(f, input, turns).phase == FINISH
  {
    if turns == 0 {
    } else {
      LoopStuck(f, input, turns - 1);
      TurnStuck(f, input, LoopAfter(f, input, turns - 1));
    }
  }

  /** After that many turns the loop has come to the end of the chunk. */
  predicate EndsAfter(f: Firm, input: seq<byte>, turns: nat)
    requires f.parts > 0
  {
    turns >= 1 && LoopAfter(f, input, turns).pos == |input|
  }

  lemma TwoTurns(f: Firm, input: seq<byte>)
    requires f.parts > 0 && f.phase != RECVED && f.phase != FINISH
    ensures EndsAfter(f, input, 1) || EndsAfter(f, input, 2)
  {
    var one := LoopAfter(f, input, 1);
    assert one == LoopTurn(f, input, LoopAfter(f, input, 0));
    assert LoopAfter(f, input, 2) == LoopTurn(f, input, one);
  }

  /** The loop over a chunk ends if and only if the slice was not complete before, or the chunk is empty. */
  lemma LoopEnds(f: Firm, input: seq<byte>)
    requires f.parts > 0
    ensures (exists turns :: EndsAfter(f, input, turns))
       <==> input == [] || (f.phase != RECVED && f.phase != FINISH)
  {
    if input == [] {
      assert EndsAfter(f, input, 1);
    } else if f.phase == RECVED || f.phase == FINISH {
      forall turns: nat
        ensures !EndsAfter(f, input, turns)
      {
        LoopStuck(f, input, turns);
      }
    } else {
      TwoTurns(f, input);
    }
  }

  /** The parser object. */
  class Client {
    const parts: nat
    const part: nat
    var phase: Phase
    var contentLen: nat
    var readBytes: nat
    var writeBytes: nat
    var size: nat
    var offset: nat
    var buf: seq<byte>
    var bytes: nat

    ghost function Abs(): Firm
      reads this
    {
      Firm(parts, part, phase, contentLen, readBytes, writeBytes, size, offset)
    }

    constructor (parts: nat, part: nat)
      ensures Abs() == Fresh(parts, part)
    {
      this.parts, this.part := parts, part;
      phase, contentLen, readBytes, writeBytes, size, offset := INIT, 0, 0, 0, 0, 0;
      buf, bytes := [], 0;
    }

    /** What is to be written, if the phase says that there is something. */
    ghost predicate Holds(r: Out)
      reads this
    {
      && r.Out? && Abs() == r.firm
      && (if phase == START || phase == RECVED then bytes <= |buf| && buf[..bytes] == r.data else r.data == [])
    }

    /** The content length is looked for as long as it is zero. */
    method LookForLength(chunk: seq<byte>) returns (fatal: bool)
      requires parts > 0
      modifies this`contentLen, this`size, this`offset
      ensures var length := if old(contentLen) == 0 then ContentLength(chunk) else Absent;
        && (fatal <==> length.Unterminated?)
        && (!fatal ==> Abs() == if length.Length? then NoteLength(old(Abs()), length.n) else old(Abs()))
    {
      fatal := false;
      if contentLen == 0 {
        var length := ContentLength(chunk);
        if length.Unterminated? {
          fatal := true;
        } else if length.Length? {
          contentLen, size := length.n, PartSize(length.n, parts);
          offset := PartStart(size, part);
        }
      }
    }

    /** One line after the other, up to the empty one. */
    method ReadHeader(chunk: seq<byte>) returns (done: bool, next: nat, fatal: bool)
      requires parts > 0 && phase == INIT
      modifies this`contentLen, this`size, this`offset
      ensures var h := ParseHttp(old(Abs()), chunk, 0);
        && (fatal <==> h.Fatal?)
        && (!fatal ==> (done <==> h.Done?) && (done ==> next == h.next && Abs().(phase := PREPARE) == h.firm)
                       && (!done ==> Abs() == h.firm))
    {
      var i: nat := 0;
      done, next, fatal := false, 0, false;
      while i < |chunk| && chunk[i] != 0
        invariant phase == INIT && parts > 0
        invariant ParseHttp(Abs(), chunk, i) == ParseHttp(old(Abs()), chunk, 0)
        decreases |chunk| - i
      {
        fatal := LookForLength(chunk);
        if fatal {
          return;
        }
        var n := ReadUntil(chunk, i);
        if n > |chunk| - i {
          return false, 0, true;
        }
        if n == 2 {
          return contentLen != 0, i + 2, contentLen == 0;
        }
        i := i + n;
      }
    }

    /** A part of the body. */
    method TakeBody(piece: seq<byte>) returns (ok: bool)
      requires phase == PREPARE || phase == START
      modifies this`phase, this`readBytes, this`writeBytes, this`buf, this`bytes
      ensures ok == BodyStep(old(Abs()), piece).Out?
      ensures ok ==> Holds(BodyStep(old(Abs()), piece))
    {
      if phase == PREPARE {
        readBytes := readBytes + |piece|;
        if readBytes >= offset {
          bytes := readBytes - offset;
          if bytes > |piece| {
            return false;
          }
          buf := piece[|piece| - bytes..];
          writeBytes := writeBytes + bytes;
          phase := START;
          assert buf[..bytes] == buf;
        }
      } else {
        if writeBytes + |piece| > size {
          bytes := Sub32(size, writeBytes);
          phase := RECVED;
        } else {
          bytes := |piece|;
        }
        buf := piece;
        if bytes > |buf| {
          return false;
        }
        writeBytes := writeBytes + bytes;
        assert buf[..|buf|] == buf;
      }
      return true;
    }

    /** One chunk; the loop goes round a second time when the header ends inside the chunk. */
    method TakeChunk(chunk: seq<byte>) returns (ok: bool)
      requires parts > 0 && phase != RECVED && phase != FINISH
      modifies this
      ensures ok == ParseMsg(old(Abs()), chunk).Out?
      ensures ok ==> Holds(ParseMsg(old(Abs()), chunk))
    {
      if phase != INIT {
        ok := TakeBody(chunk);
        return;
      }
      var done, next, fatal := ReadHeader(chunk);
      if fatal {
        return false;
      }
      if !done {
        return true;
      }
      phase := PREPARE;
      if next >= |chunk| {
        return true;
      }
      ok := TakeBody(chunk[next..]);
    }

    /** The receive loop: every chunk may lead to one write, and the loop ends when the slice is complete. */
    method Run(chunks: seq<seq<byte>>) returns (ok: bool, written: seq<byte>)
      requires parts > 0 && Abs() == Fresh(parts, part)
      modifies this
      ensures var s := Receive(Fresh(parts, part), [], [], chunks);
        (ok <==> s.Session?) && (ok ==> s.written == written && s.firm == Abs())
    {
      written := [];
      ghost var stream: seq<byte> := [];
      var i := 0;
      while i < |chunks| && phase != RECVED && phase != FINISH
        invariant 0 <= i <= |chunks|
        invariant Receive(Abs(), stream, written, chunks[i..]) == Receive(Fresh(parts, part), [], [], chunks)
        decreases |chunks| - i
      {
        ghost var before := Abs();
        ok := TakeChunk(chunks[i]);
        assert chunks[i..][1..] == chunks[i + 1..];
        if !ok {
          return false, written;
        }
        stream := stream + chunks[i];
        if phase == START || phase == RECVED {
          written := written + buf[..bytes];
        } else {
          assert written + [] == written;
        }
        i := i + 1;
      }
      return true, written;
    }
  }
}
