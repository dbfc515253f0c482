/** When the cut of a response into chunks makes no difference to what the over-the-air client writes. */
module OtaCuts {
  import opened Bytes
  import opened Ota

  // ---------------------------------------------------------------------------------------------------------
  // Searching

  predicate OccursAt(text: seq<int>, pattern: seq<int>, k: nat) {
    k + |pattern| <= |text| && text[k..k + |pattern|] == pattern
  }

  lemma {:induction false} FindIs(text: seq<int>, pattern: seq<int>, i: nat, k: nat)
    requires i <= k && OccursAt(text, pattern, k)
    requires forall j :: i <= j < k ==> !OccursAt(text, pattern, j)
    ensures Find(text, pattern, i) == k
    decreases k - i
  {
    if i == k {
    } else {
      assert !OccursAt(text, pattern, i);
      FindIs(text, pattern, i + 1, k);
    }
  }

  lemma {:induction false} FindNone(text: seq<int>, pattern: seq<int>, i: nat)
    requires forall j: nat :: i <= j ==> !OccursAt(text, pattern, j)
    ensures Find(text, pattern, i) > |text|
    decreases |text| - i
  {
    if i + |pattern| > |text| {
    } else {
      assert !OccursAt(text, pattern, i);
      FindNone(text, pattern, i + 1);
    }
  }

  lemma SliceOfSlice(s: seq<int>, a: nat, b: nat, i: nat, j: nat)
    requires a <= b <= |s| && i <= j <= b - a
    ensures s[a..b][i..j] == s[a + i..a + j]
  {
    forall k | 0 <= k < j - i
      ensures s[a..b][i..j][k] == s[a + i..a + j][k]
    {
      assert s[a..b][i..j][k] == s[a..b][i + k] == s[a + i + k];
    }
  }

  /** What occurs in a piece of a text occurs in the text. */
  lemma OccursInside(whole: seq<int>, a: nat, piece: seq<int>, pattern: seq<int>, k: nat)
    requires a + |piece| <= |whole| && whole[a..a + |piece|] == piece
    ensures OccursAt(piece, pattern, k) ==> OccursAt(whole, pattern, a + k)
    ensures k + |pattern| <= |piece| && OccursAt(whole, pattern, a + k) ==> OccursAt(piece, pattern, k)
  {
    if k + |pattern| <= |piece| {
      SliceOfSlice(whole, a, a + |piece|, k, k + |pattern|);
    }
  }

  predicate NoneBefore(text: seq<int>, pattern: seq<int>, at: nat) {
    forall k: nat :: k < at ==> !OccursAt(text, pattern, k)
  }

  lemma NoneBeforeInside(whole: seq<int>, a: nat, piece: seq<int>, pattern: seq<int>, at: nat)
    requires a + |piece| <= |whole| && whole[a..a + |piece|] == piece && a <= at && NoneBefore(whole, pattern, at)
    ensures NoneBefore(piece, pattern, at - a)
  {
    forall k: nat | k < at - a
      ensures !OccursAt(piece, pattern, k)
    {
      OccursInside(whole, a, piece, pattern, k);
    }
  }

  // ---------------------------------------------------------------------------------------------------------
  // The content length of a response

  /** No zero byte hides any of the first `k` bytes. */
  predicate Visible(s: seq<int>, k: nat) {
    k <= |s| && forall i :: 0 <= i < k ==> s[i] != 0
  }

  predicate Reads(s: seq<int>, from: nat, to: nat, n: nat) {
    from <= to <= |s| && n == Number(s[from..to])
  }

  predicate OneLine(s: seq<int>, at: nat, end: nat) {
    end < |s| && forall k :: at <= k <= end ==> s[k] != NEWLINE
  }

  /**
   * The text "Content-Length" is first found at `at`, the line goes on to `end` and gives `n`, and up to there no zero
   * byte hides anything.
   */
  predicate LengthLine(s: seq<int>, at: nat, end: nat, n: nat) {
    && OccursAt(s, CONTENT_LENGTH, at) && NoneBefore(s, CONTENT_LENGTH, at)
    && at + 16 <= end < at + 48 && OccursAt(s, CRLF, end) && OneLine(s, at, end) && Visible(s, end + 2)
    && Reads(s, at + 16, end, n)
  }

  /** A response with a whole header that gives a positive content length in its first line about it. */
  predicate Declares(response: seq<byte>, at: nat, end: nat, n: nat) {
    && LengthLine(response, at, end, n) && n > 0
    && ScanHeader(response, 0).Found? && end + 2 <= ScanHeader(response, 0).next <= |response|
  }

  lemma CStrReaches(s: seq<int>, k: nat)
    requires Visible(s, k)
    ensures |CStr(s)| >= k
  {
    var c := CStr(s);
  }

  /** A piece with the whole line in it. */
  lemma LineInPiece(whole: seq<int>, a: nat, piece: seq<int>, at: nat, end: nat, n: nat)
    requires a + |piece| <= |whole| && whole[a..a + |piece|] == piece
    requires LengthLine(whole, at, end, n) && a <= at && end + 2 <= a + |piece|
    ensures LengthLine(piece, at - a, end - a, n)
  {
    OccursInside(whole, a, piece, CONTENT_LENGTH, at - a);
    OccursInside(whole, a, piece, CRLF, end - a);
    NoneBeforeInside(whole, a, piece, CONTENT_LENGTH, at);
    SliceOfSlice(whole, a, a + |piece|, at - a + 16, end - a);
    assert forall k :: 0 <= k < |piece| ==> piece[k] == whole[a + k];
  }

  lemma LineEnds(text: seq<int>, at: nat, end: nat)
    requires at + 16 <= end && OccursAt(text, CRLF, end) && OneLine(text, at, end)
    ensures Find(text, CRLF, at + 16) == end
  {
    forall k | at + 16 <= k < end
      ensures !OccursAt(text, CRLF, k)
    {
      assert text[k..k + 2][1] == text[k + 1] && CRLF[1] == NEWLINE;
    }
    FindIs(text, CRLF, at + 16, end);
  }

  lemma TextGives(text: seq<int>, at: nat, end: nat, n: nat)
    requires LengthLine(text, at, end, n)
    ensures LengthIn(text) == Length(n)
  {
    FindIs(text, CONTENT_LENGTH, 0, at);
    LineEnds(text, at, end);
  }

  /** In a chunk, that line gives the content length, whatever follows it. */
  lemma LineGives(chunk: seq<byte>, at: nat, end: nat, n: nat)
    requires LengthLine(chunk, at, end, n)
    ensures ContentLength(chunk) == Length(n)
  {
    var text := CStr(chunk);
    CStrReaches(chunk, end + 2);
    LineInPiece(chunk, 0, text, at, end, n);
    TextGives(text, at, end, n);
  }

  lemma PieceGives(whole: seq<byte>, a: nat, piece: seq<byte>, at: nat, end: nat, n: nat)
    requires a + |piece| <= |whole| && whole[a..a + |piece|] == piece
    requires LengthLine(whole, at, end, n) && a <= at && end + 2 <= a + |piece|
    ensures ContentLength(piece) == Length(n)
  {
    LineInPiece(whole, a, piece, at, end, n);
    LineGives(piece, at - a, end - a, n);
  }

  /** A chunk in front of that line gives none. */
  lemma NoLine(response: seq<byte>, a: nat, chunk: seq<byte>, at: nat)
    requires a + |chunk| <= at && a + |chunk| <= |response| && response[a..a + |chunk|] == chunk
    requires NoneBefore(response, CONTENT_LENGTH, at)
    ensures ContentLength(chunk) == Absent
  {
    var text := CStr(chunk);
    assert response[a..a + |text|] == text;
    forall j: nat
      ensures !OccursAt(text, CONTENT_LENGTH, j)
    {
      OccursInside(response, a, text, CONTENT_LENGTH, j);
    }
    FindNone(text, CONTENT_LENGTH, 0);
  }

  // ---------------------------------------------------------------------------------------------------------
  // What the header gives

  /** The content length after a chunk of the header. */
  function Noted(before: nat, length: Length): nat {
    if before == 0 && length.Length? then length.n else before
  }

  lemma {:induction false} HttpNotes(f: Firm, chunk: seq<byte>, i: nat)
    requires f.parts > 0 && i < |chunk| && chunk[i] != 0
    ensures var r := ParseHttp(f, chunk, i);
      !r.Fatal? ==> r.firm.contentLen == Noted(f.contentLen, ContentLength(chunk))
    decreases |chunk| - i
  {
    var length := if f.contentLen == 0 then ContentLength(chunk) else Absent;
    var g := if length.Length? then NoteLength(f, length.n) else f;
    var next := i + LineLength(chunk, i);
    assert g.contentLen == Noted(f.contentLen, ContentLength(chunk));
    if next >= |chunk| || chunk[next] == 0 {
    } else {
      HttpNotes(g, chunk, next);
    }
  }

  lemma {:induction false} EndsLine(s: seq<byte>, i: nat)
    requires i < |s| && i + LineLength(s, i) <= |s|
    ensures s[i + LineLength(s, i) - 1] == NEWLINE
    decreases |s| - i
  {
    if s[i] == NEWLINE {
    } else {
      EndsLine(s, i + 1);
    }
  }

  /** A header that goes on behind a chunk goes on with a new line. */
  lemma {:induction false} EndsWithNewline(s: seq<byte>, i: nat)
    requires i < |s| && ScanHeader(s, i) == AtEnd
    ensures s[|s| - 1] == NEWLINE
    decreases |s| - i
  {
    EndsLine(s, i);
    if i + LineLength(s, i) == |s| {
    } else {
      EndsWithNewline(s, i + LineLength(s, i));
    }
  }

  /** What the client knows of the content length, having seen so much of the response. */
  predicate Knows(f: Firm, seen: nat, at: nat, n: nat) {
    f.contentLen == if f.phase == INIT && seen <= at then 0 else n
  }

  /** The header that ends in a chunk is the header of the response. */
  lemma SameHeader(front: seq<byte>, chunk: seq<byte>, rest: seq<byte>)
    requires ScanHeader(front, 0) == AtEnd && ScanHeader(chunk, 0).Found?
    ensures ScanHeader(front + chunk + rest, 0) == Found(|front| + ScanHeader(chunk, 0).next)
    ensures ScanHeader(chunk, 0).next <= |chunk|
  {
    ScanAppend(front, chunk, 0);
    ScanAppend(front + chunk, rest, 0);
    ScanInside(chunk, 0);
  }

  /** A chunk that the client gets through in its header loop has the whole of a line or nothing of it. */
  lemma WholeLine(response: seq<byte>, front: seq<byte>, chunk: seq<byte>, rest: seq<byte>, at: nat, end: nat)
    requires response == front + chunk + rest
    requires |front| <= at < |front| + |chunk| && OneLine(response, at, end)
    requires ScanHeader(response, 0).Found? && end + 2 <= ScanHeader(response, 0).next
    requires ScanHeader(front, 0) == AtEnd && (ScanHeader(chunk, 0).Found? || ScanHeader(chunk, 0).AtEnd?)
    ensures end + 2 <= |front| + |chunk|
  {
    if ScanHeader(chunk, 0).Found? {
      SameHeader(front, chunk, rest);
    } else {
      EndsWithNewline(chunk, 0);
      assert response[|front| + |chunk| - 1] == chunk[|chunk| - 1];
    }
  }

  lemma InPieces(s: seq<byte>, a: nat, piece: seq<byte>)
    requires a + |piece| <= |s| && s[a..a + |piece|] == piece
    ensures s == s[..a] + piece + s[a + |piece|..]
  {
  }

  lemma WholeLineInside(response: seq<byte>, a: nat, chunk: seq<byte>, at: nat, end: nat)
    requires a <= at < a + |chunk| <= |response| && response[a..a + |chunk|] == chunk && OneLine(response, at, end)
    requires ScanHeader(response, 0).Found? && end + 2 <= ScanHeader(response, 0).next
    requires ScanHeader(response[..a], 0) == AtEnd && (ScanHeader(chunk, 0).Found? || ScanHeader(chunk, 0).AtEnd?)
    ensures end + 2 <= a + |chunk|
  {
    InPieces(response, a, chunk);
    WholeLine(response, response[..a], chunk, response[a + |chunk|..], at, end);
  }

  lemma LineFound(response: seq<byte>, a: nat, chunk: seq<byte>, at: nat, end: nat, n: nat)
    requires Declares(response, at, end, n) && a <= at < a + |chunk| <= |response| && response[a..a + |chunk|] == chunk
    requires ScanHeader(response[..a], 0) == AtEnd && (ScanHeader(chunk, 0).Found? || ScanHeader(chunk, 0).AtEnd?)
    ensures ContentLength(chunk) == Length(n)
  {
    WholeLineInside(response, a, chunk, at, end);
    PieceGives(response, a, chunk, at, end, n);
  }

  lemma HeaderKnows(f: Firm, response: seq<byte>, a: nat, chunk: seq<byte>, at: nat, end: nat, n: nat)
    requires f.parts > 0 && f.phase == INIT && chunk != [] && !ScanHeader(chunk, 0).Zero?
    requires Declares(response, at, end, n) && a + |chunk| <= |response| && response[a..a + |chunk|] == chunk
    requires ScanHeader(response[..a], 0) == AtEnd && Knows(f, a, at, n)
    ensures var h := ParseHttp(f, chunk, 0); !h.Fatal? ==> Knows(h.firm, a + |chunk|, at, n)
  {
    HttpScans(f, chunk, 0);
    HttpNotes(f, chunk, 0);
    var h := ParseHttp(f, chunk, 0);
    if h.Fatal? || a > at {
    } else if a + |chunk| <= at {
      NoLine(response, a, chunk, at);
      NoLineGoesOn(f, chunk);
    } else {
      LineFound(response, a, chunk, at, end, n);
    }
  }

  /** The client does not leave the header without a content length. */
  lemma {:induction false} DoneKnows(f: Firm, chunk: seq<byte>, i: nat)
    requires f.parts > 0
    ensures ParseHttp(f, chunk, i).Done? ==> ParseHttp(f, chunk, i).firm.contentLen != 0
    decreases |chunk| - i
  {
    if i >= |chunk| || chunk[i] == 0 {
    } else {
      var length := if f.contentLen == 0 then ContentLength(chunk) else Absent;
      var g := if length.Length? then NoteLength(f, length.n) else f;
      DoneKnows(g, chunk, i + LineLength(chunk, i));
    }
  }

  lemma NoLineGoesOn(f: Firm, chunk: seq<byte>)
    requires f.parts > 0 && f.phase == INIT && f.contentLen == 0 && chunk != [] && chunk[0] != 0
    requires ContentLength(chunk) == Absent && !ParseHttp(f, chunk, 0).Fatal?
    ensures ParseHttp(f, chunk, 0).More?
  {
    HttpNotes(f, chunk, 0);
    DoneKnows(f, chunk, 0);
  }

  /** With a content length to be had, the client gives up on a chunk exactly when it ends inside a line. */
  lemma {:induction false} FatalExact(f: Firm, chunk: seq<byte>, i: nat)
    requires f.parts > 0 && (f.contentLen != 0 || !ContentLength(chunk).Unterminated?)
    requires ScanHeader(chunk, i).Found? ==> Noted(f.contentLen, ContentLength(chunk)) != 0
    ensures ParseHttp(f, chunk, i).Fatal? <==> ScanHeader(chunk, i).Malformed?
    decreases |chunk| - i
  {
    if i >= |chunk| || chunk[i] == 0 {
    } else {
      var length := if f.contentLen == 0 then ContentLength(chunk) else Absent;
      var g := if length.Length? then NoteLength(f, length.n) else f;
      assert g.contentLen == Noted(f.contentLen, ContentLength(chunk));
      FatalExact(g, chunk, i + LineLength(chunk, i));
    }
  }

  /** The header does not end before the line about the length. */
  lemma LineFirst(response: seq<byte>, a: nat, chunk: seq<byte>, at: nat, end: nat, n: nat)
    requires Declares(response, at, end, n) && a + |chunk| <= at && response[a..a + |chunk|] == chunk
    requires ScanHeader(response[..a], 0) == AtEnd
    ensures !ScanHeader(chunk, 0).Found?
  {
    InPieces(response, a, chunk);
    if ScanHeader(chunk, 0).Found? {
      SameHeader(response[..a], chunk, response[a + |chunk|..]);
    }
  }

  lemma HeaderFatal(f: Firm, response: seq<byte>, a: nat, chunk: seq<byte>, at: nat, end: nat, n: nat)
    requires f.parts > 0 && f.phase == INIT && chunk != [] && !ScanHeader(chunk, 0).Zero?
    requires Declares(response, at, end, n) && a + |chunk| <= |response| && response[a..a + |chunk|] == chunk
    requires ScanHeader(response[..a], 0) == AtEnd && Knows(f, a, at, n)
    ensures ParseHttp(f, chunk, 0).Fatal? <==> ScanHeader(chunk, 0).Malformed?
  {
    if ScanHeader(chunk, 0).Malformed? {
      HttpScans(f, chunk, 0);
    } else if a > at {
      FatalExact(f, chunk, 0);
    } else if a + |chunk| <= at {
      NoLine(response, a, chunk, at);
      LineFirst(response, a, chunk, at, end, n);
      FatalExact(f, chunk, 0);
    } else {
      LineFound(response, a, chunk, at, end, n);
      FatalExact(f, chunk, 0);
    }
  }

  lemma AfterKnows(h: Http, chunk: seq<byte>, seen: nat, at: nat, n: nat)
    requires !h.Fatal? ==> Knows(h.firm, seen, at, n)
    requires h.Done? ==> h.firm.phase == PREPARE
    ensures var r := AfterHeader(h, chunk); r.Out? ==> Knows(r.firm, seen, at, n)
  {
  }

  lemma BodyKnows(f: Firm, part: seq<byte>, seen: nat, more: nat, at: nat, n: nat)
    requires f.phase != INIT && Knows(f, seen, at, n)
    ensures var r := BodyStep(f, part); r.Out? ==> Knows(r.firm, more, at, n)
  {
  }

  lemma ChunkKnows(f: Firm, response: seq<byte>, a: nat, chunk: seq<byte>, at: nat, end: nat, n: nat)
    requires f.parts > 0 && Declares(response, at, end, n)
    requires a + |chunk| <= |response| && response[a..a + |chunk|] == chunk && Knows(f, a, at, n)
    requires f.phase == INIT ==> chunk != [] && !ScanHeader(chunk, 0).Zero? && ScanHeader(response[..a], 0) == AtEnd
    ensures var r := ParseMsg(f, chunk); r.Out? ==> Knows(r.firm, a + |chunk|, at, n)
  {
    if f.phase == INIT {
      HeaderKnows(f, response, a, chunk, at, end, n);
      HttpScans(f, chunk, 0);
      AfterKnows(ParseHttp(f, chunk, 0), chunk, a + |chunk|, at, n);
    } else {
      BodyKnows(f, chunk, a, a + |chunk|, at, n);
    }
  }

  // ---------------------------------------------------------------------------------------------------------
  // Any two cuts

  /** The response that the chunks are cut from. */
  function Joined(chunks: seq<seq<byte>>): seq<byte> {
    if chunks == [] then [] else chunks[0] + Joined(chunks[1..])
  }

  lemma {:induction false} ReceiveKnows(f: Firm, stream: seq<byte>, written: seq<byte>, chunks: seq<seq<byte>>,
                                        at: nat, end: nat, n: nat)
    requires StreamOk(f, stream, written) && AllRegular(f, chunks) && Knows(f, |stream|, at, n)
    requires Declares(stream + Joined(chunks), at, end, n)
    ensures var s := Receive(f, stream, written, chunks);
      s.Session? ==> Knows(s.firm, |s.stream|, at, n) && s.stream <= stream + Joined(chunks)
                     && (s.firm.phase != RECVED && s.firm.phase != FINISH ==> s.stream == stream + Joined(chunks))
    decreases |chunks|
  {
    if chunks == [] || f.phase == RECVED || f.phase == FINISH {
      assert chunks == [] ==> stream + Joined(chunks) == stream;
    } else {
      var chunk := chunks[0];
      var response := stream + Joined(chunks);
      assert response == stream + chunk + Joined(chunks[1..]);
      assert response[|stream|..|stream| + |chunk|] == chunk && response[..|stream|] == stream;
      ChunkKnows(f, response, |stream|, chunk, at, end, n);
      var r := ParseMsg(f, chunk);
      if r.Out? {
        ChunkOk(f, stream, written, chunk);
        ReceiveKnows(r.firm, stream + chunk, written + r.data, chunks[1..], at, end, n);
      }
    }
  }

  /** Some chunk of the header ends inside a line. */
  predicate CutsLine(stream: seq<byte>, chunks: seq<seq<byte>>)
    decreases |chunks|
  {
    && chunks != [] && ScanHeader(stream, 0) == AtEnd
    && (ScanHeader(stream + chunks[0], 0).Malformed? || CutsLine(stream + chunks[0], chunks[1..]))
  }

  lemma ChunkBreaks(f: Firm, stream: seq<byte>, written: seq<byte>, chunk: seq<byte>, rest: seq<byte>,
                    at: nat, end: nat, n: nat)
    requires StreamOk(f, stream, written) && f.phase != RECVED && f.phase != FINISH && Regular(f, chunk)
    requires Knows(f, |stream|, at, n) && Declares(stream + chunk + rest, at, end, n)
    ensures ParseMsg(f, chunk).Failed? <==> f.phase == INIT && ScanHeader(stream + chunk, 0).Malformed?
  {
    if f.phase == INIT {
      var response := stream + chunk + rest;
      assert response[|stream|..|stream| + |chunk|] == chunk && response[..|stream|] == stream;
      HeaderFatal(f, response, |stream|, chunk, at, end, n);
      ScanAppend(stream, chunk, 0);
      HttpScans(f, chunk, 0);
      HeaderGoes(ParseHttp(f, chunk, 0), chunk);
    } else {
      BodyChunk(f, stream, written, chunk);
    }
  }

  lemma HeaderGoes(h: Http, chunk: seq<byte>)
    requires HeaderSuits(h, chunk) && |chunk| <= TEXT_BUFFSIZE
    requires h.Done? ==> h.firm.phase == PREPARE && h.firm.readBytes == 0 && h.firm.writeBytes == 0
    ensures AfterHeader(h, chunk).Failed? <==> h.Fatal?
  {
    if h.Done? && h.next < |chunk| {
      FirstPart(h.firm, chunk[h.next..]);
    }
  }

  lemma {:induction false} ReceiveBreaks(f: Firm, stream: seq<byte>, written: seq<byte>, chunks: seq<seq<byte>>,
                                         at: nat, end: nat, n: nat)
    requires StreamOk(f, stream, written) && AllRegular(f, chunks) && Knows(f, |stream|, at, n)
    requires Declares(stream + Joined(chunks), at, end, n)
    ensures Receive(f, stream, written, chunks).Broken? <==> CutsLine(stream, chunks)
    decreases |chunks|
  {
    if chunks == [] || f.phase == RECVED || f.phase == FINISH {
    } else {
      var chunk := chunks[0];
      var response := stream + Joined(chunks);
      assert response == stream + chunk + Joined(chunks[1..]);
      assert response[|stream|..|stream| + |chunk|] == chunk && response[..|stream|] == stream;
      ChunkBreaks(f, stream, written, chunk, Joined(chunks[1..]), at, end, n);
      ChunkKnows(f, response, |stream|, chunk, at, end, n);
      var r := ParseMsg(f, chunk);
      if r.Out? {
        ChunkOk(f, stream, written, chunk);
        ReceiveBreaks(r.firm, stream + chunk, written + r.data, chunks[1..], at, end, n);
        BreaksOrNot(f, stream, written, chunk, chunks);
      }
    }
  }

  lemma BreaksOrNot(f: Firm, stream: seq<byte>, written: seq<byte>, chunk: seq<byte>, chunks: seq<seq<byte>>)
    requires chunks != [] && chunk == chunks[0] && StreamOk(f, stream, written)
    requires !(f.phase == INIT && ScanHeader(stream + chunk, 0).Malformed?)
    ensures CutsLine(stream, chunks) <==> CutsLine(stream + chunk, chunks[1..])
  {
    if f.phase != INIT {
      ScanAppend(stream, chunk, 0);
    }
  }

  lemma ChunkOk(f: Firm, stream: seq<byte>, written: seq<byte>, chunk: seq<byte>)
    requires StreamOk(f, stream, written) && f.phase != RECVED && f.phase != FINISH && Regular(f, chunk)
    ensures var r := ParseMsg(f, chunk); r.Out? ==> StreamOk(r.firm, stream + chunk, written + r.data)
  {
    if f.phase == INIT {
      HeaderChunk(f, stream, chunk);
      assert ParseMsg(f, chunk).Out? ==> written + ParseMsg(f, chunk).data == ParseMsg(f, chunk).data;
    } else {
      BodyChunk(f, stream, written, chunk);
    }
  }

  /** Once the slice is complete, the rest of the body does not matter. */
  lemma SliceOfPrefix(stream: seq<byte>, response: seq<byte>, offset: nat, size: nat)
    requires stream <= response && ScanHeader(stream, 0).Found? && |Body(stream)| >= offset + size
    ensures Slice(Body(stream), offset, size) == Slice(Body(response), offset, size)
  {
    var rest := response[|stream|..];
    assert response == stream + rest;
    ScanAppend(stream, rest, 0);
    ScanInside(stream, 0);
    assert Body(response) == Body(stream) + rest;
  }

  /**
   * A response that declares its length, however it is cut: the client gives up if and only if some chunk of the
   * header ends inside a line, and otherwise it writes part number `part` of the body and nothing else.
   */
  lemma CutIsSlice(parts: nat, part: nat, chunks: seq<seq<byte>>, at: nat, end: nat, n: nat)
    requires parts > 0 && AllRegular(Fresh(parts, part), chunks) && Declares(Joined(chunks), at, end, n)
    ensures var s := Receive(Fresh(parts, part), [], [], chunks);
      var size := PartSize(n, parts);
      && (s.Broken? <==> CutsLine([], chunks))
      && (s.Session? ==> s.written == Slice(Body(Joined(chunks)), PartStart(size, part), size))
  {
    var f := Fresh(parts, part);
    var s := Receive(f, [], [], chunks);
    assert [] + Joined(chunks) == Joined(chunks);
    ReceiveOk(f, [], [], chunks);
    ReceiveKnows(f, [], [], chunks, at, end, n);
    ReceiveBreaks(f, [], [], chunks, at, end, n);
    if s.Session? {
      assert s.firm.phase != INIT;
      BodyIsSlice(s.firm, Body(s.stream), s.written);
      if s.firm.phase == RECVED {
        SliceOfPrefix(s.stream, Joined(chunks), s.firm.offset, s.firm.size);
      }
    }
  }

  /** Two cuts of one response that leave its header lines whole lead to the same bytes. */
  lemma CutsAgree(parts: nat, part: nat, one: seq<seq<byte>>, other: seq<seq<byte>>, at: nat, end: nat, n: nat)
    requires parts > 0 && Joined(one) == Joined(other) && Declares(Joined(one), at, end, n)
    requires AllRegular(Fresh(parts, part), one) && AllRegular(Fresh(parts, part), other)
    requires !CutsLine([], one) && !CutsLine([], other)
    ensures var s, t := Receive(Fresh(parts, part), [], [], one), Receive(Fresh(parts, part), [], [], other);
      s.Session? && t.Session? && s.written == t.written
  {
    CutIsSlice(parts, part, one, at, end, n);
    CutIsSlice(parts, part, other, at, end, n);
  }

  // ---------------------------------------------------------------------------------------------------------
  // Conditions that can be seen before the run

  /** Chunks as they are received: none empty, none longer than the buffer. */
  predicate ReceivedChunks(chunks: seq<seq<byte>>) {
    forall k :: 0 <= k < |chunks| ==> 0 < |chunks[k]| <= TEXT_BUFFSIZE
  }

  /** In a response with a whole header no chunk of the header starts a line with a zero byte. */
  lemma NoZeroLine(stream: seq<byte>, chunk: seq<byte>, rest: seq<byte>)
    requires ScanHeader(stream, 0) == AtEnd && ScanHeader(stream + chunk + rest, 0).Found?
    ensures !ScanHeader(chunk, 0).Zero?
  {
    if ScanHeader(chunk, 0).Zero? {
      ScanShift(stream, chunk, 0);
      ScanGoesOn(stream, chunk, 0);
      ScanZero(stream + chunk, rest, 0);
    }
  }

  /** A header that goes on behind `a` is scanned on in what follows. */
  lemma {:induction false} ScanGoesOn(a: seq<byte>, b: seq<byte>, i: nat)
    requires i <= |a| && ScanHeader(a, i) == AtEnd
    ensures ScanHeader(a + b, i) == Shift(ScanHeader(b, 0), |a|)
    decreases |a| - i
  {
    ScanAppend(a, b, i);
  }

  /** The client knows the content length when it comes to the body, and so the size of the slice. */
  lemma KnowsSize(f: Firm, seen: nat, at: nat, n: nat)
    requires Sized(f) && Knows(f, seen, at, n) && f.phase != INIT
    ensures f.size == PartSize(n, f.parts)
  {
  }

  lemma SuitsLarge(f: Firm, part: seq<byte>, seen: nat, at: nat, n: nat)
    requires Sized(f) && Knows(f, seen, at, n) && f.phase != INIT
    requires TEXT_BUFFSIZE <= PartSize(n, f.parts) < WORD
    ensures Suits(f, part)
  {
  }

  lemma RegularChunk(f: Firm, stream: seq<byte>, chunk: seq<byte>, rest: seq<byte>, at: nat, end: nat, n: nat)
    requires f.parts > 0 && Sized(f) && Knows(f, |stream|, at, n) && Declares(stream + chunk + rest, at, end, n)
    requires 0 < |chunk| <= TEXT_BUFFSIZE <= PartSize(n, f.parts) < WORD
    requires f.phase == INIT ==> ScanHeader(stream, 0) == AtEnd
    ensures Regular(f, chunk)
  {
    if f.phase == INIT {
      var response := stream + chunk + rest;
      assert response[|stream|..|stream| + |chunk|] == chunk && response[..|stream|] == stream;
      NoZeroLine(stream, chunk, rest);
      HeaderKnows(f, response, |stream|, chunk, at, end, n);
      HttpScans(f, chunk, 0);
      HttpSized(f, chunk, 0);
      var h := ParseHttp(f, chunk, 0);
      if h.Done? && h.next <= |chunk| {
        SuitsLarge(h.firm, chunk[h.next..], |stream + chunk|, at, n);
      }
    } else {
      SuitsLarge(f, chunk, |stream|, at, n);
    }
  }

  lemma {:induction false} RegularFrom(f: Firm, stream: seq<byte>, written: seq<byte>, chunks: seq<seq<byte>>,
                                       at: nat, end: nat, n: nat)
    requires StreamOk(f, stream, written) && Sized(f) && Knows(f, |stream|, at, n) && ReceivedChunks(chunks)
    requires Declares(stream + Joined(chunks), at, end, n) && TEXT_BUFFSIZE <= PartSize(n, f.parts) < WORD
    ensures AllRegular(f, chunks)
    decreases |chunks|
  {
    if chunks == [] || f.phase == RECVED || f.phase == FINISH {
    } else {
      var chunk := chunks[0];
      var response := stream + Joined(chunks);
      assert response == stream + chunk + Joined(chunks[1..]);
      assert response[|stream|..|stream| + |chunk|] == chunk && response[..|stream|] == stream;
      RegularChunk(f, stream, chunk, Joined(chunks[1..]), at, end, n);
      ChunkKnows(f, response, |stream|, chunk, at, end, n);
      StaysSized(f, chunk);
      ChunkOk(f, stream, written, chunk);
      assert ReceivedChunks(chunks[1..]);
      var r := ParseMsg(f, chunk);
      if r.Out? {
        RegularFrom(r.firm, stream + chunk, written + r.data, chunks[1..], at, end, n);
      }
    }
  }

  /**
   * A response that declares its length, with a part of at least 1024 bytes for each partition, received in any chunks
   * of 1 to 1024 bytes: the client gives up if and only if a chunk of the header ends inside a line, and otherwise it
   * writes its part of the body and nothing else.
   */
  lemma LargePartIsSlice(parts: nat, part: nat, chunks: seq<seq<byte>>, at: nat, end: nat, n: nat)
    requires parts > 0 && ReceivedChunks(chunks) && Declares(Joined(chunks), at, end, n)
    requires TEXT_BUFFSIZE <= PartSize(n, parts) < WORD
    ensures AllRegular(Fresh(parts, part), chunks)
    ensures var s := Receive(Fresh(parts, part), [], [], chunks);
      var size := PartSize(n, parts);
      && (s.Broken? <==> CutsLine([], chunks))
      && (s.Session? ==> s.written == Slice(Body(Joined(chunks)), PartStart(size, part), size))
  {
    assert [] + Joined(chunks) == Joined(chunks);
    RegularFrom(Fresh(parts, part), [], [], chunks, at, end, n);
    CutIsSlice(parts, part, chunks, at, end, n);
  }

  /** So the cut makes no difference, as long as it leaves the lines of the header whole. */
  lemma LargePartsAgree(parts: nat, part: nat, one: seq<seq<byte>>, other: seq<seq<byte>>, at: nat, end: nat, n: nat)
    requires parts > 0 && Joined(one) == Joined(other) && Declares(Joined(one), at, end, n)
    requires TEXT_BUFFSIZE <= PartSize(n, parts) < WORD && ReceivedChunks(one) && ReceivedChunks(other)
    requires !CutsLine([], one) && !CutsLine([], other)
    ensures var s, t := Receive(Fresh(parts, part), [], [], one), Receive(Fresh(parts, part), [], [], other);
      s.Session? && t.Session? && s.written == t.written
  {
    LargePartIsSlice(parts, part, one, at, end, n);
    LargePartIsSlice(parts, part, other, at, end, n);
  }

  // ---------------------------------------------------------------------------------------------------------
  // Responses without a length

  /** Nowhere in the response is there a length: then no chunk gives one. */
  lemma NoneGiven(response: seq<byte>, a: nat, chunk: seq<byte>)
    requires a + |chunk| <= |response| && response[a..a + |chunk|] == chunk
    requires NoneBefore(response, CONTENT_LENGTH, |response|)
    ensures ContentLength(chunk) == Absent
  {
    NoLine(response, a, chunk, |response|);
  }

  lemma {:induction false} StaysUnknown(f: Firm, stream: seq<byte>, chunks: seq<seq<byte>>)
    requires f.parts > 0 && f.phase == INIT && f.contentLen == 0 && ReceivedChunks(chunks)
    requires NoneBefore(stream + Joined(chunks), CONTENT_LENGTH, |stream + Joined(chunks)|)
    ensures var s := Receive(f, stream, [], chunks); s.Session? ==> s.firm.phase == INIT && s.written == []
    decreases |chunks|
  {
    if chunks == [] {
    } else {
      var chunk := chunks[0];
      var response := stream + Joined(chunks);
      assert response == stream + chunk + Joined(chunks[1..]);
      assert response[|stream|..|stream| + |chunk|] == chunk;
      NoneGiven(response, |stream|, chunk);
      UnknownChunk(f, chunk);
      assert ReceivedChunks(chunks[1..]);
      var r := ParseMsg(f, chunk);
      if r.Out? {
        assert [] + r.data == [];
        StaysUnknown(r.firm, stream + chunk, chunks[1..]);
      }
    }
  }

  lemma UnknownChunk(f: Firm, chunk: seq<byte>)
    requires f.parts > 0 && f.phase == INIT && f.contentLen == 0 && chunk != [] && ContentLength(chunk) == Absent
    ensures var r := ParseMsg(f, chunk);
      r.Out? ==> r.data == [] && r.firm.phase == INIT && r.firm.contentLen == 0
  {
    HttpScans(f, chunk, 0);
    if chunk[0] != 0 {
      HttpNotes(f, chunk, 0);
      DoneKnows(f, chunk, 0);
    }
  }

  /** A response without any length, however it is cut: the client never writes anything. */
  lemma WithoutLength(parts: nat, part: nat, chunks: seq<seq<byte>>)
    requires parts > 0 && ReceivedChunks(chunks) && NoneBefore(Joined(chunks), CONTENT_LENGTH, |Joined(chunks)|)
    ensures var s := Receive(Fresh(parts, part), [], [], chunks); s.Session? ==> s.written == [] && s.firm.phase == INIT
  {
    assert [] + Joined(chunks) == Joined(chunks);
    StaysUnknown(Fresh(parts, part), [], chunks);
  }
}
