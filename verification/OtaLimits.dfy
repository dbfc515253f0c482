/** Cuts of a response into chunks that do make a difference to what the over-the-air client writes. */
module OtaLimits {
  import opened Bytes
  import opened Ota
  import opened OtaCuts

  // ---------------------------------------------------------------------------------------------------------
  // Lines about the content length

  /** A line "Content-Length: " with these digits. */
  function LineOf(digits: seq<byte>): seq<byte> {
    CONTENT_LENGTH + [58, 32] + digits + CRLF
  }

  predicate AllDigits(s: seq<int>) {
    forall k :: 0 <= k < |s| ==> 48 <= s[k] <= 57
  }

  /** Nothing in front of the line can be taken for it. */
  predicate Plain(s: seq<int>) {
    forall k :: 0 <= k < |s| ==> s[k] != 67 && s[k] != 0
  }

  lemma LineParts(digits: seq<byte>)
    ensures var line := LineOf(digits);
      && |line| == 18 + |digits| && line[0..14] == CONTENT_LENGTH
      && line[16..16 + |digits|] == digits && line[16 + |digits|..18 + |digits|] == CRLF
  {
    var line := LineOf(digits);
    assert line[0..14] == CONTENT_LENGTH;
    assert line[16..16 + |digits|] == digits;
    assert line[16 + |digits|..18 + |digits|] == CRLF;
  }

  lemma LineClean(digits: seq<byte>)
    requires AllDigits(digits)
    ensures OneLine(LineOf(digits), 0, 16 + |digits|) && Visible(LineOf(digits), 18 + |digits|)
  {
    var line := LineOf(digits);
    forall k | 0 <= k < |line|
      ensures line[k] != 0 && (line[k] == NEWLINE ==> k == |line| - 1)
    {
      if k < 14 {
        assert line[k] == CONTENT_LENGTH[k];
      } else if 16 <= k < 16 + |digits| {
        assert line[k] == digits[k - 16];
      }
    }
  }

  lemma LineIsLine(line: seq<byte>, digits: seq<byte>)
    requires |line| == 18 + |digits| < 50 && line[0..14] == CONTENT_LENGTH
    requires line[16..16 + |digits|] == digits && line[16 + |digits|..18 + |digits|] == CRLF
    requires OneLine(line, 0, 16 + |digits|) && Visible(line, 18 + |digits|)
    ensures LengthLine(line, 0, 16 + |digits|, Number(digits))
  {
  }

  lemma LineBytes(digits: seq<byte>)
    requires AllDigits(digits) && |digits| < 32
    ensures LengthLine(LineOf(digits), 0, 16 + |digits|, Number(digits))
  {
    LineParts(digits);
    LineClean(digits);
    LineIsLine(LineOf(digits), digits);
  }

  lemma PlainFront(s: seq<byte>, front: seq<byte>)
    requires front <= s && Plain(front)
    ensures NoneBefore(s, CONTENT_LENGTH, |front|)
  {
    forall k: nat | k < |front|
      ensures !OccursAt(s, CONTENT_LENGTH, k)
    {
      assert k + 14 <= |s| ==> s[k..k + 14][0] == s[k] == front[k];
    }
  }

  lemma LineStands(s: seq<byte>, front: seq<byte>, line: seq<byte>, rest: seq<byte>, end: nat, n: nat)
    requires s == front + line + rest && Plain(front) && LengthLine(line, 0, end, n)
    ensures LengthLine(s, |front|, |front| + end, n)
  {
    var at := |front|;
    PlainFront(s, front);
    assert s[at..at + |line|] == line;
    OccursInside(s, at, line, CONTENT_LENGTH, 0);
    OccursInside(s, at, line, CRLF, end);
    SliceOfSlice(s, at, at + |line|, 16, end);
    assert forall k :: at <= k < at + |line| ==> s[k] == line[k - at];
    assert forall k :: 0 <= k < at ==> s[k] == front[k];
  }

  lemma LineShows(s: seq<byte>, front: seq<byte>, line: seq<byte>, rest: seq<byte>, end: nat, n: nat)
    requires s == front + line + rest && Plain(front) && LengthLine(line, 0, end, n)
    ensures ContentLength(s) == Length(n)
  {
    LineStands(s, front, line, rest, end, n);
    LineGives(s, |front|, |front| + end, n);
  }

  lemma LineAt(s: seq<byte>, front: seq<byte>, digits: seq<byte>, rest: seq<byte>)
    requires s == front + LineOf(digits) + rest && Plain(front) && AllDigits(digits) && |digits| < 32
    ensures ContentLength(s) == Length(Number(digits))
  {
    LineBytes(digits);
    LineShows(s, front, LineOf(digits), rest, 16 + |digits|, Number(digits));
  }

  lemma {:induction false} LineIs(s: seq<byte>, i: nat, n: nat)
    requires n >= 1 && i + n <= |s| && s[i + n - 1] == NEWLINE
    requires forall k :: i <= k < i + n - 1 ==> s[k] != NEWLINE
    ensures LineLength(s, i) == n
    decreases n
  {
    if n == 1 {
    } else {
      LineIs(s, i + 1, n - 1);
    }
  }

  lemma LineStart(s: seq<byte>, front: seq<byte>, digits: seq<byte>, rest: seq<byte>)
    requires s == front + LineOf(digits) + rest && AllDigits(digits)
    ensures LineLength(s, |front|) == 18 + |digits|
  {
    var line := LineOf(digits);
    LineClean(digits);
    assert forall k :: 0 <= k < |line| ==> s[|front| + k] == line[k];
    LineIs(s, |front|, 18 + |digits|);
  }

  lemma EmptyLine(s: seq<byte>, front: seq<byte>, rest: seq<byte>)
    requires s == front + CRLF + rest
    ensures LineLength(s, |front|) == 2
  {
    LineIs(s, |front|, 2);
  }

  lemma NumbersAre()
    ensures Number([48]) == 0 && Number([50, 48]) == 20 && Number([57, 57]) == 99
  {
    assert [50, 48][1..] == [48] && [57, 57][1..] == [57];
    assert Digits([48], 2) == Digits([], 20) && Digits([57], 9) == Digits([], 99);
  }

  // ---------------------------------------------------------------------------------------------------------
  // Three lines in two cuts

  const ZERO: seq<byte> := LineOf([48])
  const TWENTY: seq<byte> := LineOf([50, 48])
  const NINETY_NINE: seq<byte> := LineOf([57, 57])

  /** Having seen the header, the client is to take that many bytes, all of them or a part. */
  function Prepared(n: nat): Firm {
    Firm(1, 0, PREPARE, n, 0, 0, n, 0)
  }

  /** The client has written the first twenty bytes. */
  function Started(n: nat): Firm {
    Prepared(n).(phase := START, readBytes := 20, writeBytes := 20)
  }

  lemma OneNoted(n: nat)
    ensures NoteLength(Fresh(1, 0), n) == Prepared(n).(phase := INIT)
  {
  }

  lemma GoesOn(f: Firm, chunk: seq<byte>, i: nat, n: nat, m: nat)
    requires f.parts > 0 && f.contentLen == 0 && ContentLength(chunk) == Length(m)
    requires i + n <= |chunk| && n > 2 && chunk[i] != 0 && LineLength(chunk, i) == n
    ensures ParseHttp(f, chunk, i) == ParseHttp(NoteLength(f, m), chunk, i + n)
    ensures ScanHeader(chunk, i) == ScanHeader(chunk, i + n)
  {
  }

  /** A chunk that is one line. */
  lemma OneTaken(chunk: seq<byte>, digits: seq<byte>)
    requires chunk == LineOf(digits) && AllDigits(digits) && |digits| < 32
    ensures ParseHttp(Fresh(1, 0), chunk, 0) == More(Prepared(Number(digits)).(phase := INIT))
    ensures ScanHeader(chunk, 0) == AtEnd
  {
    OneNoted(Number(digits));
    assert chunk == [] + LineOf(digits) + [];
    LineAt(chunk, [], digits, []);
    LineStart(chunk, [], digits, []);
    GoesOn(Fresh(1, 0), chunk, 0, 18 + |digits|, Number(digits));
  }

  /** A length of zero is as good as none, and a second line behind it in the same chunk is never looked at. */
  lemma ZeroHides(chunk: seq<byte>, front: seq<byte>, zero: seq<byte>, digits: seq<byte>)
    requires front == LineOf(zero) && AllDigits(zero) && |zero| < 32 && Number(zero) == 0
    requires chunk == front + LineOf(digits) && AllDigits(digits)
    ensures ParseHttp(Fresh(1, 0), chunk, 0) == More(Fresh(1, 0)) && ScanHeader(chunk, 0) == AtEnd
  {
    OneNoted(0);
    assert chunk == [] + front + LineOf(digits) && chunk == front + LineOf(digits) + [];
    LineAt(chunk, [], zero, LineOf(digits));
    LineStart(chunk, [], zero, LineOf(digits));
    LineStart(chunk, front, digits, []);
    GoesOn(Fresh(1, 0), chunk, 0, |front|, 0);
    GoesOn(Fresh(1, 0), chunk, |front|, 18 + |digits|, 0);
  }

  /** A line at the start of a chunk is looked at. */
  lemma LineTaken(chunk: seq<byte>, digits: seq<byte>, rest: seq<byte>)
    requires chunk == LineOf(digits) + CRLF + rest && AllDigits(digits) && |digits| < 32 && Number(digits) > 0
    ensures ParseHttp(Fresh(1, 0), chunk, 0) == Done(Prepared(Number(digits)), 20 + |digits|)
    ensures ScanHeader(chunk, 0) == Found(20 + |digits|)
  {
    var line := LineOf(digits);
    OneNoted(Number(digits));
    assert chunk == [] + line + (CRLF + rest);
    LineAt(chunk, [], digits, CRLF + rest);
    LineStart(chunk, [], digits, CRLF + rest);
    EmptyLine(chunk, line, rest);
    GoesOn(Fresh(1, 0), chunk, 0, |line|, Number(digits));
    assert chunk[|line|] == 13;
    HeaderDone(Prepared(Number(digits)).(phase := INIT), chunk, |line|);
  }

  /** The empty line ends the header. */
  lemma HeaderDone(f: Firm, chunk: seq<byte>, i: nat)
    requires f.parts > 0 && f.contentLen != 0 && i + 2 <= |chunk| && chunk[i] != 0 && LineLength(chunk, i) == 2
    ensures ParseHttp(f, chunk, i) == Done(f.(phase := PREPARE), i + 2) && ScanHeader(chunk, i) == Found(i + 2)
  {
  }

  /** If no length is known when the header ends, what the body says is taken for it. */
  lemma BodyTaken(chunk: seq<byte>, digits: seq<byte>)
    requires chunk == CRLF + LineOf(digits) && AllDigits(digits) && |digits| < 32 && Number(digits) > 0
    ensures ParseHttp(Fresh(1, 0), chunk, 0) == Done(Prepared(Number(digits)), 2) && ScanHeader(chunk, 0) == Found(2)
  {
    OneNoted(Number(digits));
    assert chunk == CRLF + LineOf(digits) + [] && chunk == [] + CRLF + LineOf(digits);
    LineAt(chunk, CRLF, digits, []);
    EmptyLine(chunk, [], LineOf(digits));
    assert chunk[0] == 13;
  }

  /** The same twenty bytes of body in both cases; then one more byte. */
  lemma BodyParts(body: seq<byte>)
    requires |body| == 20
    ensures Suits(Prepared(20), body) && Suits(Prepared(99), body)
    ensures BodyStep(Prepared(20), body) == Out(Started(20), body)
    ensures BodyStep(Prepared(99), body) == Out(Started(99), body)
  {
    assert body[0..] == body;
  }

  lemma LastByte()
    ensures var f := Started(20);
      BodyStep(f, [7]) == Out(f.(phase := RECVED), [])
    ensures var f := Started(99);
      BodyStep(f, [7]) == Out(f.(writeBytes := 21), [7])
  {
  }

  lemma Next(f: Firm, stream: seq<byte>, written: seq<byte>, c: seq<byte>, rest: seq<seq<byte>>,
             g: Firm, x: seq<byte>, all: seq<byte>)
    requires f.parts > 0 && f.phase != RECVED && f.phase != FINISH && ParseMsg(f, c) == Out(g, x) && all == written + x
    ensures Receive(f, stream, written, [c] + rest) == Receive(g, stream + c, all, rest)
    ensures Regular(f, c) && AllRegular(g, rest) ==> AllRegular(f, [c] + rest)
  {
    assert ([c] + rest)[1..] == rest;
  }

  lemma Last(f: Firm, stream: seq<byte>, written: seq<byte>, c: seq<byte>, g: Firm, x: seq<byte>, all: seq<byte>)
    requires f.parts > 0 && f.phase != RECVED && f.phase != FINISH && ParseMsg(f, c) == Out(g, x) && all == written + x
    ensures Receive(f, stream, written, [c]) == Session(g, stream + c, all)
    ensures Regular(f, c) ==> AllRegular(f, [c])
  {
    assert [c] == [c] + [];
    Next(f, stream, written, c, [], g, x, all);
  }

  /** A chunk of the header, the one with its end, and a chunk of the body. */
  lemma ThreeChunks(a: seq<byte>, b: seq<byte>, c: seq<byte>, h: Firm, x: seq<byte>, k: Firm, y: seq<byte>)
    requires h.parts > 0 && h.phase == START
    requires var f := Fresh(1, 0);
      && ParseMsg(f, a) == Out(f, []) && ParseMsg(f, b) == Out(h, x) && ParseMsg(h, c) == Out(k, y)
      && Regular(f, a) && Regular(f, b) && Regular(h, c)
    ensures AllRegular(Fresh(1, 0), [a, b, c])
    ensures Receive(Fresh(1, 0), [], [], [a, b, c]) == Session(k, [] + a + b + c, x + y)
  {
    var f := Fresh(1, 0);
    Last(h, [] + a + b, x, c, k, y, x + y);
    Next(f, [] + a, [], b, [c], h, x, x);
    Next(f, [], [], a, [b] + [c], f, [], []);
    assert [a, b, c] == [a] + ([b] + [c]);
  }

  lemma HeaderEnds(f: Firm, chunk: seq<byte>, g: Firm, next: nat, part: seq<byte>)
    requires f.parts > 0 && f.phase == INIT && |chunk| <= TEXT_BUFFSIZE && next < |chunk| && part == chunk[next..]
    requires ParseHttp(f, chunk, 0) == Done(g, next) && ScanHeader(chunk, 0) == Found(next)
    ensures ParseMsg(f, chunk) == BodyStep(g, part) && (Suits(g, part) ==> Regular(f, chunk))
  {
  }

  lemma LineMsg(chunk: seq<byte>, digits: seq<byte>, body: seq<byte>)
    requires chunk == LineOf(digits) + CRLF + body && AllDigits(digits) && |digits| < 32 && Number(digits) > 0
    requires body != [] && |chunk| <= TEXT_BUFFSIZE
    ensures ParseMsg(Fresh(1, 0), chunk) == BodyStep(Prepared(Number(digits)), body)
    ensures Suits(Prepared(Number(digits)), body) ==> Regular(Fresh(1, 0), chunk)
  {
    LineTaken(chunk, digits, body);
    assert chunk[20 + |digits|..] == body;
    HeaderEnds(Fresh(1, 0), chunk, Prepared(Number(digits)), 20 + |digits|, body);
  }

  lemma ZeroMsg()
    ensures ParseMsg(Fresh(1, 0), ZERO) == Out(Fresh(1, 0), []) && Regular(Fresh(1, 0), ZERO)
  {
    NumbersAre();
    OneTaken(ZERO, [48]);
    OneNoted(0);
  }

  lemma TwentyMsg(chunk: seq<byte>, body: seq<byte>)
    requires chunk == TWENTY + CRLF + body && |body| == 20
    ensures ParseMsg(Fresh(1, 0), chunk) == Out(Started(20), body) && Regular(Fresh(1, 0), chunk)
  {
    NumbersAre();
    LineMsg(chunk, [50, 48], body);
    BodyParts(body);
  }

  lemma FirstCut()
    ensures var one := [ZERO, TWENTY + CRLF + NINETY_NINE, [7]];
      var s := Receive(Fresh(1, 0), [], [], one);
      AllRegular(Fresh(1, 0), one) && s.Session? && s.firm.phase == RECVED && s.written == NINETY_NINE
  {
    ZeroMsg();
    LongLine();
    FirstCutOf(ZERO, TWENTY + CRLF + NINETY_NINE, NINETY_NINE);
  }

  lemma LongLine()
    ensures |NINETY_NINE| == 20
  {
  }

  lemma FirstCutOf(zero: seq<byte>, chunk: seq<byte>, body: seq<byte>)
    requires ParseMsg(Fresh(1, 0), zero) == Out(Fresh(1, 0), []) && Regular(Fresh(1, 0), zero)
    requires chunk == TWENTY + CRLF + body && |body| == 20
    ensures var s := Receive(Fresh(1, 0), [], [], [zero, chunk, [7]]);
      AllRegular(Fresh(1, 0), [zero, chunk, [7]]) && s.Session? && s.firm.phase == RECVED && s.written == body
  {
    TwentyMsg(chunk, body);
    LastByte();
    ThreeChunks(zero, chunk, [7], Started(20), body, Started(20).(phase := RECVED), []);
    assert body + [] == body;
  }

  lemma SecondCut()
    ensures var other := [ZERO + TWENTY, CRLF + NINETY_NINE, [7]];
      var s := Receive(Fresh(1, 0), [], [], other);
      AllRegular(Fresh(1, 0), other) && s.Session? && s.written == NINETY_NINE + [7]
  {
    var a, b, f := ZERO + TWENTY, CRLF + NINETY_NINE, Fresh(1, 0);
    var h := Started(99);
    assert b[2..] == NINETY_NINE;
    NumbersAre();
    ZeroHides(a, ZERO, [48], [50, 48]);
    assert ParseMsg(f, a) == Out(f, []) && Regular(f, a);
    BodyTaken(b, [57, 57]);
    HeaderEnds(f, b, Prepared(99), 2, NINETY_NINE);
    BodyParts(NINETY_NINE);
    LastByte();
    ThreeChunks(a, b, [7], h, NINETY_NINE, h.(writeBytes := 21), [7]);
  }

  lemma SameBytes(a: seq<byte>, b: seq<byte>, c: seq<byte>, d: seq<byte>, e: seq<byte>)
    ensures Joined([a, b + c + d, e]) == Joined([a + b, c + d, e])
  {
    assert [a, b + c + d, e][1..] == [b + c + d, e] && [b + c + d, e][1..] == [e] && [e][1..] == [];
    assert [a + b, c + d, e][1..] == [c + d, e] && [c + d, e][1..] == [e];
    assert a + (b + c + d + (e + [])) == a + b + (c + d + (e + []));
  }

  /**
   * Two cuts of one response with two lines about the length, the first of them zero. Cut between these lines, twenty
   * bytes of the body are written; cut behind them, the length is taken from the body, and more is written.
   */
  lemma CutsDiffer()
    ensures var one, other := [ZERO, TWENTY + CRLF + NINETY_NINE, [7]], [ZERO + TWENTY, CRLF + NINETY_NINE, [7]];
      && Joined(one) == Joined(other) && AllRegular(Fresh(1, 0), one) && AllRegular(Fresh(1, 0), other)
      && var s, t := Receive(Fresh(1, 0), [], [], one), Receive(Fresh(1, 0), [], [], other);
        && s.Session? && s.firm.phase == RECVED && s.written == NINETY_NINE
        && t.Session? && t.written == NINETY_NINE + [7]
  {
    FirstCut();
    SecondCut();
    SameBytes(ZERO, TWENTY, CRLF, NINETY_NINE, [7]);
  }

  // ---------------------------------------------------------------------------------------------------------
  // A header line that starts with a zero byte

  /**
   * Such a line hides the rest of its chunk: in one chunk with the end of the header it keeps the client waiting for
   * that end, in a chunk of its own it does not.
   */
  lemma ZeroByteHides(f: Firm)
    requires f.parts > 0 && f.phase == INIT && f.contentLen != 0
    ensures ParseMsg(f, [0, 13, 10]) == Out(f, [])
    ensures ParseMsg(f, [0]) == Out(f, []) && ParseMsg(f, [13, 10]) == Out(f.(phase := PREPARE), [])
  {
    EmptyLine([13, 10], [], []);
  }

  lemma HiddenOrNot(line: seq<byte>, g: Firm, zero: seq<byte>, empty: seq<byte>)
    requires ParseMsg(Fresh(1, 0), line) == Out(g, []) && g.parts > 0 && g.phase == INIT
    requires ParseMsg(g, zero + empty) == Out(g, []) && ParseMsg(g, zero) == Out(g, [])
    requires ParseMsg(g, empty) == Out(g.(phase := PREPARE), [])
    ensures var s := Receive(Fresh(1, 0), [], [], [line] + [zero + empty]); s.Session? && s.firm.phase == INIT
    ensures var t := Receive(Fresh(1, 0), [], [], [line] + ([zero] + [empty])); t.Session? && t.firm.phase == PREPARE
  {
    Last(g, [] + line, [], zero + empty, g, [], []);
    Next(Fresh(1, 0), [], [], line, [zero + empty], g, [], []);
    Last(g, [] + line + zero, [], empty, g.(phase := PREPARE), [], []);
    Next(g, [] + line, [], zero, [empty], g, [], []);
    Next(Fresh(1, 0), [], [], line, [zero] + [empty], g, [], []);
  }

  lemma SamePieces(a: seq<byte>, b: seq<byte>, c: seq<byte>)
    ensures Joined([a] + [b + c]) == Joined([a] + ([b] + [c]))
  {
    assert ([a] + [b + c])[1..] == [b + c] && [b + c][1..] == [];
    assert ([a] + ([b] + [c]))[1..] == [b] + [c] && ([b] + [c])[1..] == [c] && [c][1..] == [];
    assert Joined([b + c]) == b + c + [] && Joined([b] + [c]) == b + (c + []);
    assert b + c + [] == b + (c + []);
  }

  /** The same response in two cuts: in the first the client is still in the header and will skip the body. */
  lemma ZeroByteCuts()
    ensures var one, other := [TWENTY] + [[0] + CRLF], [TWENTY] + ([[0]] + [CRLF]);
      && Joined(one) == Joined(other)
      && var s, t := Receive(Fresh(1, 0), [], [], one), Receive(Fresh(1, 0), [], [], other);
        s.Session? && s.firm.phase == INIT && t.Session? && t.firm.phase == PREPARE
  {
    var g := Prepared(20).(phase := INIT);
    NumbersAre();
    OneTaken(TWENTY, [50, 48]);
    ZeroByteHides(g);
    assert [0] + CRLF == [0, 13, 10];
    HiddenOrNot(TWENTY, g, [0], CRLF);
    SamePieces(TWENTY, [0], CRLF);
  }
}
