/** What the parser accepts means: a written request parses back to itself, and a parsed one is framed unambiguously. */
module HttpRoundTrip {
  import opened Basics
  import opened HttpParser
  import opened HttpChunks

  // ----- Writing a request -----

  function HeaderText(h: Header): seq<Byte> {
    h.name + [COLON, SPACE] + h.value
  }

  function LineText(r: Request): seq<Byte> {
    r.method_ + [SPACE] + r.target + [SPACE] + VERSION
  }

  function Lines(r: Request): seq<seq<Byte>> {
    [LineText(r)] + seq(|r.headers|, k requires 0 <= k < |r.headers| => HeaderText(r.headers[k]))
  }

  /** Lines with a line break between any two. */
  function Joined(lines: seq<seq<Byte>>): seq<Byte> {
    if lines == [] then []
    else if |lines| == 1 then lines[0]
    else lines[0] + CRLF + Joined(lines[1..])
  }

  function Written(r: Request): seq<Byte> {
    Joined(Lines(r)) + BLANK + r.body
  }

  predicate Token(b: seq<Byte>) {
    b != [] && forall k :: 0 <= k < |b| ==> IsToken(b[k])
  }

  predicate GoodTarget(b: seq<Byte>) {
    b != [] && forall k :: 0 <= k < |b| ==> 33 <= b[k] < 127
  }

  predicate IsBlank(c: Byte) {
    c == SPACE || c == TAB
  }

  /** A header as the parser reports it: a lower-case token, and a trimmed value without control characters. */
  predicate GoodHeader(h: Header) {
    && Token(h.name) && Lower(h.name) == h.name
    && (forall k :: 0 <= k < |h.value| ==> (h.value[k] >= 32 || h.value[k] == TAB) && h.value[k] != 127)
    && (h.value != [] ==> !IsBlank(h.value[0]) && !IsBlank(h.value[|h.value| - 1]))
  }

  /** A request within the limits whose headers frame its body. */
  predicate Writable(l: Limits, r: Request) {
    && Token(r.method_) && GoodTarget(r.target)
    && (forall k :: 0 <= k < |r.headers| ==> GoodHeader(r.headers[k]))
    && |r.headers| <= l.headers && |LineText(r)| <= l.line && |Joined(Lines(r))| + 4 <= l.header
    && (var hosts := Values(r.headers, HOST); |hosts| == 1 && hosts[0] != [])
    && ContentLength(l, r.headers) == GoodLength(|r.body|)
  }

  // ----- Searching -----

  predicate Without(b: seq<Byte>, c: Byte) {
    forall k :: 0 <= k < |b| ==> b[k] != c
  }

  /** A separator is found right after a text without its first byte. */
  lemma {:induction false} FindAfter(a: seq<Byte>, pattern: seq<Byte>, rest: seq<Byte>, i: nat)
    requires pattern != [] && Without(a, pattern[0]) && i <= |a|
    ensures Find(a + pattern + rest, pattern, i) == Some(|a|)
    decreases |a| - i
  {
    var b := a + pattern + rest;
    if i < |a| {
      assert b[i..i + |pattern|][0] == a[i];
      FindAfter(a, pattern, rest, i + 1);
    } else {
      assert b[i..i + |pattern|] == pattern;
    }
  }

  lemma {:induction false} FindNone(a: seq<Byte>, pattern: seq<Byte>, i: nat)
    requires pattern != [] && Without(a, pattern[0])
    ensures Find(a, pattern, i) == None
    decreases |a| - i
  {
    if i + |pattern| <= |a| {
      assert a[i..i + |pattern|][0] == a[i];
      FindNone(a, pattern, i + 1);
    }
  }

  lemma SplitFirst(a: seq<Byte>, separator: seq<Byte>, rest: seq<Byte>)
    requires separator != [] && Without(a, separator[0])
    ensures Split(a + separator + rest, separator) == [a] + Split(rest, separator)
  {
    var b := a + separator + rest;
    FindAfter(a, separator, rest, 0);
    assert b[..|a|] == a && b[|a| + |separator|..] == rest;
  }

  lemma SplitLast(a: seq<Byte>, separator: seq<Byte>)
    requires separator != [] && Without(a, separator[0])
    ensures Split(a, separator) == [a]
  {
    FindNone(a, separator, 0);
  }

  lemma {:induction false} SplitJoined(lines: seq<seq<Byte>>)
    requires lines != [] && forall k :: 0 <= k < |lines| ==> Without(lines[k], CR)
    ensures Split(Joined(lines), CRLF) == lines
  {
    if |lines| == 1 {
      SplitLast(lines[0], CRLF);
    } else {
      SplitJoined(lines[1..]);
      SplitFirst(lines[0], CRLF, Joined(lines[1..]));
      assert lines == [lines[0]] + lines[1..];
    }
  }

  /** The blank line is found at the end of the head: no line before it is empty. */
  lemma {:induction false} BlankAtEnd(lines: seq<seq<Byte>>, rest: seq<Byte>)
    requires lines != [] && forall k :: 0 <= k < |lines| ==> Without(lines[k], CR)
    requires forall k :: 1 <= k < |lines| ==> lines[k] != []
    ensures Find(Joined(lines) + BLANK + rest, BLANK, 0) == Some(|Joined(lines)|)
  {
    hide Find;
    var first, b := lines[0], Joined(lines) + BLANK + rest;
    if |lines| == 1 {
      FindAfter(first, BLANK, rest, 0);
    } else {
      var more := Joined(lines[1..]) + BLANK + rest;
      BlankAtEnd(lines[1..], rest);
      assert b == first + CRLF + more && lines[1..][0] == lines[1];
      JoinedStarts(lines[1..]);
      assert more[0] == lines[1][0];
      BlankLater(first, more);
      ShiftFind(first + CRLF, more, BLANK, 0);
    }
  }

  /** Joined lines start like the first of them. */
  lemma JoinedStarts(lines: seq<seq<Byte>>)
    requires lines != []
    ensures lines[0] <= Joined(lines)
  {
  }

  predicate OccursAt(b: seq<Byte>, pattern: seq<Byte>, k: nat) {
    k + |pattern| <= |b| && b[k..k + |pattern|] == pattern
  }

  lemma FindUnfolds(b: seq<Byte>, pattern: seq<Byte>, i: nat)
    requires pattern != []
    ensures Find(b, pattern, i)
            == if i + |pattern| > |b| then None
               else if OccursAt(b, pattern, i) then Some(i) else Find(b, pattern, i + 1)
  {
  }

  lemma ShiftOccurs(front: seq<Byte>, b: seq<Byte>, pattern: seq<Byte>, i: nat)
    ensures OccursAt(front + b, pattern, |front| + i) <==> OccursAt(b, pattern, i)
  {
    if i + |pattern| <= |b| {
      assert (front + b)[|front| + i..|front| + i + |pattern|] == b[i..i + |pattern|];
    }
  }

  /** Searching behind a text put in front. */
  lemma {:induction false} ShiftFind(front: seq<Byte>, b: seq<Byte>, pattern: seq<Byte>, i: nat)
    requires pattern != []
    ensures Find(front + b, pattern, |front| + i)
            == (var r := Find(b, pattern, i); if r.None? then None else Some(|front| + r.value))
    decreases |b| - i
  {
    hide Find, OccursAt;
    FindUnfolds(b, pattern, i);
    FindUnfolds(front + b, pattern, |front| + i);
    ShiftOccurs(front, b, pattern, i);
    if i + |pattern| <= |b| { ShiftFind(front, b, pattern, i + 1); }
  }

  lemma {:induction false} SkipTo(b: seq<Byte>, pattern: seq<Byte>, i: nat, to: nat)
    requires pattern != [] && i <= to <= |b| && forall k :: i <= k < to ==> !OccursAt(b, pattern, k)
    ensures Find(b, pattern, i) == Find(b, pattern, to)
    decreases |b| - i
  {
    hide Find;
    if i < to {
      FindUnfolds(b, pattern, i);
      if i + |pattern| <= |b| {
        SkipTo(b, pattern, i + 1, to);
      } else {
        FindUnfolds(b, pattern, to);
      }
    }
  }

  /** No blank line starts in a line or its line break when the next line does not start with CR. */
  lemma BlankLater(first: seq<Byte>, more: seq<Byte>)
    requires Without(first, CR) && more != [] && more[0] != CR
    ensures Find(first + CRLF + more, BLANK, 0) == Find(first + CRLF + more, BLANK, |first + CRLF|)
  {
    hide Find;
    var b, n := first + CRLF + more, |first|;
    forall k | 0 <= k < n + 2 ensures !OccursAt(b, BLANK, k) {
      if k + 4 <= |b| {
        var part := b[k..k + 4];
        assert part[0] == b[k] && part[2] == b[k + 2];
        if k < n {
          assert b[k] == first[k];
        } else if k == n {
          assert b[k + 2] == more[0];
        } else {
          assert b[k] == LF;
        }
      }
    }
    SkipTo(b, BLANK, 0, n + 2);
  }

  // ----- Lines -----

  lemma TokenHasNo(b: seq<Byte>, c: Byte)
    requires Token(b) && !IsToken(c)
    ensures Without(b, c)
  {
  }

  lemma LineParses(r: Request)
    requires Token(r.method_) && GoodTarget(r.target)
    ensures RequestLine(LineText(r)) == GoodLine(r.method_, r.target)
  {
    hide Split;
    var rest := r.target + [SPACE] + VERSION;
    assert LineText(r) == r.method_ + [SPACE] + rest;
    TokenHasNo(r.method_, SPACE);
    SplitFirst(r.method_, [SPACE], rest);
    SplitFirst(r.target, [SPACE], VERSION);
    SplitLast(VERSION, [SPACE]);
    var parts := Split(LineText(r), [SPACE]);
    assert parts == [r.method_, r.target, VERSION];
  }

  lemma LineHasNoBreak(r: Request)
    requires Token(r.method_) && GoodTarget(r.target)
    ensures Without(LineText(r), CR)
  {
    TokenHasNo(r.method_, CR);
  }

  lemma HeaderIsClean(h: Header)
    requires GoodHeader(h)
    ensures Without(HeaderText(h), CR) && HeaderText(h) != [] && IsToken(HeaderText(h)[0])
  {
    TokenHasNo(h.name, CR);
    assert HeaderText(h)[0] == h.name[0];
  }

  lemma ValueIsTrimmed(h: Header)
    requires GoodHeader(h)
    ensures StripRight(StripLeft([SPACE] + h.value)) == h.value
  {
    assert ([SPACE] + h.value)[1..] == h.value;
    assert StripLeft(h.value) == h.value && StripRight(h.value) == h.value;
  }

  lemma NameEnds(h: Header)
    requires GoodHeader(h)
    ensures Find(HeaderText(h), [COLON], 0) == Some(|h.name|)
    ensures HeaderText(h)[..|h.name|] == h.name && HeaderText(h)[|h.name| + 1..] == [SPACE] + h.value
  {
    var rest := [SPACE] + h.value;
    assert HeaderText(h) == h.name + [COLON] + rest;
    TokenHasNo(h.name, COLON);
    FindAfter(h.name, [COLON], rest, 0);
  }

  lemma HeaderParses(h: Header)
    requires GoodHeader(h)
    ensures HeaderLine(HeaderText(h)) == GoodField(h)
    ensures Without(HeaderText(h), CR) && HeaderText(h) != []
  {
    hide Find, StripLeft, StripRight, HeaderText, Lower, Without, IsToken;
    HeaderIsClean(h);
    ValueIsTrimmed(h);
    NameEnds(h);
    BlanksAreNoTokens();
    assert forall c :: c in h.name ==> IsToken(c);
  }

  lemma BlanksAreNoTokens()
    ensures !IsToken(SPACE) && !IsToken(TAB)
  {
  }

  lemma {:induction false} HeadersParse(headers: seq<Header>, lines: seq<seq<Byte>>)
    requires |lines| == |headers|
    requires forall k :: 0 <= k < |headers| ==> GoodHeader(headers[k]) && lines[k] == HeaderText(headers[k])
    ensures HeaderLines(lines) == GoodFields(headers)
  {
    hide HeaderLine, HeaderText, GoodHeader;
    if headers != [] {
      var n := |headers| - 1;
      HeadersParse(headers[..n], lines[..n]);
      HeaderParses(headers[n]);
      assert headers[..n] + [headers[n]] == headers;
    }
  }

  lemma LinesAreClean(l: Limits, r: Request)
    requires Writable(l, r)
    ensures var lines := Lines(r);
            && (forall k :: 0 <= k < |lines| ==> Without(lines[k], CR))
            && (forall k :: 1 <= k < |lines| ==> lines[k] != [] && lines[k] == HeaderText(r.headers[k - 1]))
  {
    hide LineText, HeaderText, ContentLength, Values, Joined, Without, GoodHeader;
    LineHasNoBreak(r);
    var lines := Lines(r);
    forall k | 1 <= k < |lines|
      ensures Without(lines[k], CR) && lines[k] != [] && lines[k] == HeaderText(r.headers[k - 1])
    {
      HeaderParses(r.headers[k - 1]);
    }
  }

  lemma HeadParses(l: Limits, r: Request)
    requires Writable(l, r)
    ensures ParseHead(l, Joined(Lines(r))) == GoodHead(r.method_, r.target, r.headers, |r.body|)
  {
    hide Split, Joined, RequestLine, HeaderLines, ContentLength, Values;
    var lines := Lines(r);
    LinesAreClean(l, r);
    SplitJoined(lines);
    LineParses(r);
    HeadersParse(r.headers, lines[1..]);
  }

  lemma FirstBreak(lines: seq<seq<Byte>>, rest: seq<Byte>)
    requires |lines| > 1 && Without(lines[0], CR)
    ensures Find(Joined(lines) + rest, CRLF, 0) == Some(|lines[0]|)
  {
    var more := Joined(lines[1..]) + rest;
    assert Joined(lines) + rest == lines[0] + CRLF + more;
    FindAfter(lines[0], CRLF, more, 0);
  }

  lemma BlankFromBreak(lines: seq<seq<Byte>>, rest: seq<Byte>)
    requires |lines| > 1 && (forall k :: 0 <= k < |lines| ==> Without(lines[k], CR))
    requires forall k :: 1 <= k < |lines| ==> lines[k] != []
    ensures Find(Joined(lines) + BLANK + rest, BLANK, |lines[0]|) == Some(|Joined(lines)|)
  {
    hide Find;
    var b := Joined(lines) + BLANK + rest;
    BlankAtEnd(lines, rest);
    forall k | 0 <= k < |lines[0]| ensures !OccursAt(b, BLANK, k) {
      assert b[k] == lines[0][k];
      if k + 4 <= |b| { assert b[k..k + 4][0] == b[k]; }
    }
    SkipTo(b, BLANK, 0, |lines[0]|);
  }

  /** Round trip: a written request, whatever follows it, parses to itself and takes exactly its own bytes. */
  lemma WrittenParses(l: Limits, r: Request, x: seq<Byte>)
    requires Writable(l, r)
    ensures ParseOne(l, Written(r) + x) == Ok(r, |Written(r)|)
  {
    hide Find, ParseHead, Joined, Lines, ContentLength;
    var lines, head := Lines(r), Joined(Lines(r));
    var b := Written(r) + x;
    HasHeaders(l, r);
    LinesAreClean(l, r);
    assert b == head + BLANK + (r.body + x) && b == head + (BLANK + r.body + x);
    FirstBreak(lines, BLANK + r.body + x);
    BlankFromBreak(lines, r.body + x);
    HeadParses(l, r);
    assert b[..|head|] == head && b[|head| + 4..|head| + 4 + |r.body|] == r.body;
  }

  lemma EmptyValues()
    ensures Values([], HOST) == []
  {
  }

  lemma HasHeaders(l: Limits, r: Request)
    requires Writable(l, r)
    ensures |Lines(r)| > 1 && Lines(r)[0] == LineText(r)
  {
    EmptyValues();
  }

  // ----- Pipelined requests in any chunks -----

  function WrittenAll(rs: seq<Request>): seq<Byte> {
    if rs == [] then [] else Written(rs[0]) + WrittenAll(rs[1..])
  }

  predicate AllWritable(l: Limits, rs: seq<Request>) {
    forall k :: 0 <= k < |rs| ==> Writable(l, rs[k]) && |LineText(rs[k])| != l.line
  }

  lemma {:induction false} WrittenDrains(l: Limits, rs: seq<Request>)
    requires AllWritable(l, rs)
    ensures Drain(l, WrittenAll(rs), None) == Drained(rs, [], None)
  {
    hide ParseOne, Written, Writable;
    if rs == [] {
      NothingParses(l);
    } else {
      var b, rest := WrittenAll(rs), WrittenAll(rs[1..]);
      WrittenParses(l, rs[0], rest);
      WrittenDrains(l, rs[1..]);
      assert b[|Written(rs[0])|..] == rest && [rs[0]] + rs[1..] == rs;
    }
  }

  lemma NothingParses(l: Limits)
    ensures ParseOne(l, []) == NeedMore
  {
  }

  lemma WrittenBreaks(l: Limits, r: Request, x: seq<Byte>)
    requires Writable(l, r)
    ensures Find(Written(r) + x, CRLF, 0) == Some(|LineText(r)|)
  {
    hide Find, ContentLength, Joined, Lines;
    HasHeaders(l, r);
    LinesAreClean(l, r);
    FirstBreak(Lines(r), BLANK + r.body + x);
    assert Written(r) + x == Joined(Lines(r)) + (BLANK + r.body + x);
  }

  lemma {:induction false} WrittenIsClear(l: Limits, rs: seq<Request>)
    requires AllWritable(l, rs)
    ensures NoLineAtLimit(l, WrittenAll(rs))
  {
    hide ParseOne, Written, Writable, LineText;
    if rs == [] {
      NothingParses(l);
    } else {
      var b, rest := WrittenAll(rs), WrittenAll(rs[1..]);
      WrittenParses(l, rs[0], rest);
      WrittenBreaks(l, rs[0], rest);
      WrittenIsClear(l, rs[1..]);
      assert b[|Written(rs[0])|..] == rest;
    }
  }

  /** Pipelining: written one after the other, cut into chunks anywhere and read at any pace, requests come out of the
      parser as they were written, all of them, in order, with nothing left over. */
  lemma PipelinedRequestsArrive(l: Limits, rs: seq<Request>, chunks: seq<Chunk>)
    requires AllWritable(l, rs) && Bytes(chunks) == WrittenAll(rs) && Fits(l, [], chunks)
    requires chunks != [] && chunks[|chunks| - 1].max.None?
    ensures Feeds(l, [], chunks) == Drained(rs, [], None)
  {
    hide Drain, Feeds, Fits, Bytes, NoLineAtLimit, AllWritable, WrittenAll;
    WrittenIsClear(l, rs);
    WrittenDrains(l, rs);
    SameAsWhole(l, chunks);
  }

  // ----- Framing -----

  /** An accepted request names one host and is framed by at most one decimal length and by nothing else; it takes
      its head, the blank line and exactly its body. */
  lemma AcceptedIsFramed(l: Limits, b: seq<Byte>)
    requires ParseOne(l, b).Ok?
    ensures var r, n := ParseOne(l, b).request, ParseOne(l, b).consumed;
            && |Values(r.headers, HOST)| == 1 && Values(r.headers, HOST)[0] != []
            && Values(r.headers, TRANSFER_ENCODING) == []
            && (var lengths := Values(r.headers, CONTENT_LENGTH);
                if lengths == [] then r.body == []
                else |lengths| == 1 && lengths[0] != [] && AllDigits(lengths[0]) && |r.body| == Number(lengths[0]))
            && |r.body| <= l.body && |r.headers| <= l.headers
            && |r.body| + 4 <= n <= |b| && r.body == b[n - |r.body|..n]
            && b[n - |r.body| - 4..n - |r.body|] == BLANK && n - |r.body| <= l.header
  {
    hide Find, Split, Values, RequestLine;
    var end := Find(b, BLANK, Find(b, CRLF, 0).value).value;
    var r := ParseOne(l, b).request;
    HeadIsFramed(l, b[..end]);
    hide ParseHead;
    assert ContentLength(l, r.headers) == GoodLength(|r.body|);
    if Values(r.headers, CONTENT_LENGTH) != [] { LengthAcceptedIff(l, Values(r.headers, CONTENT_LENGTH)[0]); }
  }

  lemma HeadIsFramed(l: Limits, head: seq<Byte>)
    requires ParseHead(l, head).GoodHead?
    ensures var h := ParseHead(l, head);
            && |Values(h.headers, HOST)| == 1 && Values(h.headers, HOST)[0] != [] && |h.headers| <= l.headers
            && ContentLength(l, h.headers) == GoodLength(h.body)
  {
    hide Split, Values, RequestLine, ContentLength, HeaderLine;
    HeaderCount(Split(head, CRLF)[1..]);
  }

  lemma {:induction false} HeaderCount(lines: seq<seq<Byte>>)
    ensures HeaderLines(lines).GoodFields? ==> |HeaderLines(lines).headers| == |lines|
  {
    hide HeaderLine;
    if lines != [] { HeaderCount(lines[..|lines| - 1]); }
  }

  // ----- Everything accepted can be written again -----

  /** The first piece of a split is what comes before the first separator. */
  lemma SplitHead(b: seq<Byte>, separator: seq<Byte>)
    requires separator != []
    ensures var at := Find(b, separator, 0);
            var parts := Split(b, separator);
            if at.None? then parts == [b]
            else parts[0] == b[..at.value] && parts[1..] == Split(b[at.value + |separator|..], separator)
  {
    hide Find;
  }

  /** A line of three words is its words with spaces between them. */
  lemma ThreeWords(line: seq<Byte>)
    requires |Split(line, [SPACE])| == 3
    ensures var parts := Split(line, [SPACE]); line == parts[0] + [SPACE] + parts[1] + [SPACE] + parts[2]
  {
    hide Find, Split;
    SplitHead(line, [SPACE]);
    var at := Find(line, [SPACE], 0).value;
    var rest := line[at + 1..];
    SplitHead(rest, [SPACE]);
    var next := Find(rest, [SPACE], 0).value;
    var last := rest[next + 1..];
    SplitHead(last, [SPACE]);
    assert Split(line, [SPACE])[1..][1..] == Split(last, [SPACE]);
    assert rest == rest[..next] + [SPACE] + last;
    assert line == line[..at] + [SPACE] + rest;
  }

  lemma LineIsGood(line: seq<Byte>, r: Request)
    requires RequestLine(line) == GoodLine(r.method_, r.target)
    ensures Token(r.method_) && GoodTarget(r.target) && LineText(r) == line
  {
    hide Split, IsToken;
    ThreeWords(line);
    var parts := Split(line, [SPACE]);
    assert forall k :: 0 <= k < |parts[0]| ==> parts[0][k] in parts[0];
    assert forall k :: 0 <= k < |parts[1]| ==> parts[1][k] in parts[1];
  }

  lemma {:induction false} StripLeftTrims(b: seq<Byte>)
    ensures StripLeft(b) != [] ==> !IsBlank(StripLeft(b)[0])
  {
    if b != [] { StripLeftTrims(b[1..]); }
  }

  lemma {:induction false} StripRightTrims(b: seq<Byte>)
    ensures StripRight(b) <= b && (StripRight(b) != [] ==> !IsBlank(StripRight(b)[|StripRight(b)| - 1]))
  {
    if b != [] { StripRightTrims(b[..|b| - 1]); }
  }

  lemma LowerIsToken(name: seq<Byte>)
    requires Token(name)
    ensures Token(Lower(name)) && Lower(Lower(name)) == Lower(name)
  {
    forall k | 0 <= k < |name| ensures IsToken(Lower(name)[k]) {
      assert IsToken(name[k]);
    }
  }

  lemma FieldIsGood(line: seq<Byte>)
    requires HeaderLine(line).GoodField?
    ensures GoodHeader(HeaderLine(line).header)
  {
    hide Find, Token, Lower, IsToken, StripLeft, StripRight;
    var at := Find(line, [COLON], 0).value;
    var name, right := line[..at], StripLeft(line[at + 1..]);
    StripLeftTrims(line[at + 1..]);
    StripRightTrims(right);
    TokenIs(name);
    LowerIsToken(name);
    var value := StripRight(right);
    assert forall k :: 0 <= k < |value| ==> value[k] in value;
  }

  lemma TokenIs(name: seq<Byte>)
    requires name != [] && forall c :: c in name ==> IsToken(c)
    ensures Token(name)
  {
    hide IsToken;
    assert forall k :: 0 <= k < |name| ==> name[k] in name;
  }

  lemma {:induction false} FieldsAreGood(lines: seq<seq<Byte>>)
    requires HeaderLines(lines).GoodFields?
    ensures forall k :: 0 <= k < |HeaderLines(lines).headers| ==> GoodHeader(HeaderLines(lines).headers[k])
  {
    hide HeaderLine, GoodHeader;
    if lines != [] {
      FieldsAreGood(lines[..|lines| - 1]);
      FieldIsGood(lines[|lines| - 1]);
    }
  }

  /** What a good head consists of. */
  lemma HeadIsGood(l: Limits, head: seq<Byte>, body: seq<Byte>)
    requires ParseHead(l, head).GoodHead? && ParseHead(l, head).body == |body|
    ensures var h := ParseHead(l, head);
            var r := Request(h.method_, h.target, h.headers, body);
            && Token(r.method_) && GoodTarget(r.target) && LineText(r) == Split(head, CRLF)[0]
            && (forall k :: 0 <= k < |r.headers| ==> GoodHeader(r.headers[k]))
  {
    hide Split, Values, RequestLine, ContentLength, HeaderLines, GoodHeader, Token, GoodTarget, LineText;
    var h := ParseHead(l, head);
    var lines := Split(head, CRLF);
    LineIsGood(lines[0], Request(h.method_, h.target, h.headers, body));
    FieldsAreGood(lines[1..]);
  }

  /** The first line of a head is the request line found in the buffer. */
  lemma FirstLine(b: seq<Byte>, line: nat, end: nat)
    requires Find(b, CRLF, 0) == Some(line) && line <= end <= |b| && end != line + 1
    ensures |Split(b[..end], CRLF)[0]| == line
  {
    hide Find, Split;
    var head, rest := b[..end], b[end..];
    SplitHead(head, CRLF);
    assert b == head + rest;
    if Find(head, CRLF, 0).Some? {
      FoundStays(head, rest, CRLF, 0);
    } else {
      FoundLater(head, rest, CRLF, 0);
    }
  }

  /** The converse of the round trip: every accepted request can be written again, in its own form, if that form still
      fits the header limit, and is then accepted as the same request. */
  lemma AcceptedIsWritable(l: Limits, b: seq<Byte>, x: seq<Byte>)
    requires ParseOne(l, b).Ok?
    ensures var r := ParseOne(l, b).request;
            && (|Joined(Lines(r))| + 4 <= l.header <==> Writable(l, r))
            && (Writable(l, r) ==> ParseOne(l, Written(r) + x) == Ok(r, |Written(r)|))
  {
    hide Find, Split, Values, ParseHead, Joined, Lines, LineText, Token, GoodTarget, GoodHeader, ContentLength;
    var line := Find(b, CRLF, 0).value;
    var end := Find(b, BLANK, line).value;
    var r := ParseOne(l, b).request;
    HeadIsFramed(l, b[..end]);
    HeadIsGood(l, b[..end], r.body);
    BlankNotInBreak(b, line, end);
    FirstLine(b, line, end);
    if Writable(l, r) { WrittenParses(l, r, x); }
  }

  lemma BlankNotInBreak(b: seq<Byte>, line: nat, end: nat)
    requires line + 2 <= |b| && b[line..line + 2] == CRLF && line <= end && end + 4 <= |b| && b[end..end + 4] == BLANK
    ensures end != line + 1
  {
    assert b[line..line + 2][1] == b[line + 1] && b[end..end + 4][0] == b[end];
  }
}
