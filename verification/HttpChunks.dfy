/** The parser gives the same requests however its input is cut into chunks. */
module HttpChunks {
  import opened Basics
  import opened HttpParser

  // ----- The content length -----

  function Pow10(k: nat): nat {
    if k == 0 then 1 else 10 * Pow10(k - 1)
  }

  lemma {:induction false} DigitsBound(n: nat)
    ensures n < Pow10(DigitCount(n))
  {
    if n >= 10 { DigitsBound(n / 10); }
  }

  lemma {:induction false} Pow10Grows(a: nat, b: nat)
    requires a <= b
    ensures Pow10(a) <= Pow10(b)
  {
    if a < b { Pow10Grows(a, b - 1); }
  }

  /** A number without leading zeros is at least the power of ten of its length. */
  lemma {:induction false} LeadingDigit(digits: seq<Byte>)
    requires AllDigits(digits) && digits != [] && digits[0] != 48
    ensures Number(digits) >= Pow10(|digits| - 1)
  {
    if |digits| > 1 {
      LeadingDigit(digits[..|digits| - 1]);
    } else {
      assert digits[..0] == [];
    }
  }

  lemma {:induction false} ZeroInFront(digits: seq<Byte>)
    requires AllDigits(digits) && digits != [] && digits[0] == 48
    ensures AllDigits(digits[1..]) && Number(digits) == Number(digits[1..])
  {
    var n := |digits| - 1;
    if n > 0 {
      ZeroInFront(digits[..n]);
      assert digits[1..][..n - 1] == digits[..n][1..] && digits[1..][n - 1] == digits[n];
    } else {
      assert digits[..0] == [] && digits[1..] == [];
    }
  }

  lemma {:induction false} StripKeepsNumber(digits: seq<Byte>)
    requires AllDigits(digits)
    ensures var r := StripZeros(digits); AllDigits(r) && Number(r) == Number(digits) && (r != [] ==> r[0] != 48)
  {
    if digits != [] && digits[0] == 48 {
      ZeroInFront(digits);
      StripKeepsNumber(digits[1..]);
    }
  }

  /** The shortcut on the number of digits accepts exactly the lengths up to the body limit. */
  lemma LengthAcceptedIff(l: Limits, value: seq<Byte>)
    ensures DecimalLength(l, value)
            == if value == [] || !AllDigits(value) then BadLength(400)
               else if Number(value) <= l.body then GoodLength(Number(value)) else BadLength(413)
  {
    if value != [] && AllDigits(value) {
      StripKeepsNumber(value);
      var stripped := StripZeros(value);
      if stripped == [] {
        assert [48][..0] == [] && Number([48]) == 0;
      } else if |stripped| > DigitCount(l.body) {
        LeadingDigit(stripped);
        DigitsBound(l.body);
        Pow10Grows(DigitCount(l.body), |stripped| - 1);
      }
    }
  }

  // ----- One request with more input behind it -----

  lemma {:induction false} FoundStays(b: seq<Byte>, x: seq<Byte>, pattern: seq<Byte>, i: nat)
    requires Find(b, pattern, i).Some?
    ensures Find(b + x, pattern, i) == Find(b, pattern, i)
    decreases |b| - i
  {
    assert (b + x)[i..i + |pattern|] == b[i..i + |pattern|];
    if b[i..i + |pattern|] != pattern { FoundStays(b, x, pattern, i + 1); }
  }

  /** A pattern that was not there can only end in what was added. */
  lemma {:induction false} FoundLater(b: seq<Byte>, x: seq<Byte>, pattern: seq<Byte>, i: nat)
    requires Find(b, pattern, i).None? && pattern != []
    ensures var r := Find(b + x, pattern, i); r.Some? ==> r.value + |pattern| > |b|
    decreases |b| + |x| - i
  {
    if i + |pattern| <= |b| {
      assert (b + x)[i..i + |pattern|] == b[i..i + |pattern|];
      FoundLater(b, x, pattern, i + 1);
    } else if i + |pattern| <= |b + x| && (b + x)[i..i + |pattern|] != pattern {
      FoundAfter(b + x, pattern, i + 1);
    }
  }

  lemma FoundAfter(b: seq<Byte>, pattern: seq<Byte>, i: nat)
    ensures Find(b, pattern, i).Some? ==> Find(b, pattern, i).value >= i
  {
  }

  /** A line of exactly the longest length, cut between its CR and its LF. */
  predicate CutAtLimit(l: Limits, b: seq<Byte>, x: seq<Byte>) {
    && Find(b, CRLF, 0).None? && |b| == l.line + 1 && b[l.line] == CR && x != [] && x[0] == LF
  }

  lemma HeaderStays(l: Limits, b: seq<Byte>, x: seq<Byte>)
    requires Find(b, CRLF, 0).Some? && !ParseOne(l, b).NeedMore?
    ensures ParseOne(l, b + x) == ParseOne(l, b)
  {
    hide Find, ParseHead;
    FoundStays(b, x, CRLF, 0);
    var line := Find(b, CRLF, 0).value;
    var end := Find(b, BLANK, line);
    if line <= l.line {
      if end.Some? {
        FoundStays(b, x, BLANK, line);
        assert (b + x)[..end.value] == b[..end.value];
        var r := ParseOne(l, b);
        if r.Ok? { assert (b + x)[end.value + 4..r.consumed] == b[end.value + 4..r.consumed]; }
      } else {
        FoundLater(b, x, BLANK, line);
      }
    }
  }

  lemma LineStays(l: Limits, b: seq<Byte>, x: seq<Byte>)
    requires Find(b, CRLF, 0).None? && |b| > l.line && !CutAtLimit(l, b, x)
    ensures ParseOne(l, b + x) == Bad(414)
  {
    hide Find, ParseHead;
    FoundLater(b, x, CRLF, 0);
    var line := Find(b + x, CRLF, 0);
    if line.Some? && line.value <= l.line {
      CutShape(l, b, x, line.value);
    }
  }

  lemma CutShape(l: Limits, b: seq<Byte>, x: seq<Byte>, at: nat)
    requires Find(b, CRLF, 0).None? && |b| > l.line && at <= l.line && at + 2 > |b| && at + 2 <= |b + x|
    requires (b + x)[at..at + 2] == CRLF
    ensures CutAtLimit(l, b, x)
  {
    hide Find;
    var c := b + x;
    assert c[at] == c[at..at + 2][0] && c[at + 1] == c[at..at + 2][1];
  }

  lemma CutChanges(l: Limits, b: seq<Byte>, x: seq<Byte>)
    requires CutAtLimit(l, b, x)
    ensures ParseOne(l, b) == Bad(414) && ParseOne(l, b + x) != Bad(414)
  {
    var c := b + x;
    FoundLater(b, x, CRLF, 0);
    assert c[l.line] == CR && c[l.line + 1] == LF;
    assert c[l.line..l.line + 2] == CRLF;
    FoundBy(c, CRLF, 0, l.line);
    HeadNeverTooLong(l, c);
  }

  lemma {:induction false} FoundBy(b: seq<Byte>, pattern: seq<Byte>, i: nat, at: nat)
    requires i <= at && at + |pattern| <= |b| && pattern != [] && b[at..at + |pattern|] == pattern
    ensures Find(b, pattern, i).Some? && Find(b, pattern, i).value <= at
    decreases at - i
  {
    if b[i..i + |pattern|] != pattern { FoundBy(b, pattern, i + 1, at); }
  }

  /** Only the length of the request line gives the status 414. */
  lemma HeadNeverTooLong(l: Limits, b: seq<Byte>)
    requires Find(b, CRLF, 0).Some? && Find(b, CRLF, 0).value <= l.line
    ensures ParseOne(l, b) != Bad(414)
  {
    var end := Find(b, BLANK, Find(b, CRLF, 0).value);
    if end.Some? { HeadStatuses(l, b[..end.value]); }
  }

  lemma {:induction false} FieldStatuses(lines: seq<seq<Byte>>)
    ensures HeaderLines(lines).BadFields? ==> HeaderLines(lines).status == 400
  {
    if lines != [] { FieldStatuses(lines[..|lines| - 1]); }
  }

  lemma HeadStatuses(l: Limits, head: seq<Byte>)
    ensures ParseHead(l, head).BadHead? ==> ParseHead(l, head).status in {400, 413, 431, 501}
  {
    FieldStatuses(Split(head, CRLF)[1..]);
  }

  /** What the parser concluded from a buffer it concludes with more input behind it, except exactly when that
      input completes a line of the longest length which was cut between CR and LF. */
  lemma StableIff(l: Limits, b: seq<Byte>, x: seq<Byte>)
    requires !ParseOne(l, b).NeedMore?
    ensures ParseOne(l, b + x) == ParseOne(l, b) <==> !CutAtLimit(l, b, x)
  {
    hide Find, ParseHead;
    if Find(b, CRLF, 0).Some? {
      HeaderStays(l, b, x);
    } else if CutAtLimit(l, b, x) {
      CutChanges(l, b, x);
    } else {
      LineStays(l, b, x);
    }
  }

  // ----- Whole streams -----

  /** No request line met while parsing the stream has exactly the longest length. */
  predicate NoLineAtLimit(l: Limits, b: seq<Byte>)
    decreases |b|
  {
    && Find(b, CRLF, 0) != Some(l.line)
    && (ParseOne(l, b).Ok? ==> NoLineAtLimit(l, b[ParseOne(l, b).consumed..]))
  }

  lemma NoCut(l: Limits, b: seq<Byte>, x: seq<Byte>)
    requires Find(b + x, CRLF, 0) != Some(l.line)
    ensures !CutAtLimit(l, b, x)
  {
    if CutAtLimit(l, b, x) {
      var c := b + x;
      assert c[l.line] == CR && c[l.line + 1] == LF && c[l.line..l.line + 2] == CRLF;
      FoundBy(c, CRLF, 0, l.line);
      FoundLater(b, x, CRLF, 0);
      assert false;
    }
  }

  /** What is concluded before the rest of the stream is known is what the whole stream gives. */
  lemma ConcludedEarly(l: Limits, b: seq<Byte>, x: seq<Byte>)
    requires NoLineAtLimit(l, b + x) && !ParseOne(l, b).NeedMore?
    ensures ParseOne(l, b + x) == ParseOne(l, b)
    ensures var r := ParseOne(l, b); r.Ok? ==> NoLineAtLimit(l, b[r.consumed..] + x)
  {
    hide Find, ParseOne, CutAtLimit;
    NoCut(l, b, x);
    StableIff(l, b, x);
    var r := ParseOne(l, b);
    if r.Ok? { assert (b + x)[r.consumed..] == b[r.consumed..] + x; }
  }

  /** Both ways of reading a stream give the same requests, remainder and error. */
  function Then(d: Drained, e: Drained): Drained {
    Drained(d.requests + e.requests, e.rest, e.error)
  }

  /** How reading a prefix, with `d`, relates to reading the whole stream `whole` when `x` is still to come. */
  predicate Agree(l: Limits, d: Drained, x: seq<Byte>, whole: Drained) {
    if d.error.Some? then d.requests == whole.requests && d.error == whole.error
    else NoLineAtLimit(l, d.rest + x) && whole == Then(d, Drain(l, d.rest + x, None))
  }

  lemma AgreeLater(l: Limits, r: Request, d: Drained, x: seq<Byte>, whole: Drained)
    requires Agree(l, d, x, whole)
    ensures Agree(l, Prepend(r, d), x, Prepend(r, whole))
  {
    hide Drain, NoLineAtLimit;
    if d.error.None? {
      var e := Drain(l, d.rest + x, None);
      assert [r] + (d.requests + e.requests) == [r] + d.requests + e.requests;
    }
  }

  lemma AgreeAtOnce(l: Limits, b: seq<Byte>, x: seq<Byte>)
    requires NoLineAtLimit(l, b + x)
    ensures Agree(l, Drained([], b, None), x, Drain(l, b + x, None))
  {
    hide Drain, NoLineAtLimit;
    assert [] + Drain(l, b + x, None).requests == Drain(l, b + x, None).requests;
  }

  /** Taking requests off a prefix first, as many as one likes, and going on with the rest of the stream. */
  lemma {:induction false} DrainInTwo(l: Limits, b: seq<Byte>, x: seq<Byte>, max: Option<nat>)
    requires NoLineAtLimit(l, b + x)
    ensures Agree(l, Drain(l, b, max), x, Drain(l, b + x, None))
    decreases |b|
  {
    hide Find, ParseOne, NoLineAtLimit, Agree, Prepend;
    if Exhausted(max) || ParseOne(l, b).NeedMore? {
      AgreeAtOnce(l, b, x);
    } else {
      ConcludedEarly(l, b, x);
      if ParseOne(l, b).Ok? {
        var r, n := ParseOne(l, b).request, ParseOne(l, b).consumed;
        assert (b + x)[n..] == b[n..] + x;
        DrainInTwo(l, b[n..], x, Less(max));
        AgreeLater(l, r, Drain(l, b[n..], Less(max)), x, Drain(l, b[n..] + x, None));
      } else {
        AgreeOnError(l, b, x, ParseOne(l, b).status);
      }
    }
  }

  lemma AgreeOnError(l: Limits, b: seq<Byte>, x: seq<Byte>, status: nat)
    ensures Agree(l, Drained([], b, Some(status)), x, Drained([], b + x, Some(status)))
  {
  }

  datatype Chunk = Chunk(data: seq<Byte>, max: Option<nat>)

  function Bytes(chunks: seq<Chunk>): seq<Byte> {
    if chunks == [] then [] else chunks[0].data + Bytes(chunks[1..])
  }

  /** Feed the chunks one after the other, up to the first error. */
  function Feeds(l: Limits, buffer: seq<Byte>, chunks: seq<Chunk>): Drained
    decreases |chunks|
  {
    if chunks == [] then Drained([], buffer, None)
    else if |buffer| + |chunks[0].data| > l.buffer then Drained([], buffer, Some(413))
    else
      var d := Drain(l, buffer + chunks[0].data, chunks[0].max);
      if d.error.Some? then d else Then(d, Feeds(l, d.rest, chunks[1..]))
  }

  /** No feed overflows the buffer. */
  predicate Fits(l: Limits, buffer: seq<Byte>, chunks: seq<Chunk>)
    decreases |chunks|
  {
    chunks != [] ==>
      && |buffer| + |chunks[0].data| <= l.buffer
      && var d := Drain(l, buffer + chunks[0].data, chunks[0].max);
         d.error.None? ==> Fits(l, d.rest, chunks[1..])
  }

  lemma AgreeChained(l: Limits, d: Drained, x: seq<Byte>, f: Drained, whole: Drained)
    requires d.error.None? && Agree(l, d, x, whole) && Agree(l, f, [], Drain(l, d.rest + x, None))
    ensures Agree(l, Then(d, f), [], whole)
  {
    hide Drain, NoLineAtLimit;
    if f.error.None? {
      var e := Drain(l, f.rest + [], None);
      assert d.requests + (f.requests + e.requests) == d.requests + f.requests + e.requests;
    }
  }

  lemma {:induction false} ChunksAgree(l: Limits, buffer: seq<Byte>, chunks: seq<Chunk>)
    requires NoLineAtLimit(l, buffer + Bytes(chunks)) && Fits(l, buffer, chunks)
    ensures Agree(l, Feeds(l, buffer, chunks), [], Drain(l, buffer + Bytes(chunks), None))
    decreases |chunks|
  {
    hide Drain, NoLineAtLimit, Agree, Then;
    if chunks == [] {
      assert buffer + Bytes(chunks) == buffer + [];
      AgreeAtOnce(l, buffer, []);
    } else {
      var b, x := buffer + chunks[0].data, Bytes(chunks[1..]);
      assert buffer + Bytes(chunks) == b + x;
      DrainInTwo(l, b, x, chunks[0].max);
      var d := Drain(l, b, chunks[0].max);
      if d.error.None? {
        StillClear(l, d, x, Drain(l, b + x, None));
        ChunksAgree(l, d.rest, chunks[1..]);
        AgreeChained(l, d, x, Feeds(l, d.rest, chunks[1..]), Drain(l, b + x, None));
      } else {
        ErrorIsFinal(l, d, x, Drain(l, b + x, None));
      }
    }
  }

  lemma StillClear(l: Limits, d: Drained, x: seq<Byte>, whole: Drained)
    requires Agree(l, d, x, whole) && d.error.None?
    ensures NoLineAtLimit(l, d.rest + x)
  {
  }

  lemma ErrorIsFinal(l: Limits, d: Drained, x: seq<Byte>, whole: Drained)
    requires Agree(l, d, x, whole) && d.error.Some?
    ensures Agree(l, d, [], whole)
  {
  }

  /** Chunking independence: cut the stream anywhere and pace the reading at will. An error is the one the whole
      stream gives, after the same requests; without one, the requests so far and those still in the buffer are the
      requests of the whole stream, with the same remainder. */
  lemma ChunksDoNotMatter(l: Limits, buffer: seq<Byte>, chunks: seq<Chunk>)
    requires NoLineAtLimit(l, buffer + Bytes(chunks)) && Fits(l, buffer, chunks)
    ensures var d := Feeds(l, buffer, chunks);
            var whole := Drain(l, buffer + Bytes(chunks), None);
            if d.error.Some? then d.requests == whole.requests && d.error == whole.error
            else whole == Then(d, Drain(l, d.rest, None))
  {
    ChunksAgree(l, buffer, chunks);
    hide Drain, Feeds, Bytes, NoLineAtLimit, Fits;
    assert Feeds(l, buffer, chunks).rest + [] == Feeds(l, buffer, chunks).rest;
  }

  /** With the last chunk read without a limit, nothing is left to take. */
  lemma {:induction false} UnpacedReadsAll(l: Limits, buffer: seq<Byte>, chunks: seq<Chunk>)
    requires chunks != [] && chunks[|chunks| - 1].max.None? && Feeds(l, buffer, chunks).error.None?
    ensures Drain(l, Feeds(l, buffer, chunks).rest, None) == Drained([], Feeds(l, buffer, chunks).rest, None)
    decreases |chunks|
  {
    hide Drain;
    var d := Drain(l, buffer + chunks[0].data, chunks[0].max);
    assert d.error.None? && Feeds(l, buffer, chunks) == Then(d, Feeds(l, d.rest, chunks[1..]));
    var rest := Feeds(l, d.rest, chunks[1..]);
    if |chunks| == 1 {
      assert rest == Drained([], d.rest, None);
      DrainIsDone(l, buffer + chunks[0].data);
    } else {
      hide Feeds;
      assert chunks[1..][|chunks[1..]| - 1] == chunks[|chunks| - 1];
      UnpacedReadsAll(l, d.rest, chunks[1..]);
    }
  }

  lemma {:induction false} DrainIsDone(l: Limits, b: seq<Byte>)
    requires Drain(l, b, None).error.None?
    ensures var rest := Drain(l, b, None).rest; Drain(l, rest, None) == Drained([], rest, None)
    decreases |b|
  {
    hide ParseOne;
    if ParseOne(l, b).Ok? { DrainIsDone(l, b[ParseOne(l, b).consumed..]); }
  }

  /** The same requests and remainder as from one buffer. */
  lemma SameAsWhole(l: Limits, chunks: seq<Chunk>)
    requires NoLineAtLimit(l, Bytes(chunks)) && Fits(l, [], chunks)
    requires chunks != [] && chunks[|chunks| - 1].max.None?
    ensures var d := Feeds(l, [], chunks);
            var whole := Drain(l, Bytes(chunks), None);
            d.requests == whole.requests && d.error == whole.error && (d.error.None? ==> d.rest == whole.rest)
  {
    assert [] + Bytes(chunks) == Bytes(chunks);
    ChunksDoNotMatter(l, [], chunks);
    hide Drain, NoLineAtLimit, Feeds, Bytes, Fits;
    if Feeds(l, [], chunks).error.None? { UnpacedReadsAll(l, [], chunks); }
  }

  /** The bytes kept for an incomplete request fit next to a maximal one. */
  lemma LeftoverIsBounded(l: Limits, b: seq<Byte>)
    requires l.Valid() && ParseOne(l, b).NeedMore?
    ensures |b| <= l.header + l.body
  {
    var line := Find(b, CRLF, 0);
    if line.Some? {
      var end := Find(b, BLANK, line.value);
      if end.Some? { BodyIsBounded(l, b[..end.value]); }
    }
    hide Find, ParseHead;
  }

  lemma BodyIsBounded(l: Limits, head: seq<Byte>)
    ensures ParseHead(l, head).GoodHead? ==> ParseHead(l, head).body <= l.body
  {
    hide Split, RequestLine, Headers;
  }
}
