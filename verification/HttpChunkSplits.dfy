/** Exactly which streams are read the same however they are cut. */
module HttpChunkSplits {
  import opened Basics
  import opened HttpParser
  import opened HttpChunks
  import opened HttpRoundTrip

  /** Reading some chunks of a stream agrees with reading it whole: the error and the requests before it are the same,
      or there is none so far and what is left gives the rest. */
  predicate Agrees(l: Limits, b: seq<Byte>, chunks: seq<Chunk>) {
    var d, whole := Feeds(l, [], chunks), Drain(l, b, None);
    if d.error.Some? then d.requests == whole.requests && d.error == whole.error
    else whole == Then(d, Drain(l, d.rest, None))
  }

  ghost predicate ReadAlike(l: Limits, b: seq<Byte>) {
    forall chunks :: Bytes(chunks) == b && Fits(l, [], chunks) ==> Agrees(l, b, chunks)
  }

  // ----- A complete request by itself -----

  /** What is found in a stream is found in any part of it that holds it. */
  lemma {:induction false} FoundWithin(b: seq<Byte>, pattern: seq<Byte>, i: nat, m: nat)
    requires m <= |b| && Find(b, pattern, i).Some? && Find(b, pattern, i).value + |pattern| <= m && pattern != []
    ensures Find(b[..m], pattern, i) == Find(b, pattern, i)
    decreases |b| - i
  {
    hide Find;
    FindUnfolds(b, pattern, i);
    FindUnfolds(b[..m], pattern, i);
    FoundAfter(b, pattern, i);
    assert b[..m][i..i + |pattern|] == b[i..i + |pattern|];
    if !OccursAt(b, pattern, i) { FoundWithin(b, pattern, i + 1, m); }
  }

  lemma RequestAlone(l: Limits, b: seq<Byte>)
    requires ParseOne(l, b).Ok?
    ensures ParseOne(l, b[..ParseOne(l, b).consumed]) == ParseOne(l, b)
    ensures l.Valid() ==> ParseOne(l, b).consumed <= l.buffer
  {
    hide Find, ParseHead;
    var n := ParseOne(l, b).consumed;
    var line := Find(b, CRLF, 0).value;
    var end := Find(b, BLANK, line).value;
    BodyIsBounded(l, b[..end]);
    LineBefore(b, line, end);
    FoundWithin(b, CRLF, 0, n);
    FoundWithin(b, BLANK, line, n);
    assert b[..n][..end] == b[..end] && b[..n][end + 4..n] == b[end + 4..n];
  }

  lemma LineBefore(b: seq<Byte>, line: nat, end: nat)
    requires Find(b, CRLF, 0) == Some(line) && Find(b, BLANK, line) == Some(end)
    ensures line + 2 <= end + 4
  {
    FoundAfter(b, BLANK, line);
  }

  // ----- The cut that shows -----

  lemma CutShows(l: Limits, b: seq<Byte>) returns (chunks: seq<Chunk>)
    requires l.Valid() && Find(b, CRLF, 0) == Some(l.line)
    ensures Bytes(chunks) == b && Fits(l, [], chunks) && !Agrees(l, b, chunks) && Feeds(l, [], chunks).error.Some?
  {
    var first, rest := b[..l.line + 1], b[l.line + 1..];
    assert b == first + rest && b[l.line..l.line + 2] == CRLF;
    CutIs(l, b);
    CutChanges(l, first, rest);
    hide Find, ParseOne, CutAtLimit;
    chunks := [Chunk(first, None), Chunk(rest, None)];
    assert chunks[1..] == [Chunk(rest, None)] && chunks[1..][1..] == [];
    assert Bytes(chunks[1..]) == rest + [] && [] + first == first;
  }

  lemma CutIs(l: Limits, b: seq<Byte>)
    requires Find(b, CRLF, 0) == Some(l.line)
    ensures CutAtLimit(l, b[..l.line + 1], b[l.line + 1..])
  {
    var first, rest := b[..l.line + 1], b[l.line + 1..];
    assert b == first + rest && b[l.line..l.line + 2] == CRLF;
    assert b[l.line..l.line + 2][0] == b[l.line] && b[l.line..l.line + 2][1] == b[l.line + 1];
    if Find(first, CRLF, 0).Some? { FoundStays(first, rest, CRLF, 0); }
    hide Find;
  }

  lemma FeedRequest(l: Limits, b: seq<Byte>, more: seq<Chunk>)
    requires l.Valid() && ParseOne(l, b).Ok?
    ensures var n, r := ParseOne(l, b).consumed, ParseOne(l, b).request;
            var chunks := [Chunk(b[..n], None)] + more;
            && Feeds(l, [], chunks) == Prepend(r, Feeds(l, [], more))
            && (Fits(l, [], more) ==> Fits(l, [], chunks))
  {
    var n, r := ParseOne(l, b).consumed, ParseOne(l, b).request;
    RequestAlone(l, b);
    NothingParses(l);
    hide ParseOne;
    var chunks := [Chunk(b[..n], None)] + more;
    assert chunks[1..] == more && [] + b[..n] == b[..n] && b[..n][n..] == [];
    assert Drain(l, b[..n], None) == Drained([r], [], None);
  }

  lemma {:induction false} SomeSplitShows(l: Limits, b: seq<Byte>) returns (chunks: seq<Chunk>)
    requires l.Valid() && !NoLineAtLimit(l, b)
    ensures Bytes(chunks) == b && Fits(l, [], chunks) && !Agrees(l, b, chunks) && Feeds(l, [], chunks).error.Some?
    decreases |b|
  {
    hide Find, ParseOne, Feeds, Fits, Drain;
    if Find(b, CRLF, 0) == Some(l.line) {
      chunks := CutShows(l, b);
    } else {
      var n := ParseOne(l, b).consumed;
      var more := SomeSplitShows(l, b[n..]);
      chunks := [Chunk(b[..n], None)] + more;
      FeedRequest(l, b, more);
      assert chunks[1..] == more && b[..n] + b[n..] == b;
      StillDiffers(l, b, more);
    }
  }

  lemma StillDiffers(l: Limits, b: seq<Byte>, more: seq<Chunk>)
    requires ParseOne(l, b).Ok?
    requires var rest := b[ParseOne(l, b).consumed..]; !Agrees(l, rest, more) && Feeds(l, [], more).error.Some?
    ensures var d := Prepend(ParseOne(l, b).request, Feeds(l, [], more));
            d.error.Some? && !(d.requests == Drain(l, b, None).requests && d.error == Drain(l, b, None).error)
  {
    hide ParseOne, Feeds;
    var n, r := ParseOne(l, b).consumed, ParseOne(l, b).request;
    var d, whole := Feeds(l, [], more), Drain(l, b[n..], None);
    assert Drain(l, b, None) == Prepend(r, whole);
    hide Drain;
    if [r] + d.requests == [r] + whole.requests {
      assert ([r] + d.requests)[1..] == d.requests && ([r] + whole.requests)[1..] == whole.requests;
    }
  }

  /** A stream is read alike in all fitting chunks, at any pace, exactly if no request line met while parsing it has
      the longest length. */
  lemma ReadAlikeIff(l: Limits, b: seq<Byte>)
    requires l.Valid()
    ensures ReadAlike(l, b) <==> NoLineAtLimit(l, b)
  {
    hide Drain, Feeds, Fits, Bytes, NoLineAtLimit;
    if NoLineAtLimit(l, b) {
      forall chunks | Bytes(chunks) == b && Fits(l, [], chunks) ensures Agrees(l, b, chunks) {
        assert [] + Bytes(chunks) == b;
        ChunksDoNotMatter(l, [], chunks);
      }
    } else {
      var chunks := SomeSplitShows(l, b);
      assert !Agrees(l, b, chunks);
    }
  }
}
