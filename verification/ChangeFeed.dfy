/** What a batch read returns, against the full history. */
module ChangeFeed {
  import opened Basics
  import opened DurableStore
  import opened StoreHistory

  function Filter(cs: seq<Change>, source: Source): seq<Change> {
    if cs == [] then []
    else Filter(cs[..|cs| - 1], source) + if Matches(source, cs[|cs| - 1]) then [cs[|cs| - 1]] else []
  }

  /** The changes of a source with offsets above `lo` and up to `hi`. */
  function Matching(h: History, source: Source, lo: nat, hi: nat): seq<Change> {
    if lo <= hi <= |h| then Filter(h[lo..hi], source) else []
  }

  lemma {:induction false} FilterConcat(a: seq<Change>, b: seq<Change>, source: Source)
    ensures Filter(a + b, source) == Filter(a, source) + Filter(b, source)
  {
    if b == [] {
      assert a + b == a;
    } else {
      var n := |b| - 1;
      assert (a + b)[..|a + b| - 1] == a + b[..n];
      FilterConcat(a, b[..n], source);
    }
  }

  lemma MatchingConcat(h: History, source: Source, lo: nat, mid: nat, hi: nat)
    requires lo <= mid <= hi <= |h|
    ensures Matching(h, source, lo, hi) == Matching(h, source, lo, mid) + Matching(h, source, mid, hi)
  {
    assert h[lo..hi] == h[lo..mid] + h[mid..hi];
    FilterConcat(h[lo..mid], h[mid..hi], source);
  }

  lemma MatchingGrows(h: History, h': History, source: Source, lo: nat, hi: nat)
    requires h <= h' && lo <= hi <= |h|
    ensures Matching(h', source, lo, hi) == Matching(h, source, lo, hi)
  {
    assert h'[lo..hi] == h[lo..hi];
  }

  /** The matching changes in a window that may reach past the end of the history. */
  function Window(h: History, source: Source, after: nat, through: nat): seq<Change> {
    if after <= through then Matching(h, source, Min(after, |h|), Min(through, |h|)) else []
  }

  lemma WindowStep(h: History, c: Change, source: Source, after: nat, through: nat)
    ensures Window(h + [c], source, after, through)
            == Window(h, source, after, through)
               + if Matches(source, c) && after <= |h| < through then [c] else []
  {
    var g, n := h + [c], |h|;
    if after <= n < through {
      assert g[after..n + 1] == h[after..n] + [c];
      FilterConcat(h[after..n], [c], source);
      assert [c][..0] == [];
    } else if after <= through {
      if after > n {
        assert g[n + 1..n + 1] == [] && h[n..n] == [];
      } else {
        MatchingGrows(h, g, source, after, through);
      }
    }
  }

  lemma {:induction false} SelectIsMatching(h: History, from: nat, source: Source, after: nat, through: nat)
    requires Numbered(h) && from <= |h| && from <= after
    ensures Select(h[from..], source, after, through) == Window(h, source, after, through)
  {
    if from < |h| {
      var n := |h| - 1;
      var g, c := h[..n], h[n];
      assert h == g + [c];
      assert h[from..][..|h[from..]| - 1] == g[from..] && h[from..][|h[from..]| - 1] == c;
      SelectIsMatching(g, from, source, after, through);
      WindowStep(g, c, source, after, through);
      hide Window;
    } else {
      assert h[from..] == [];
      if after <= through { assert h[|h|..|h|] == []; }
    }
  }

  /** The first `n` matches are the matches up to the offset of the last of them. */
  lemma {:induction false} MatchingPrefix(h: History, source: Source, lo: nat, hi: nat, n: nat)
    requires Numbered(h) && lo <= hi <= |h| && 0 < n <= |Matching(h, source, lo, hi)|
    ensures var rows := Matching(h, source, lo, hi);
            lo < rows[n - 1].offset <= hi && Matching(h, source, lo, rows[n - 1].offset) == rows[..n]
  {
    var rows := Matching(h, source, lo, hi);
    assert lo < hi;
    assert h[lo..hi][..hi - lo - 1] == h[lo..hi - 1] && h[lo..hi][hi - lo - 1] == h[hi - 1];
    var shorter := Matching(h, source, lo, hi - 1);
    if n <= |shorter| {
      MatchingPrefix(h, source, lo, hi - 1, n);
      assert rows[..n] == shorter[..n] && rows[n - 1] == shorter[n - 1];
    } else {
      assert rows[..n] == rows;
    }
  }

  // ----- One read -----

  /** Cutting the matching changes short after `n` of them leaves those up to the offset of the last. */
  lemma CutIsExact(h: History, source: Source, after: nat, through: nat, n: nat)
    requires Numbered(h) && after <= through <= |h| && 0 < n <= |Matching(h, source, after, through)|
    ensures var rows := Matching(h, source, after, through);
            after <= rows[n - 1].offset <= |h| && rows[..n] == Matching(h, source, after, rows[n - 1].offset)
  {
    MatchingPrefix(h, source, after, through, n);
  }

  /** A read past the high watermark finds nothing. */
  lemma ReadBeyond(db: Db, h: History, source: Source, after: nat, limits: ReadLimits)
    requires FeedInv(db, h) && limits.Valid() && after > |h|
    ensures var r := Read(db, source, after, limits);
            r == Got(Batch([], after))
  {
    SelectIsMatching(h, db.compacted, source, after, Min(db.high, after + limits.scan));
  }

  lemma ReadWithin(db: Db, h: History, source: Source, after: nat, limits: ReadLimits)
    requires FeedInv(db, h) && limits.Valid() && db.compacted <= after <= |h|
    ensures var r := Read(db, source, after, limits);
            && !r.Compacted?
            && (r.Got? ==> after <= r.batch.offset <= |h|
                           && r.batch.changes == Matching(h, source, after, r.batch.offset))
  {
    var through := Min(db.high, after + limits.scan);
    WindowIsMatching(db, h, source, after, limits);
    var rows := Matching(h, source, after, through);
    var n := Taken(rows, 0, limits);
    if 0 < n { CutIsExact(h, source, after, through, n); }
    if rows != [] && rows[0].content.Size() <= limits.maxState { TakesOne(rows, limits); }
    hide Taken, Select, Matching, FeedInv;
    assert rows[..|rows|] == rows;
  }

  /** A batch holds exactly the matching changes up to its offset, and never moves past the high watermark. */
  lemma ReadIsExact(db: Db, h: History, source: Source, after: nat, limits: ReadLimits)
    requires FeedInv(db, h) && limits.Valid()
    ensures var r := Read(db, source, after, limits);
            && (r.Compacted? <==> after < db.compacted)
            && (r.Got? ==> && after <= r.batch.offset
                           && (after <= |h| ==> r.batch.offset <= |h|)
                           && (after > |h| ==> r.batch.changes == [])
                           && (after <= |h| ==> r.batch.changes == Matching(h, source, after, r.batch.offset)))
  {
    if after < db.compacted {
    } else if after <= |h| {
      ReadWithin(db, h, source, after, limits);
      hide Read;
    } else {
      ReadBeyond(db, h, source, after, limits);
      hide Read;
    }
  }

  lemma WindowIsMatching(db: Db, h: History, source: Source, after: nat, limits: ReadLimits)
    requires FeedInv(db, h) && db.compacted <= after <= db.high
    ensures var through := Min(db.high, after + limits.scan);
            Select(db.changes, source, after, through) == Matching(h, source, after, through)
  {
    SelectIsMatching(h, db.compacted, source, after, Min(db.high, after + limits.scan));
  }

  lemma TakesOne(rows: seq<Change>, limits: ReadLimits)
    requires limits.Valid() && rows != [] && rows[0].content.Size() <= limits.maxState
    ensures Taken(rows, 0, limits) > 0
  {
  }

  /** The cursor takes the greedy longest prefix within the row and byte limits. */
  lemma {:induction false} TakenIsGreedy(rows: seq<Change>, n: nat, limits: ReadLimits)
    requires limits.Valid() && n <= |rows| && n <= limits.rows && TotalSize(rows[..n]) <= limits.bytes
    ensures var k := Taken(rows, n, limits);
            && k <= limits.rows && TotalSize(rows[..k]) <= limits.bytes
            && (k < |rows| ==> k == limits.rows || rows[k].content.Size() > limits.maxState
                               || TotalSize(rows[..k + 1]) > limits.bytes)
            && (forall j :: n <= j < k ==> rows[j].content.Size() <= limits.maxState)
    decreases |rows| - n
  {
    if n < |rows| {
      assert rows[..n + 1][..n] == rows[..n];
      if n < limits.rows && rows[n].content.Size() <= limits.maxState
         && (n > 0 ==> TotalSize(rows[..n]) + rows[n].content.Size() <= limits.bytes)
      {
        if n == 0 { assert rows[..0] == []; }
        TakenIsGreedy(rows, n + 1, limits);
      }
    }
  }

  /** A batch respects both limits, and leaves out a match of its window only because a limit was reached. */
  lemma BatchIsGreedy(db: Db, h: History, source: Source, after: nat, limits: ReadLimits)
    requires FeedInv(db, h) && limits.Valid() && Read(db, source, after, limits).Got?
    ensures var cs := Read(db, source, after, limits).batch.changes;
            var rows := Select(db.changes, source, after, Min(db.high, after + limits.scan));
            && cs <= rows && |cs| <= limits.rows && TotalSize(cs) <= limits.bytes
            && (cs != rows ==> |cs| == limits.rows || TotalSize(rows[..|cs| + 1]) > limits.bytes)
  {
    var rows := Select(db.changes, source, after, Min(db.high, after + limits.scan));
    assert rows[..0] == [];
    TakenIsGreedy(rows, 0, limits);
    assert rows[..|rows|] == rows;
    hide Select, Taken;
  }

  /** Short of the high watermark, every read moves forward. */
  lemma ReadAdvances(db: Db, h: History, source: Source, after: nat, limits: ReadLimits)
    requires FeedInv(db, h) && limits.Valid() && after < db.high && Read(db, source, after, limits).Got?
    ensures Read(db, source, after, limits).batch.offset > after
  {
    hide Taken, Select;
    var through := Min(db.high, after + limits.scan);
    WindowIsMatching(db, h, source, after, limits);
    var rows := Select(db.changes, source, after, through);
    var n := Taken(rows, 0, limits);
    if 0 < n { MatchingPrefix(h, source, after, through, n); }
    hide Matching;
    if rows != [] && rows[0].content.Size() <= limits.maxState { TakesOne(rows, limits); }
  }

  lemma {:induction false} TakenGrows(rows: seq<Change>, rows': seq<Change>, n: nat, limits: ReadLimits)
    requires rows <= rows' && n <= |rows|
    ensures Taken(rows, n, limits) <= Taken(rows', n, limits)
    decreases |rows| - n
  {
    if n < |rows| {
      assert rows[..n] == rows'[..n] && rows[n] == rows'[n];
      if Taken(rows, n, limits) != n { TakenGrows(rows, rows', n + 1, limits); }
    }
  }

  /** A batch that has to be read again, after any further writes, is a prefix of what is read then. */
  lemma RetryExtends(db: Db, h: History, db': Db, h': History, source: Source, after: nat, limits: ReadLimits)
    requires FeedInv(db, h) && FeedInv(db', h') && h <= h' && limits.Valid()
    requires Read(db, source, after, limits).Got? && Read(db', source, after, limits).Got? && after <= |h|
    ensures Read(db, source, after, limits).batch.changes <= Read(db', source, after, limits).batch.changes
  {
    hide Taken, Select, Matching;
    var through, through' := Min(db.high, after + limits.scan), Min(db'.high, after + limits.scan);
    WindowIsMatching(db, h, source, after, limits);
    WindowIsMatching(db', h', source, after, limits);
    var rows, rows' := Select(db.changes, source, after, through), Select(db'.changes, source, after, through');
    MatchingGrows(h, h', source, after, through);
    MatchingConcat(h', source, after, through, through');
    assert rows <= rows';
    TakenGrows(rows, rows', 0, limits);
    assert rows[..|rows|] == rows && rows'[..|rows'|] == rows';
  }

  /** Read on until the high watermark. */
  ghost function ReadAll(db: Db, h: History, source: Source, after: nat, limits: ReadLimits): seq<Change>
    requires FeedInv(db, h) && limits.Valid()
    decreases db.high - after
  {
    if after >= db.high || !Read(db, source, after, limits).Got? then []
    else
      var batch := Read(db, source, after, limits).batch;
      ReadAdvances(db, h, source, after, limits);
      batch.changes + ReadAll(db, h, source, batch.offset, limits)
  }

  /** Without new writes, repeated reads reach the high watermark and return every matching change once. */
  lemma {:induction false} ReadAllIsExact(db: Db, h: History, source: Source, after: nat, limits: ReadLimits)
    requires FeedInv(db, h) && limits.Valid() && db.compacted <= after <= db.high
    requires forall k :: 0 <= k < |h| ==> h[k].content.Size() <= limits.maxState
    ensures ReadAll(db, h, source, after, limits) == Matching(h, source, after, db.high)
    decreases db.high - after
  {
    if after < db.high {
      ReadSucceeds(db, h, source, after, limits);
      ReadIsExact(db, h, source, after, limits);
      ReadAdvances(db, h, source, after, limits);
      var batch := Read(db, source, after, limits).batch;
      hide Read, Matching;
      ReadAllIsExact(db, h, source, batch.offset, limits);
      MatchingConcat(h, source, after, batch.offset, db.high);
    } else {
      assert h[after..db.high] == [];
    }
  }

  lemma ReadSucceeds(db: Db, h: History, source: Source, after: nat, limits: ReadLimits)
    requires FeedInv(db, h) && limits.Valid() && db.compacted <= after
    requires forall k :: 0 <= k < |h| ==> h[k].content.Size() <= limits.maxState
    ensures Read(db, source, after, limits).Got?
  {
    hide Taken;
    SelectOnlyPicks(db.changes, source, after, Min(db.high, after + limits.scan));
  }

  lemma {:induction false} SelectOnlyPicks(cs: seq<Change>, source: Source, after: nat, through: nat)
    ensures forall k :: 0 <= k < |Select(cs, source, after, through)| ==> Select(cs, source, after, through)[k] in cs
  {
    if cs != [] { SelectOnlyPicks(cs[..|cs| - 1], source, after, through); }
  }
}
