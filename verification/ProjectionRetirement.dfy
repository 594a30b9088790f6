/** Retiring a projection that another process is still running, and registering its name again. */
module ProjectionRetirement {
  import opened Basics
  import opened DurableStore
  import opened StoreHistory
  import opened ChangeFeed
  import opened ProjectionRuns
  import opened ProjectionLag

  /** The sources each projection may be registered with. */
  type Definitions = set<(ProjectionId, Source)>

  ghost predicate EnabledAnywhere(defs: Definitions, w: World, ev: Event) {
    && (ev.RetireName? || Enabled(w, ev))
    && (ev.Start? || ev.StartLost? ==> (ev.name, ev.source) in defs)
  }

  /** Runs in which a name can be retired at any time. */
  ghost predicate RunsAnywhere(defs: Definitions, w0: World, evs: seq<Event>, w: World)
    decreases |evs|
  {
    if evs == [] then w == w0
    else EnabledAnywhere(defs, w0, evs[0]) && RunsAnywhere(defs, Next(w0, evs[0]), evs[1..], w)
  }

  /** The committed batches of every registered projection are exactly its changes up to its stored offset. */
  ghost predicate Exact(w: World) {
    forall name :: name in w.db.offsets ==>
      && name in w.tracks
      && Covers(w.h, w.db.offsets[name], w.tracks[name])
  }

  ghost predicate Covers(h: History, row: OffsetRow, t: Track) {
    && t.origin <= row.offset <= |h|
    && Concat(t.committed) == Matching(h, row.source, t.origin, row.offset)
  }

  ghost predicate SameFilter(a: Source, b: Source) {
    forall c: Change :: Matches(a, c) <==> Matches(b, c)
  }

  /** All definitions of one name select the same changes. */
  ghost predicate Steady(defs: Definitions) {
    forall name, a, b :: (name, a) in defs && (name, b) in defs ==> SameFilter(a, b)
  }

  // ----- Steady definitions are enough -----

  lemma {:induction false} SameFilterSame(cs: seq<Change>, a: Source, b: Source)
    requires SameFilter(a, b)
    ensures Filter(cs, a) == Filter(cs, b)
  {
    if cs != [] {
      SameFilterSame(cs[..|cs| - 1], a, b);
      assert Matches(a, cs[|cs| - 1]) <==> Matches(b, cs[|cs| - 1]);
    }
  }

  lemma SameMatching(h: History, a: Source, b: Source, lo: nat, hi: nat)
    requires SameFilter(a, b)
    ensures Matching(h, a, lo, hi) == Matching(h, b, lo, hi)
  {
    if lo <= hi <= |h| { SameFilterSame(h[lo..hi], a, b); }
  }

  ghost predicate RunnerOk(defs: Definitions, h: History, r: Runner) {
    && (r.name, r.source) in defs && r.offset <= |h|
    && (!r.stage.Polling? ==>
          && r.offset <= r.stage.batch.offset <= |h|
          && r.stage.batch.changes == Matching(h, r.source, r.offset, r.stage.batch.offset))
  }

  ghost predicate RowOk(defs: Definitions, w: World, name: ProjectionId)
    requires name in w.db.offsets
  {
    && name in w.tracks && (name, w.db.offsets[name].source) in defs
    && Covers(w.h, w.db.offsets[name], w.tracks[name])
  }

  ghost predicate Ok(defs: Definitions, w: World) {
    && FeedInv(w.db, w.h)
    && (forall name :: name in w.db.offsets ==> RowOk(defs, w, name))
    && (forall id :: id in w.runners ==> RunnerOk(defs, w.h, w.runners[id]))
  }

  lemma StoreOk(defs: Definitions, w: World, ev: Event)
    requires Ok(defs, w) && ev.Store? && Enabled(w, ev)
    ensures Ok(defs, Next(w, ev))
  {
    hide FeedInv, Next, Matching;
    StoreEffect(w, ev.tx);
    var v := Next(w, ev);
    forall name | name in v.db.offsets ensures RowOk(defs, v, name) {
      assert RowOk(defs, w, name);
      MatchingGrows(w.h, v.h, w.db.offsets[name].source, w.tracks[name].origin, w.db.offsets[name].offset);
    }
    forall id | id in v.runners ensures RunnerOk(defs, v.h, v.runners[id]) {
      var r := w.runners[id];
      assert RunnerOk(defs, w.h, r);
      if !r.stage.Polling? { MatchingGrows(w.h, v.h, r.source, r.offset, r.stage.batch.offset); }
    }
  }

  lemma RegisteringOk(defs: Definitions, w: World, name: ProjectionId, source: Source, mode: Mode, initial: Option<nat>)
    requires Ok(defs, w) && (name, source) in defs
    ensures var v := Registering(w, name, source, mode, initial);
            Ok(defs, v) && v.h == w.h && v.runners == w.runners
    ensures var outcome := Register(w.db, name, source, mode, initial).1;
            outcome.Registered? ==> outcome.offset <= |w.h|
  {
    var v := Registering(w, name, source, mode, initial);
    hide RunnerOk;
    forall n | n in v.db.offsets ensures RowOk(defs, v, n) {
      if n in w.db.offsets { assert RowOk(defs, w, n); } else { Nothing(v.h, source, v.tracks[n].origin); }
    }
    if name in w.db.offsets { assert RowOk(defs, w, name); }
  }

  lemma Nothing(h: History, source: Source, at: nat)
    ensures Matching(h, source, at, at) == []
  {
    if at <= |h| { assert h[at..at] == []; }
  }

  lemma StartOk(defs: Definitions, w: World, ev: Event)
    requires Ok(defs, w) && (ev.Start? || ev.StartLost?) && EnabledAnywhere(defs, w, ev)
    ensures Ok(defs, Next(w, ev))
  {
    hide Registering, FeedInv, Register, RowOk, Matching;
    RegisteringOk(defs, w, ev.name, ev.source, ev.mode, ev.initial);
    var w1, v := Registering(w, ev.name, ev.source, ev.mode, ev.initial), Next(w, ev);
    forall n | n in v.db.offsets ensures RowOk(defs, v, n) {
      assert RowOk(defs, w1, n);
      SameRow(defs, w1, v, n);
    }
  }

  lemma SameRow(defs: Definitions, w: World, v: World, name: ProjectionId)
    requires name in w.db.offsets && RowOk(defs, w, name)
    requires v.h == w.h && name in v.db.offsets && v.db.offsets[name] == w.db.offsets[name]
    requires name in v.tracks && name in w.tracks ==> v.tracks[name].origin == w.tracks[name].origin
                                                      && v.tracks[name].committed == w.tracks[name].committed
    requires name in w.tracks ==> name in v.tracks
    ensures RowOk(defs, v, name)
  {
  }

  lemma PollOk(defs: Definitions, w: World, ev: Event)
    requires Ok(defs, w) && ev.Poll? && Enabled(w, ev)
    ensures Ok(defs, Next(w, ev))
  {
    hide Read, FeedInv, Matching;
    var r, v := w.runners[ev.id], Next(w, ev);
    assert RunnerOk(defs, w.h, r);
    ReadIsExact(w.db, w.h, r.source, r.offset, ev.limits);
    forall n | n in v.db.offsets ensures RowOk(defs, v, n) { assert RowOk(defs, w, n); }
  }

  lemma QuietOk(defs: Definitions, w: World, ev: Event)
    requires Ok(defs, w) && (ev.Handle? || ev.Retry? || ev.Crash?) && Enabled(w, ev)
    ensures Ok(defs, Next(w, ev))
  {
    hide FeedInv, Matching;
    var v := Next(w, ev);
    forall n | n in v.db.offsets ensures RowOk(defs, v, n) { assert RowOk(defs, w, n); }
  }

  lemma RetireOk(defs: Definitions, w: World, ev: Event)
    requires Ok(defs, w) && ev.RetireName?
    ensures Ok(defs, Next(w, ev))
  {
    hide Matching;
    var v := Next(w, ev);
    FeedIgnoresOffsets(w.db, w.h, v.db.offsets);
    hide FeedInv;
    forall n | n in v.db.offsets ensures RowOk(defs, v, n) { assert RowOk(defs, w, n); }
  }

  /** A batch of a source with the same changes extends what is covered. */
  lemma CoversMore(h: History, row: OffsetRow, t: Track, source: Source, b: Batch)
    requires Covers(h, row, t) && SameFilter(source, row.source) && row.offset <= b.offset <= |h|
    requires b.changes == Matching(h, source, row.offset, b.offset)
    ensures Covers(h, row.(offset := b.offset), t.(committed := t.committed + [b.changes]))
  {
    var bs := t.committed + [b.changes];
    assert bs[..|bs| - 1] == t.committed;
    SameMatching(h, source, row.source, row.offset, b.offset);
    MatchingConcat(h, row.source, t.origin, row.offset, b.offset);
  }

  lemma CommitOk(defs: Definitions, w: World, ev: Event)
    requires Steady(defs) && Ok(defs, w) && ev.Commit? && Enabled(w, ev)
    ensures Ok(defs, Next(w, ev))
  {
    hide Matching, SameFilter;
    var r, v := w.runners[ev.id], Next(w, ev);
    assert RunnerOk(defs, w.h, r);
    FeedIgnoresOffsets(w.db, w.h, v.db.offsets);
    hide FeedInv;
    var b := r.stage.batch;
    forall n | n in v.db.offsets ensures RowOk(defs, v, n) {
      assert RowOk(defs, w, n);
      if n == r.name && b.offset != r.offset && w.db.offsets[n].offset == r.offset {
        CoversMore(w.h, w.db.offsets[n], w.tracks[n], r.source, b);
      }
    }
  }

  lemma StepOk(defs: Definitions, w: World, ev: Event)
    requires Steady(defs) && Ok(defs, w) && EnabledAnywhere(defs, w, ev)
    ensures Ok(defs, Next(w, ev))
  {
    hide Ok, Next, Steady;
    match ev
    case Store(_) => StoreOk(defs, w, ev);
    case Start(_, _, _, _, _) => StartOk(defs, w, ev);
    case StartLost(_, _, _, _) => StartOk(defs, w, ev);
    case Poll(_, _) => PollOk(defs, w, ev);
    case Commit(_, _) => CommitOk(defs, w, ev);
    case RetireName(_) => RetireOk(defs, w, ev);
    case _ => QuietOk(defs, w, ev);
  }

  lemma {:induction false} RunsAreExact(defs: Definitions, w0: World, evs: seq<Event>, w: World)
    requires Steady(defs) && Ok(defs, w0) && RunsAnywhere(defs, w0, evs, w)
    ensures Exact(w)
    decreases |evs|
  {
    if evs != [] {
      StepOk(defs, w0, evs[0]);
      hide Ok, Next, Exact, Steady;
      RunsAreExact(defs, Next(w0, evs[0]), evs[1..], w);
    } else {
      forall name | name in w.db.offsets ensures name in w.tracks && Covers(w.h, w.db.offsets[name], w.tracks[name]) {
        assert RowOk(defs, w, name);
      }
    }
  }

  // ----- And necessary -----

  lemma One(defs: Definitions, w: World, ev: Event, rest: seq<Event>, v: World)
    requires EnabledAnywhere(defs, w, ev) && RunsAnywhere(defs, Next(w, ev), rest, v)
    ensures RunsAnywhere(defs, w, [ev] + rest, v)
  {
    assert ([ev] + rest)[1..] == rest;
    hide Next, EnabledAnywhere;
  }

  const EveryLimit := ReadLimits(1, 0, 1, 0)

  /** A runner has read its first change when its name is retired and registered with another source; it then commits
      into the new registration. */
  lemma ForeignCommit(defs: Definitions, name: ProjectionId, a: Source, b: Source, w: World, c: Change)
    returns (evs: seq<Event>, v: World)
    requires (name, b) in defs && OneChange(w, name, a, c) && c.content == Tombstone
    ensures RunsAnywhere(defs, w, evs, v) && v.h == [c]
    ensures name in v.db.offsets && v.db.offsets[name] == OffsetRow(b, ExactlyOnce, 1)
    ensures name in v.tracks && v.tracks[name] == Track(0, [Matching([c], a, 0, 1)], [])
  {
    hide FeedInv, Matching, Read;
    OneIsRead(w, name, a, c, EveryLimit);
    var again := StartLost(name, b, ExactlyOnce, None);
    var w1 := Next(w, Poll(0, EveryLimit));
    var w2 := Next(w1, RetireName(name));
    var w3 := Next(w2, again);
    v := Next(w3, Commit(0, true));
    One(defs, w3, Commit(0, true), [], v);
    One(defs, w2, again, [Commit(0, true)], v);
    One(defs, w1, RetireName(name), [again, Commit(0, true)], v);
    One(defs, w, Poll(0, EveryLimit), [RetireName(name), again, Commit(0, true)], v);
    evs := [Poll(0, EveryLimit)] + [RetireName(name), again, Commit(0, true)];
  }

  lemma OneMatches(c: Change, source: Source)
    ensures Matching([c], source, 0, 1) == if Matches(source, c) then [c] else []
  {
    assert [c][0..1] == [c] && [c][..0] == [] && Filter([], source) == [];
  }

  lemma UnsteadyIsInexact(defs: Definitions, name: ProjectionId, a: Source, b: Source, c: Change)
    returns (evs: seq<Event>, v: World)
    requires (name, a) in defs && (name, b) in defs && Matches(a, c) != Matches(b, c)
    ensures RunsAnywhere(defs, InitWorld, evs, v) && !Exact(v)
  {
    var d := Change(1, c.pid, c.slice, 1, c.op, Tombstone);
    var start, write := Starting(name, a), Writing(c.pid, c.slice, c.op);
    var w1 := Next(InitWorld, start);
    var w2 := Next(w1, write);
    OneIsWritten(name, a, c.pid, c.slice, c.op);
    var more: seq<Event>;
    more, v := ForeignCommit(defs, name, a, b, w2, d);
    One(defs, w1, write, more, v);
    One(defs, InitWorld, start, [write] + more, v);
    evs := [start] + ([write] + more);
    OneMatches(d, a);
    OneMatches(d, b);
    var cs := Matching([d], a, 0, 1);
    assert [cs][..0] == [] && Concat([cs]) == cs;
    assert !Covers(v.h, v.db.offsets[name], v.tracks[name]);
  }

  lemma InitOk(defs: Definitions)
    ensures Ok(defs, InitWorld)
  {
  }

  lemma Difference(a: Source, b: Source) returns (c: Change)
    requires !SameFilter(a, b)
    ensures Matches(a, c) != Matches(b, c)
  {
    c :| Matches(a, c) != Matches(b, c);
  }

  ghost predicate AlwaysExact(defs: Definitions) {
    forall evs, w :: RunsAnywhere(defs, InitWorld, evs, w) ==> Exact(w)
  }

  /** With names retired under the feet of their runners, every run keeps exactly-once exactly if all definitions a name
      is ever registered with select the same changes. */
  lemma ExactlyOnceIff(defs: Definitions)
    ensures AlwaysExact(defs) <==> Steady(defs)
  {
    hide RunsAnywhere, Exact, SameFilter;
    if Steady(defs) {
      forall evs, w | RunsAnywhere(defs, InitWorld, evs, w) ensures Exact(w) {
        InitOk(defs);
        RunsAreExact(defs, InitWorld, evs, w);
      }
    } else {
      var name, a, b :| (name, a) in defs && (name, b) in defs && !SameFilter(a, b);
      var c := Difference(a, b);
      var evs, w := UnsteadyIsInexact(defs, name, a, b, c);
      assert RunsAnywhere(defs, InitWorld, evs, w) && !Exact(w);
    }
  }
}
