/** Projection runners over the store: any number of runners and writers, compaction, crashes, aborted
    transactions and commits whose reply is lost, in any interleaving of transactions. */
module ProjectionRuns {
  import opened Basics
  import opened DurableStore
  import opened StoreHistory
  import opened ChangeFeed

  datatype Stage = Polling | Loaded(batch: Batch) | Handled(batch: Batch)

  /** A running loop. `offset` is what it believes is stored. */
  datatype Runner = Runner(name: ProjectionId, source: Source, mode: Mode, offset: nat, stage: Stage)

  /** What became of a registered projection: where it started, the batches committed with an offset, in order,
      and the batches an at-least-once handler has completed. */
  datatype Track = Track(origin: nat, committed: seq<seq<Change>>, delivered: seq<seq<Change>>)

  datatype World = World(db: Db, h: History, tracks: map<ProjectionId, Track>, runners: map<nat, Runner>)

  datatype Event =
    | Store(tx: Tx)
    | Start(id: nat, name: ProjectionId, source: Source, mode: Mode, initial: Option<nat>)
    | StartLost(name: ProjectionId, source: Source, mode: Mode, initial: Option<nat>)
    | Poll(id: nat, limits: ReadLimits)
    | Handle(id: nat)
    | Commit(id: nat, reply: bool)
    | Retry(id: nat)
    | Crash(id: nat)
    | RetireName(name: ProjectionId)

  const InitWorld := World(EmptyDb, [], map[], map[])

  /** An exactly-once batch is applied inside the committing transaction; an at-least-once batch that has
      changes is committed only after its handler completed. */
  predicate ReadyToCommit(r: Runner) {
    !r.stage.Polling? && (r.mode.AtLeastOnce? && r.stage.Loaded? ==> r.stage.batch.changes == [])
  }

  ghost predicate Enabled(w: World, ev: Event) {
    match ev
    case Store(tx) => (tx.DoWrite? || tx.DoCompact?) && Possible(w.db, tx)
    case Start(id, _, _, _, _) => id !in w.runners
    case StartLost(_, _, _, _) => true
    case Poll(id, limits) => id in w.runners && w.runners[id].stage.Polling? && limits.Valid()
    case Handle(id) =>
      id in w.runners && w.runners[id].mode.AtLeastOnce? && w.runners[id].stage.Loaded?
      && w.runners[id].stage.batch.changes != []
    case Commit(id, _) => id in w.runners && ReadyToCommit(w.runners[id])
    case Retry(id) => id in w.runners
    case Crash(id) => id in w.runners
    case RetireName(name) => forall id :: id in w.runners ==> w.runners[id].name != name
  }

  function Registering(w: World, name: ProjectionId, source: Source, mode: Mode, initial: Option<nat>): World {
    var (db, outcome) := Register(w.db, name, source, mode, initial);
    w.(db := db, tracks := if name !in w.db.offsets && outcome.Registered?
                           then w.tracks[name := Track(outcome.offset, [], [])] else w.tracks)
  }

  function Committing(w: World, id: nat, reply: bool): World
    requires id in w.runners && ReadyToCommit(w.runners[id])
  {
    var r := w.runners[id];
    var b := r.stage.batch;
    if b.offset == r.offset then
      w.(runners := w.runners[id := r.(stage := Polling)])
    else
      var (db, saved) := Advance(w.db, r.name, r.offset, b.offset);
      if !saved then
        w.(runners := w.runners - {id})
      else
        var t := if r.name in w.tracks then w.tracks[r.name] else Track(0, [], []);
        w.(db := db, tracks := w.tracks[r.name := t.(committed := t.committed + [b.changes])],
           runners := w.runners[id := r.(stage := Polling, offset := if reply then b.offset else r.offset)])
  }

  function Next(w: World, ev: Event): World
    requires ev.Poll? || ev.Handle? || ev.Retry? || ev.Crash? || ev.Commit? ==> ev.id in w.runners
    requires ev.Poll? ==> ev.limits.Valid()
    requires ev.Handle? ==> w.runners[ev.id].stage.Loaded?
    requires ev.Commit? ==> ReadyToCommit(w.runners[ev.id])
  {
    match ev
    case Store(tx) => w.(db := Apply(w.db, tx), h := w.h + Logged(w.db, tx))
    case Start(id, name, source, mode, initial) =>
      var outcome := Register(w.db, name, source, mode, initial).1;
      Registering(w, name, source, mode, initial).(
        runners := if outcome.Registered? then w.runners[id := Runner(name, source, mode, outcome.offset, Polling)]
                   else w.runners)
    case StartLost(name, source, mode, initial) => Registering(w, name, source, mode, initial)
    case Poll(id, limits) =>
      var r := w.runners[id];
      (match Read(w.db, r.source, r.offset, limits)
       case Got(batch) => w.(runners := w.runners[id := r.(stage := Loaded(batch))])
       case Compacted(_, _) => w.(runners := w.runners - {id})
       case TooLarge => w)
    case Handle(id) =>
      var r := w.runners[id];
      var t := if r.name in w.tracks then w.tracks[r.name] else Track(0, [], []);
      w.(tracks := w.tracks[r.name := t.(delivered := t.delivered + [r.stage.batch.changes])],
         runners := w.runners[id := r.(stage := Handled(r.stage.batch))])
    case Commit(id, reply) => Committing(w, id, reply)
    case Retry(id) => w.(runners := w.runners[id := w.runners[id].(stage := Polling)])
    case Crash(id) => w.(runners := w.runners - {id})
    case RetireName(name) => w.(db := Retire(w.db, name), tracks := w.tracks - {name})
  }

  /** `w` is reached from `w0` by the events `evs`, in order. */
  ghost predicate Runs(w0: World, evs: seq<Event>, w: World)
    decreases |evs|
  {
    if evs == [] then w == w0 else Enabled(w0, evs[0]) && Runs(Next(w0, evs[0]), evs[1..], w)
  }

  ghost predicate Reachable(evs: seq<Event>, w: World) {
    Runs(InitWorld, evs, w)
  }

  // ----- The invariant -----

  ghost predicate TrackInv(h: History, floor: nat, row: OffsetRow, t: Track) {
    && floor <= row.offset <= |h|
    && t.origin <= row.offset
    && Concat(t.committed) == Matching(h, row.source, t.origin, row.offset)
    && (row.mode.AtLeastOnce? ==> forall k :: 0 <= k < |t.committed| ==>
          t.committed[k] == [] || t.committed[k] in t.delivered)
  }

  ghost predicate RunnerInv(h: History, row: OffsetRow, t: Track, r: Runner) {
    && row.source == r.source && row.mode == r.mode
    && t.origin <= r.offset <= row.offset
    && (!r.stage.Polling? ==>
          && r.offset <= r.stage.batch.offset <= |h|
          && r.stage.batch.changes == Matching(h, r.source, r.offset, r.stage.batch.offset))
    && (r.stage.Handled? ==> r.stage.batch.changes in t.delivered)
  }

  ghost predicate Inv(w: World) {
    && FeedInv(w.db, w.h)
    && w.tracks.Keys == w.db.offsets.Keys
    && (forall name :: name in w.tracks ==> TrackInv(w.h, w.db.compacted, w.db.offsets[name], w.tracks[name]))
    && (forall id :: id in w.runners ==> w.runners[id].name in w.tracks)
    && (forall id :: id in w.runners ==>
          RunnerInv(w.h, w.db.offsets[w.runners[id].name], w.tracks[w.runners[id].name], w.runners[id]))
  }

  lemma TrackGrows(h: History, h': History, floor: nat, row: OffsetRow, t: Track)
    requires h <= h' && TrackInv(h, floor, row, t)
    ensures TrackInv(h', floor, row, t)
  {
    MatchingGrows(h, h', row.source, t.origin, row.offset);
    hide Matching;
  }

  lemma RunnerGrows(h: History, h': History, row: OffsetRow, t: Track, r: Runner)
    requires h <= h' && RunnerInv(h, row, t, r)
    ensures RunnerInv(h', row, t, r)
  {
    if !r.stage.Polling? { MatchingGrows(h, h', r.source, r.offset, r.stage.batch.offset); }
    hide Matching;
  }

  /** A compaction never passes a registered projection. */
  lemma FloorBelowOffsets(db: Db, lowest: Option<nat>, limit: nat, name: ProjectionId)
    requires IsLowestOf(db, lowest) && name in db.offsets && db.compacted <= db.offsets[name].offset
    ensures NewFloor(db, lowest, limit) <= db.offsets[name].offset
  {
  }

  lemma StoreEffect(w: World, tx: Tx)
    requires FeedInv(w.db, w.h) && (tx.DoWrite? || tx.DoCompact?) && Possible(w.db, tx)
    ensures var w' := Next(w, Store(tx));
            && FeedInv(w'.db, w'.h) && w.h <= w'.h
            && w'.db.offsets == w.db.offsets && w'.tracks == w.tracks && w'.runners == w.runners
    ensures var db' := Next(w, Store(tx)).db;
            forall name :: name in db'.offsets && w.db.compacted <= db'.offsets[name].offset
              ==> db'.compacted <= db'.offsets[name].offset
  {
    ApplyKeepsFeed(w.db, w.h, tx);
    if tx.DoCompact? {
      CompactionMovesFloor(w.db, w.h, tx.lowest, tx.limit);
      forall name | name in w.db.offsets && w.db.compacted <= w.db.offsets[name].offset
        ensures NewFloor(w.db, tx.lowest, tx.limit) <= w.db.offsets[name].offset
      {
        FloorBelowOffsets(w.db, tx.lowest, tx.limit, name);
      }
    }
    hide FeedInv;
  }

  lemma StoreKeepsInv(w: World, tx: Tx)
    requires Inv(w) && (tx.DoWrite? || tx.DoCompact?) && Possible(w.db, tx)
    ensures Inv(Next(w, Store(tx)))
  {
    hide FeedInv, Next, RunnerInv;
    StoreEffect(w, tx);
    var w' := Next(w, Store(tx));
    forall name | name in w.tracks
      ensures TrackInv(w'.h, w'.db.compacted, w'.db.offsets[name], w'.tracks[name])
    {
      TrackGrows(w.h, w'.h, w.db.compacted, w.db.offsets[name], w.tracks[name]);
    }
    hide TrackInv;
    forall id | id in w.runners
      ensures RunnerInv(w'.h, w'.db.offsets[w.runners[id].name], w'.tracks[w.runners[id].name], w.runners[id])
    {
      RunnerGrows(w.h, w'.h, w.db.offsets[w.runners[id].name], w.tracks[w.runners[id].name], w.runners[id]);
    }
  }

  lemma NewTrack(h: History, floor: nat, row: OffsetRow)
    requires floor <= row.offset <= |h|
    ensures TrackInv(h, floor, row, Track(row.offset, [], []))
  {
    assert h[row.offset..row.offset] == [];
  }

  lemma RegisteringKeepsInv(w: World, name: ProjectionId, source: Source, mode: Mode, initial: Option<nat>)
    requires Inv(w)
    ensures Inv(Registering(w, name, source, mode, initial))
  {
    hide RunnerInv, TrackInv;
    var (db, outcome) := Register(w.db, name, source, mode, initial);
    if name !in w.db.offsets && outcome.Registered? {
      NewTrack(w.h, w.db.compacted, OffsetRow(source, mode, outcome.offset));
    }
  }

  lemma RegisteringEffect(w: World, name: ProjectionId, source: Source, mode: Mode, initial: Option<nat>)
    requires Inv(w)
    ensures var w' := Registering(w, name, source, mode, initial);
            var outcome := Register(w.db, name, source, mode, initial).1;
            && w'.h == w.h && w'.runners == w.runners
            && (outcome.Registered? ==>
                  && name in w'.tracks && name in w'.db.offsets
                  && w'.db.offsets[name] == OffsetRow(source, mode, outcome.offset))
  {
    hide FeedInv, TrackInv, RunnerInv;
  }

  lemma FreshRunner(h: History, row: OffsetRow, t: Track, name: ProjectionId)
    requires t.origin <= row.offset
    ensures RunnerInv(h, row, t, Runner(name, row.source, row.mode, row.offset, Polling))
  {
  }

  /** A runner that has just registered. */
  lemma StartKeepsInv(w: World, ev: Event)
    requires Inv(w) && ev.Start? && Enabled(w, ev)
    ensures Inv(Next(w, ev))
  {
    hide FeedInv, TrackInv, RunnerInv, Registering, Register;
    RegisteringKeepsInv(w, ev.name, ev.source, ev.mode, ev.initial);
    var w1 := Registering(w, ev.name, ev.source, ev.mode, ev.initial);
    var outcome := Register(w.db, ev.name, ev.source, ev.mode, ev.initial).1;
    RegisteringEffect(w, ev.name, ev.source, ev.mode, ev.initial);
    if outcome.Registered? {
      OffsetsBelowHigh(w1, ev.name);
      FreshRunner(w1.h, w1.db.offsets[ev.name], w1.tracks[ev.name], ev.name);
    }
  }

  lemma PollKeepsInv(w: World, ev: Event)
    requires Inv(w) && ev.Poll? && Enabled(w, ev)
    ensures Inv(Next(w, ev))
  {
    hide TrackInv, Read, FeedInv, Matching;
    var r := w.runners[ev.id];
    assert RunnerInv(w.h, w.db.offsets[r.name], w.tracks[r.name], r);
    assert r.offset <= |w.h| by { OffsetsBelowHigh(w, r.name); }
    ReadIsExact(w.db, w.h, r.source, r.offset, ev.limits);
  }

  lemma OffsetsBelowHigh(w: World, name: ProjectionId)
    requires Inv(w) && name in w.tracks
    ensures w.db.compacted <= w.db.offsets[name].offset <= |w.h| && w.tracks[name].origin <= w.db.offsets[name].offset
  {
    assert TrackInv(w.h, w.db.compacted, w.db.offsets[name], w.tracks[name]);
  }

  lemma HandleKeepsInv(w: World, ev: Event)
    requires Inv(w) && ev.Handle? && Enabled(w, ev)
    ensures Inv(Next(w, ev))
  {
    hide FeedInv, Matching;
    var r := w.runners[ev.id];
    assert TrackInv(w.h, w.db.compacted, w.db.offsets[r.name], w.tracks[r.name]);
    assert RunnerInv(w.h, w.db.offsets[r.name], w.tracks[r.name], r);
  }

  lemma FeedIgnoresOffsets(db: Db, h: History, offsets: map<ProjectionId, OffsetRow>)
    requires FeedInv(db, h)
    ensures FeedInv(db.(offsets := offsets), h)
  {
  }

  lemma BackToPolling(h: History, row: OffsetRow, t: Track, r: Runner)
    requires RunnerInv(h, row, t, r)
    ensures RunnerInv(h, row, t, r.(stage := Polling))
  {
  }

  lemma RetryKeepsInv(w: World, ev: Event)
    requires Inv(w) && ev.Retry? && Enabled(w, ev)
    ensures Inv(Next(w, ev))
  {
    hide FeedInv, TrackInv, RunnerInv;
    var r := w.runners[ev.id];
    BackToPolling(w.h, w.db.offsets[r.name], w.tracks[r.name], r);
  }

  lemma RemovalKeepsInv(w: World, ev: Event)
    requires Inv(w) && (ev.Crash? || ev.RetireName?) && Enabled(w, ev)
    ensures Inv(Next(w, ev))
  {
    hide FeedInv, TrackInv, RunnerInv;
    FeedIgnoresOffsets(w.db, w.h, Next(w, ev).db.offsets);
  }

  /** Committing a batch extends exactly the changes already covered. */
  lemma CommittedExtends(h: History, floor: nat, row: OffsetRow, t: Track, r: Runner)
    requires TrackInv(h, floor, row, t) && RunnerInv(h, row, t, r) && row.offset == r.offset && ReadyToCommit(r)
    ensures var b := r.stage.batch;
            TrackInv(h, floor, row.(offset := b.offset), t.(committed := t.committed + [b.changes]))
  {
    var b := r.stage.batch;
    var bs := t.committed + [b.changes];
    assert bs[..|bs| - 1] == t.committed;
    MatchingConcat(h, row.source, t.origin, row.offset, b.offset);
    hide Matching;
  }

  lemma CommitKeepsInv(w: World, ev: Event)
    requires Inv(w) && ev.Commit? && Enabled(w, ev)
    ensures Inv(Next(w, ev))
  {
    hide FeedInv, Matching;
    var r := w.runners[ev.id];
    var row, t, b := w.db.offsets[r.name], w.tracks[r.name], r.stage.batch;
    assert TrackInv(w.h, w.db.compacted, row, t) && RunnerInv(w.h, row, t, r);
    FeedIgnoresOffsets(w.db, w.h, Next(w, ev).db.offsets);
    if b.offset != r.offset && row.offset == r.offset {
      CommittedExtends(w.h, w.db.compacted, row, t, r);
      hide TrackInv;
    }
  }

  lemma StepKeepsInv(w: World, ev: Event)
    requires Inv(w) && Enabled(w, ev)
    ensures Inv(Next(w, ev))
  {
    hide Inv, Next;
    match ev
    case Store(tx) => StoreKeepsInv(w, tx);
    case Start(_, _, _, _, _) => StartKeepsInv(w, ev);
    case StartLost(name, source, mode, initial) => StartLostKeepsInv(w, ev);
    case Poll(_, _) => PollKeepsInv(w, ev);
    case Handle(_) => HandleKeepsInv(w, ev);
    case Commit(_, _) => CommitKeepsInv(w, ev);
    case Retry(_) => RetryKeepsInv(w, ev);
    case Crash(_) => RemovalKeepsInv(w, ev);
    case RetireName(_) => RemovalKeepsInv(w, ev);
  }

  lemma StartLostKeepsInv(w: World, ev: Event)
    requires Inv(w) && ev.StartLost?
    ensures Inv(Next(w, ev))
  {
    hide Inv, Registering;
    RegisteringKeepsInv(w, ev.name, ev.source, ev.mode, ev.initial);
  }

  lemma {:induction false} RunsKeepInv(w0: World, evs: seq<Event>, w: World)
    requires Inv(w0) && Runs(w0, evs, w)
    ensures Inv(w)
    decreases |evs|
  {
    hide Inv, Next;
    if evs != [] {
      StepKeepsInv(w0, evs[0]);
      RunsKeepInv(Next(w0, evs[0]), evs[1..], w);
    }
  }

  lemma ReachableKeepsInv(evs: seq<Event>, w: World)
    requires Reachable(evs, w)
    ensures Inv(w)
  {
    RunsKeepInv(InitWorld, evs, w);
  }

  // ----- The theorems -----

  /** Exactly once: in every reachable state, for every registered projection, the batches committed together with
      its offset are, one after the other, exactly the matching changes between where it started and its stored
      offset, each once and in offset order. */
  lemma ExactlyOnce(evs: seq<Event>, w: World, name: ProjectionId)
    requires Reachable(evs, w) && name in w.db.offsets
    ensures name in w.tracks
    ensures var row := w.db.offsets[name];
            && w.tracks[name].origin <= row.offset <= |w.h|
            && Concat(w.tracks[name].committed) == Matching(w.h, row.source, w.tracks[name].origin, row.offset)
  {
    ReachableKeepsInv(evs, w);
    assert TrackInv(w.h, w.db.compacted, w.db.offsets[name], w.tracks[name]);
  }

  function Fold<M>(f: (M, Change) -> M, m: M, cs: seq<Change>): M {
    if cs == [] then m else f(Fold(f, m, cs[..|cs| - 1]), cs[|cs| - 1])
  }

  function FoldBatches<M>(f: (M, Change) -> M, m: M, bs: seq<seq<Change>>): M {
    if bs == [] then m else Fold(f, FoldBatches(f, m, bs[..|bs| - 1]), bs[|bs| - 1])
  }

  lemma {:induction false} FoldConcat<M>(f: (M, Change) -> M, m: M, a: seq<Change>, b: seq<Change>)
    ensures Fold(f, m, a + b) == Fold(f, Fold(f, m, a), b)
  {
    if b == [] {
      assert a + b == a;
    } else {
      assert (a + b)[..|a + b| - 1] == a + b[..|b| - 1];
      FoldConcat(f, m, a, b[..|b| - 1]);
    }
  }

  lemma {:induction false} FoldBatchesIsFold<M>(f: (M, Change) -> M, m: M, bs: seq<seq<Change>>)
    ensures FoldBatches(f, m, bs) == Fold(f, m, Concat(bs))
  {
    if bs != [] {
      FoldBatchesIsFold(f, m, bs[..|bs| - 1]);
      FoldConcat(f, m, Concat(bs[..|bs| - 1]), bs[|bs| - 1]);
    }
  }

  /** A read model kept by an exactly-once handler is the handler folded once over exactly those changes, however
      they were split into batches and whatever was retried. */
  lemma ReadModelIsFold<M>(evs: seq<Event>, w: World, name: ProjectionId, f: (M, Change) -> M, m: M)
    requires Reachable(evs, w) && name in w.db.offsets
    ensures name in w.tracks
    ensures FoldBatches(f, m, w.tracks[name].committed)
            == Fold(f, m, Matching(w.h, w.db.offsets[name].source, w.tracks[name].origin, w.db.offsets[name].offset))
  {
    ExactlyOnce(evs, w, name);
    FoldBatchesIsFold(f, m, w.tracks[name].committed);
  }

  /** At least once: a batch whose offset was saved had been completed by the handler before. */
  lemma AtLeastOnceDelivered(evs: seq<Event>, w: World, name: ProjectionId, k: nat)
    requires Reachable(evs, w) && name in w.db.offsets && w.db.offsets[name].mode.AtLeastOnce?
    requires name in w.tracks && k < |w.tracks[name].committed| && w.tracks[name].committed[k] != []
    ensures w.tracks[name].committed[k] in w.tracks[name].delivered
  {
    ReachableKeepsInv(evs, w);
    assert TrackInv(w.h, w.db.compacted, w.db.offsets[name], w.tracks[name]);
  }

  /** Compaction safety: the floor never passes a stored offset, no stored offset passes the high watermark, the
      retained rows are the contiguous offsets in between, and reopening passes the consistency check. */
  lemma CompactionIsSafe(evs: seq<Event>, w: World, name: ProjectionId)
    requires Reachable(evs, w)
    ensures name in w.db.offsets ==> w.db.compacted <= w.db.offsets[name].offset <= w.db.high
    ensures w.db.compacted <= |w.h| == w.db.high && w.db.changes == w.h[w.db.compacted..] && FeedConsistent(w.db)
  {
    ReachableKeepsInv(evs, w);
    FeedInvIsConsistent(w.db, w.h);
    if name in w.db.offsets { OffsetsBelowHigh(w, name); }
  }

  /** A runner whose offset is the stored one never finds its history compacted away. */
  lemma CurrentRunnerCanRead(evs: seq<Event>, w: World, id: nat, limits: ReadLimits)
    requires Reachable(evs, w) && id in w.runners && limits.Valid()
    ensures var r := w.runners[id];
            && r.name in w.db.offsets && r.offset <= w.db.offsets[r.name].offset
            && (r.offset == w.db.offsets[r.name].offset ==> !Read(w.db, r.source, r.offset, limits).Compacted?)
  {
    ReachableKeepsInv(evs, w);
    var r := w.runners[id];
    OffsetsBelowHigh(w, r.name);
    assert RunnerInv(w.h, w.db.offsets[r.name], w.tracks[r.name], r);
    ReadIsExact(w.db, w.h, r.source, r.offset, limits);
    hide Read;
  }

  /** A runner that has fallen behind the stored offset, through a competing runner or a lost reply, cannot change
      the tables any more: whatever it does leaves them as they are, and it never catches up. */
  lemma StaleRunnerIsHarmless(w: World, ev: Event)
    requires Enabled(w, ev) && (ev.Poll? || ev.Commit? || ev.Retry? || ev.Crash?)
    requires w.runners[ev.id].name in w.db.offsets
    requires w.runners[ev.id].offset < w.db.offsets[w.runners[ev.id].name].offset
    ensures var w' := Next(w, ev);
            && w'.db == w.db && w'.tracks == w.tracks && w'.h == w.h
            && (ev.id in w'.runners ==> w'.runners[ev.id].offset == w.runners[ev.id].offset)
  {
    hide Read;
  }
}
