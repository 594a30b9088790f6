/** When a runner that has its projection to itself falls behind the stored offset: after a commit whose reply was lost,
    and only then. */
module ProjectionLag {
  import opened Basics
  import opened DurableStore
  import opened StoreHistory
  import opened ChangeFeed
  import opened ProjectionRuns

  /** At most one runner of a projection at a time. */
  ghost predicate Alone(w: World, ev: Event) {
    ev.Start? ==> forall id :: id in w.runners ==> w.runners[id].name != ev.name
  }

  ghost predicate SoleRuns(w0: World, evs: seq<Event>, w: World)
    decreases |evs|
  {
    if evs == [] then w == w0
    else Enabled(w0, evs[0]) && Alone(w0, evs[0]) && SoleRuns(Next(w0, evs[0]), evs[1..], w)
  }

  /** A commit that moves the stored offset and whose reply does not arrive. */
  predicate LosesReply(w: World, ev: Event) {
    && ev.Commit? && !ev.reply && ev.id in w.runners && ReadyToCommit(w.runners[ev.id])
    && var r := w.runners[ev.id];
       r.stage.batch.offset != r.offset && r.name in w.db.offsets && w.db.offsets[r.name].offset == r.offset
  }

  /** The runners that have lost such a reply, after one more event. */
  function LostAfter(w: World, ev: Event, lost: set<nat>): set<nat> {
    if LosesReply(w, ev) then lost + {ev.id} else if ev.Start? then lost - {ev.id} else lost
  }

  /** The runners that have lost such a reply in a run. */
  ghost function LostIn(w0: World, evs: seq<Event>, lost: set<nat>): set<nat>
    decreases |evs|
  {
    if evs == [] || !Enabled(w0, evs[0]) then lost
    else LostIn(Next(w0, evs[0]), evs[1..], LostAfter(w0, evs[0], lost))
  }

  ghost predicate Stands(w: World, lost: set<nat>, id: nat)
    requires id in w.runners
  {
    && w.runners[id].name in w.db.offsets
    && (w.runners[id].offset == w.db.offsets[w.runners[id].name].offset <==> id !in lost)
  }

  /** The runners that know the stored offset are those that have lost no reply, and no two share a name. */
  ghost predicate Standing(w: World, lost: set<nat>) {
    && (forall id :: id in w.runners ==> Stands(w, lost, id))
    && (forall i, j :: i in w.runners && j in w.runners && w.runners[i].name == w.runners[j].name ==> i == j)
  }

  // ----- One step -----

  lemma QuietStands(w: World, ev: Event, lost: set<nat>)
    requires Standing(w, lost) && Enabled(w, ev)
    requires ev.Poll? || ev.Handle? || ev.Retry? || ev.Crash? || ev.RetireName?
    ensures Standing(Next(w, ev), LostAfter(w, ev, lost))
  {
    hide Read;
  }

  lemma CommitStands(w: World, ev: Event, lost: set<nat>)
    requires Standing(w, lost) && Enabled(w, ev) && ev.Commit?
    ensures Standing(Next(w, ev), LostAfter(w, ev, lost))
  {
    var r := w.runners[ev.id];
    assert Stands(w, lost, ev.id);
    var v, lost' := Next(w, ev), LostAfter(w, ev, lost);
    forall id | id in v.runners ensures Stands(v, lost', id) {
      assert Stands(w, lost, id);
    }
  }

  lemma StoreStands(w: World, ev: Event, lost: set<nat>)
    requires Inv(w) && Standing(w, lost) && ev.Store? && Enabled(w, ev)
    ensures Standing(Next(w, ev), LostAfter(w, ev, lost))
  {
    hide Next, TrackInv, RunnerInv, FeedInv, Possible;
    StoreEffect(w, ev.tx);
    var v := Next(w, ev);
    forall id | id in v.runners ensures Stands(v, lost, id) {
      assert Stands(w, lost, id);
    }
  }

  lemma RegisteringStands(w: World, name: ProjectionId, source: Source, mode: Mode, initial: Option<nat>,
                          lost: set<nat>)
    requires Standing(w, lost)
    ensures Standing(Registering(w, name, source, mode, initial), lost)
  {
    var v := Registering(w, name, source, mode, initial);
    forall id | id in v.runners ensures Stands(v, lost, id) {
      assert Stands(w, lost, id);
    }
  }

  lemma StartStands(w: World, ev: Event, lost: set<nat>)
    requires Inv(w) && Standing(w, lost) && ev.Start? && Enabled(w, ev) && Alone(w, ev)
    ensures Standing(Next(w, ev), LostAfter(w, ev, lost))
  {
    hide FeedInv, TrackInv, RunnerInv, Registering, Register;
    RegisteringStands(w, ev.name, ev.source, ev.mode, ev.initial, lost);
    RegisteringEffect(w, ev.name, ev.source, ev.mode, ev.initial);
    var w1, v := Registering(w, ev.name, ev.source, ev.mode, ev.initial), Next(w, ev);
    forall id | id in v.runners ensures Stands(v, lost - {ev.id}, id) {
      if id != ev.id { assert Stands(w1, lost, id); }
    }
  }

  lemma StepStands(w: World, ev: Event, lost: set<nat>)
    requires Inv(w) && Standing(w, lost) && Enabled(w, ev) && Alone(w, ev)
    ensures Standing(Next(w, ev), LostAfter(w, ev, lost))
  {
    hide Inv, Standing;
    match ev
    case Store(_) => StoreStands(w, ev, lost);
    case Start(_, _, _, _, _) => StartStands(w, ev, lost);
    case StartLost(name, source, mode, initial) => RegisteringStands(w, name, source, mode, initial, lost);
    case Commit(_, _) => CommitStands(w, ev, lost);
    case _ => QuietStands(w, ev, lost);
  }

  lemma {:induction false} SoleRunsStand(w0: World, evs: seq<Event>, w: World, lost: set<nat>)
    requires Inv(w0) && Standing(w0, lost) && SoleRuns(w0, evs, w)
    ensures Inv(w) && Standing(w, LostIn(w0, evs, lost))
    decreases |evs|
  {
    hide Inv, Standing, Next, LostAfter;
    if evs != [] {
      StepKeepsInv(w0, evs[0]);
      StepStands(w0, evs[0], lost);
      SoleRunsStand(Next(w0, evs[0]), evs[1..], w, LostAfter(w0, evs[0], lost));
    }
  }

  // ----- The theorems -----

  /** Over every run in which no projection has two runners at a time, a runner is at the stored offset exactly if
      none of its commits was applied with the reply lost, since it was started. */
  lemma CurrentIff(evs: seq<Event>, w: World, id: nat)
    requires SoleRuns(InitWorld, evs, w) && id in w.runners
    ensures w.runners[id].name in w.db.offsets
    ensures w.runners[id].offset == w.db.offsets[w.runners[id].name].offset <==> id !in LostIn(InitWorld, evs, {})
  {
    SoleRunsStand(InitWorld, evs, w, {});
    hide LostIn, SoleRuns, Inv;
    assert Stands(w, LostIn(InitWorld, evs, {}), id);
  }

  /** So only such a runner meets compacted history, and a commit that moves the offset conflicts exactly for such a
      runner. */
  lemma OnlyLostReplyStops(evs: seq<Event>, w: World, id: nat, limits: ReadLimits, reply: bool)
    requires SoleRuns(InitWorld, evs, w) && id in w.runners && limits.Valid()
    ensures var r := w.runners[id];
            var lost := LostIn(InitWorld, evs, {});
            && (Read(w.db, r.source, r.offset, limits).Compacted? ==> id in lost)
            && (ReadyToCommit(r) && r.stage.batch.offset != r.offset ==>
                  (id !in Committing(w, id, reply).runners <==> id in lost))
  {
    SoleRunsStand(InitWorld, evs, w, {});
    CurrentIff(evs, w, id);
    var r := w.runners[id];
    assert r.name in w.tracks by { hide TrackInv, RunnerInv, FeedInv, LostIn, Standing; }
    OffsetsBelowHigh(w, r.name);
    hide Read, LostIn, SoleRuns, Standing, TrackInv, RunnerInv;
    ReadIsExact(w.db, w.h, r.source, r.offset, limits);
  }

  // ----- A sole runner stopped by a lost reply -----

  /** A runner has started and one change has been written. */
  ghost predicate OneChange(w: World, name: ProjectionId, source: Source, c: Change) {
    && w.h == [c] && c.offset == 1 && FeedInv(w.db, w.h) && w.db.compacted == 0
    && w.db.offsets == map[name := OffsetRow(source, ExactlyOnce, 0)]
    && 0 in w.runners && w.runners[0] == Runner(name, source, ExactlyOnce, 0, Polling)
  }

  /** A first change, written after a runner has started. */
  function Starting(name: ProjectionId, source: Source): Event {
    Start(0, name, source, ExactlyOnce, None)
  }

  function Writing(pid: PersistenceId, slice: nat, op: OperationId): Event {
    Event.Store(DoWrite(slice, pid, 0, op, Tombstone))
  }

  lemma OneIsWritten(name: ProjectionId, source: Source, pid: PersistenceId, slice: nat, op: OperationId)
    ensures var w := Next(Next(InitWorld, Starting(name, source)), Writing(pid, slice, op));
            OneChange(w, name, source, Change(1, pid, slice, 1, op, Tombstone))
  {
    var w1 := Next(InitWorld, Starting(name, source));
    var w := Next(w1, Writing(pid, slice, op));
    var c := Change(1, pid, slice, 1, op, Tombstone);
    assert w.h == [c] && w.db.changes == [c] && [c][..0] == [] && [c][0..] == [c];
    assert FeedInv(w1.db, w1.h);
    StoreEffect(w1, Writing(pid, slice, op).tx);
  }

  lemma Writes(name: ProjectionId, source: Source, pid: PersistenceId, op: OperationId)
    returns (evs: seq<Event>, w: World, c: Change)
    ensures SoleRuns(InitWorld, evs, w) && OneChange(w, name, source, c) && c.content == Tombstone
  {
    var start, write := Starting(name, source), Writing(pid, 0, op);
    var w1 := Next(InitWorld, start);
    w := Next(w1, write);
    c := Change(1, pid, 0, 1, op, Tombstone);
    OneIsWritten(name, source, pid, 0, op);
    SoleOne(w1, write, [], w);
    SoleOne(InitWorld, start, [write], w);
    evs := [start] + ([write] + []);
  }

  lemma SoleOne(w: World, ev: Event, rest: seq<Event>, v: World)
    requires Enabled(w, ev) && Alone(w, ev) && SoleRuns(Next(w, ev), rest, v)
    ensures SoleRuns(w, [ev] + rest, v)
  {
    assert ([ev] + rest)[1..] == rest;
    hide Next, Enabled;
  }

  lemma {:induction false} SoleJoin(w0: World, evs: seq<Event>, w: World, more: seq<Event>, v: World)
    requires SoleRuns(w0, evs, w) && SoleRuns(w, more, v)
    ensures SoleRuns(w0, evs + more, v)
    decreases |evs|
  {
    hide Next;
    if evs == [] {
      assert evs + more == more;
    } else {
      SoleJoin(Next(w0, evs[0]), evs[1..], w, more, v);
      assert (evs + more)[1..] == evs[1..] + more && (evs + more)[0] == evs[0];
    }
  }

  /** It reads the change. */
  lemma OneIsRead(w: World, name: ProjectionId, source: Source, c: Change, limits: ReadLimits)
    requires OneChange(w, name, source, c) && c.content == Tombstone && limits.Valid()
    ensures var batch := Batch(Matching([c], source, 0, 1), 1);
            Next(w, Poll(0, limits))
            == w.(runners := w.runners[0 := Runner(name, source, ExactlyOnce, 0, Loaded(batch))])
  {
    ReadSucceeds(w.db, w.h, source, 0, limits);
    ReadAdvances(w.db, w.h, source, 0, limits);
    ReadIsExact(w.db, w.h, source, 0, limits);
    hide Read, FeedInv, Matching;
    var batch := Read(w.db, source, 0, limits).batch;
    assert batch == Batch(batch.changes, 1);
  }

  lemma Polls(w: World, name: ProjectionId, source: Source, c: Change, limits: ReadLimits) returns (v: World)
    requires OneChange(w, name, source, c) && c.content == Tombstone && limits.Valid()
    ensures SoleRuns(w, [Poll(0, limits)], v) && v.db == w.db && v.h == w.h && 0 in v.runners
    ensures v.runners[0] == Runner(name, source, ExactlyOnce, 0, Loaded(Batch(Matching([c], source, 0, 1), 1)))
  {
    v := Next(w, Poll(0, limits));
    OneIsRead(w, name, source, c, limits);
    hide Read, FeedInv, Matching;
    SoleOne(w, Poll(0, limits), [], v);
  }

  /** It commits, the reply is lost, and the change it has committed is compacted away. */
  lemma LosesAndIsPassed(w: World, name: ProjectionId, source: Source, cs: seq<Change>) returns (v: World)
    requires |w.h| == 1 && FeedInv(w.db, w.h) && w.db.compacted == 0
    requires w.db.offsets == map[name := OffsetRow(source, ExactlyOnce, 0)]
    requires 0 in w.runners && w.runners[0] == Runner(name, source, ExactlyOnce, 0, Loaded(Batch(cs, 1)))
    ensures SoleRuns(w, [Commit(0, false), Event.Store(DoCompact(Some(1), 1))], v)
    ensures v.db.compacted == 1 && 0 in v.runners && v.runners[0] == Runner(name, source, ExactlyOnce, 0, Polling)
  {
    var w1 := Next(w, Commit(0, false));
    var compact := Event.Store(DoCompact(Some(1), 1));
    FeedIgnoresOffsets(w.db, w.h, w1.db.offsets);
    assert name in w1.db.offsets && w1.db.offsets[name].offset == 1;
    assert Possible(w1.db, compact.tx);
    CompactionMovesFloor(w1.db, w1.h, Some(1), 1);
    v := Next(w1, compact);
    SoleOne(w1, compact, [], v);
    SoleOne(w, Commit(0, false), [compact], v);
  }

  /** A runner with nobody beside it can find its own history compacted away: it believes in the offset before a
      commit that was applied, and compaction goes by the stored one. */
  lemma LostReplyCanStopSoleRunner(name: ProjectionId, source: Source, pid: PersistenceId, op: OperationId,
                                   limits: ReadLimits)
    requires limits.Valid()
    ensures exists evs, w :: && SoleRuns(InitWorld, evs, w) && 0 in w.runners && w.runners[0].name == name
                             && Read(w.db, w.runners[0].source, w.runners[0].offset, limits).Compacted?
  {
    hide SoleRuns;
    var a, w1, c := Writes(name, source, pid, op);
    var w2 := Polls(w1, name, source, c, limits);
    var w3 := LosesAndIsPassed(w2, name, source, Matching([c], source, 0, 1));
    SoleJoin(InitWorld, a, w1, [Poll(0, limits)], w2);
    var b := a + [Poll(0, limits)];
    SoleJoin(InitWorld, b, w2, [Commit(0, false), Event.Store(DoCompact(Some(1), 1))], w3);
    assert Read(w3.db, w3.runners[0].source, w3.runners[0].offset, limits).Compacted?;
  }
}
