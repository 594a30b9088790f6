/** Durable-state actors: any number of incarnations recovering from and writing to one store. */
module DurableActors {
  import opened Basics
  import opened DurableStore
  import opened StoreHistory

  type State(==, !new)

  datatype Encoded = Encoded(manifest: Bytes, payload: Bytes)

  /** What a behavior is made with. A codec function that raises gives `None`. */
  datatype Codec = Codec(encode: State -> Option<Encoded>, decode: Encoded -> Option<State>, empty: State)

  function Copy(c: Codec, s: State): Option<State> {
    var e := c.encode(s);
    if e.None? then None else c.decode(e.value)
  }

  /** Encoding a decoded state and decoding it again gives it back. */
  ghost predicate Stable(c: Codec) {
    forall e :: c.decode(e).Some? ==> Copy(c, c.decode(e).value) == c.decode(e)
  }

  /** The state an actor recovers from a stored row. */
  function Recovered(c: Codec, row: Option<StateRow>): Option<State> {
    if row.None? || row.value.content.Tombstone? then Copy(c, c.empty)
    else
      var s := c.decode(Encoded(row.value.content.manifest, row.value.content.payload));
      if s.None? then None else Copy(c, s.value)
  }

  // ----- One actor -----

  datatype Phase = Recovering | Running | Persisting | Stopping

  datatype Pending = Pending(candidate: State, stop: bool, op: OperationId, content: Content)

  /** The store call an actor waits for. `seen` is the state its command handler was given. */
  datatype Io =
    | Idle
    | LoadSubmitted(duplicate: bool)
    | LoadReady(row: Option<StateRow>, duplicate: bool)
    | LoadFailed
    | WriteSubmitted(expected: nat, op: OperationId, content: Content, seen: State)
    | WriteReady(revision: nat, isDuplicate: bool)
    | WriteFailed

  datatype Actor =
    Actor(pid: PersistenceId, phase: Phase, revision: nat, state: Option<State>, pending: Option<Pending>, io: Io)

  datatype Effect = NoEffect(stop: bool) | Persist(state: State, op: OperationId, stop: bool)
                  | Delete(op: OperationId, stop: bool)

  function Born(pid: PersistenceId): Actor {
    Actor(pid, Recovering, 0, None, None, LoadSubmitted(false))
  }

  function Failed(a: Actor): Actor {
    a.(phase := Stopping)
  }

  function Finish(a: Actor, apply: bool): Actor {
    if a.pending.None? then Failed(a)
    else
      a.(pending := None, state := if apply then Some(a.pending.value.candidate) else a.state,
         phase := if a.pending.value.stop then Stopping else Running)
  }

  function CompleteRecovery(c: Codec, a: Actor): Actor
    requires a.io.LoadReady? || a.io.LoadFailed?
  {
    if a.io.LoadFailed? then Failed(a.(io := Idle))
    else
      var s := Recovered(c, a.io.row);
      if s.None? then Failed(a.(io := Idle))
      else
        var b := a.(state := s, revision := if a.io.row.None? then 0 else a.io.row.value.revision, io := Idle);
        if Copy(c, s.value).None? then Failed(b)
        else if a.io.duplicate then Finish(b, false) else b.(phase := Running)
  }

  function CompleteWrite(a: Actor): Actor
    requires a.io.WriteReady? || a.io.WriteFailed?
  {
    if a.io.WriteFailed? then Failed(a.(io := Idle))
    else if a.io.isDuplicate then a.(phase := Recovering, io := LoadSubmitted(true))
    else if a.io.revision != a.revision + 1 then Failed(a.(io := Idle))
    else Finish(a.(revision := a.io.revision, io := Idle), true)
  }

  /** Run a command whose handler, given a copy of the state, returns `effect`. */
  function Process(c: Codec, a: Actor, effect: Effect): Actor
    requires a.state.Some?
  {
    var seen := Copy(c, a.state.value);
    if seen.None? then Failed(a)
    else match effect
      case NoEffect(stop) => if stop then a.(phase := Stopping) else a
      case Persist(state, op, stop) =>
        var encoded := c.encode(state);
        if encoded.None? || c.decode(encoded.value).None? then Failed(a)
        else
          var content := Live(encoded.value.manifest, encoded.value.payload);
          a.(pending := Some(Pending(c.decode(encoded.value).value, stop, op, content)), phase := Persisting,
             io := WriteSubmitted(a.revision, op, content, seen.value))
      case Delete(op, stop) =>
        var candidate := Copy(c, c.empty);
        if candidate.None? then Failed(a)
        else
          a.(pending := Some(Pending(candidate.value, stop, op, Tombstone)), phase := Persisting,
             io := WriteSubmitted(a.revision, op, Tombstone, seen.value))
  }

  // ----- Many actors and one store -----

  /** `log` gives, by change offset, the state the handler that produced the change was given. `acks` are the
      operations reported to their callbacks as done. */
  datatype World = World(db: Db, h: History, log: map<nat, State>,
                         acks: set<(PersistenceId, OperationId, Content)>, actors: map<nat, Actor>)

  datatype Event =
    | Other(tx: Tx)
    | Spawn(id: nat, pid: PersistenceId)
    | ExecLoad(id: nat)
    | ExecWrite(id: nat, slice: nat, reply: bool)
    | FailIo(id: nat)
    | Deliver(id: nat)
    | Command(id: nat, effect: Effect)
    | Crash(id: nat)

  const InitWorld := World(EmptyDb, [], map[], {}, map[])

  ghost predicate Enabled(w: World, ev: Event) {
    match ev
    case Other(tx) => Possible(w.db, tx)
    case Spawn(id, _) => id !in w.actors
    case ExecLoad(id) => id in w.actors && w.actors[id].io.LoadSubmitted?
    case ExecWrite(id, _, _) => id in w.actors && w.actors[id].io.WriteSubmitted?
    case FailIo(id) => id in w.actors && (w.actors[id].io.LoadSubmitted? || w.actors[id].io.WriteSubmitted?)
    case Deliver(id) =>
      && id in w.actors && !w.actors[id].phase.Stopping?
      && !(w.actors[id].io.LoadSubmitted? || w.actors[id].io.WriteSubmitted? || w.actors[id].io.Idle?)
    case Command(id, _) => id in w.actors && w.actors[id].phase.Running? && w.actors[id].state.Some?
    case Crash(id) => id in w.actors
  }

  /** The store runs a submitted write; a write that fails, or whose reply is lost, is reported as an error. */
  function Executing(w: World, id: nat, slice: nat, reply: bool): World
    requires id in w.actors && w.actors[id].io.WriteSubmitted?
  {
    var a := w.actors[id];
    var tx := DoWrite(slice, a.pid, a.io.expected, a.io.op, a.io.content);
    var outcome := Mutate(w.db, slice, a.pid, a.io.expected, a.io.op, a.io.content).1;
    var io := if !reply then WriteFailed
              else match outcome
                case Written(revision) => WriteReady(revision, false)
                case Duplicate(original) => WriteReady(original, true)
                case _ => WriteFailed;
    w.(db := Apply(w.db, tx), h := w.h + Logged(w.db, tx),
       log := if outcome.Written? then w.log[w.db.sequence + 1 := a.io.seen] else w.log,
       actors := w.actors[id := a.(io := io)])
  }

  function Delivered(c: Codec, a: Actor): Actor
    requires !(a.io.LoadSubmitted? || a.io.WriteSubmitted? || a.io.Idle?)
  {
    if a.io.LoadReady? || a.io.LoadFailed? then CompleteRecovery(c, a) else CompleteWrite(a)
  }

  /** A pending effect that is gone after a completion, without a failure, has had its callbacks run. */
  predicate Acknowledges(c: Codec, a: Actor)
    requires !(a.io.LoadSubmitted? || a.io.WriteSubmitted? || a.io.Idle?)
  {
    a.pending.Some? && Delivered(c, a).pending.None?
  }

  ghost function Next(c: Codec, w: World, ev: Event): World
    requires Enabled(w, ev)
  {
    match ev
    case Other(tx) => w.(db := Apply(w.db, tx), h := w.h + Logged(w.db, tx))
    case Spawn(id, pid) => w.(actors := w.actors[id := Born(pid)])
    case ExecLoad(id) =>
      var a := w.actors[id];
      var row := if a.pid in w.db.states then Some(w.db.states[a.pid]) else None;
      w.(actors := w.actors[id := a.(io := LoadReady(row, a.io.duplicate))])
    case ExecWrite(id, slice, reply) => Executing(w, id, slice, reply)
    case FailIo(id) =>
      var a := w.actors[id];
      w.(actors := w.actors[id := a.(io := if a.io.LoadSubmitted? then LoadFailed else WriteFailed)])
    case Deliver(id) =>
      var a := w.actors[id];
      w.(actors := w.actors[id := Delivered(c, a)],
         acks := if Acknowledges(c, a)
                 then w.acks + {(a.pid, a.pending.value.op, a.pending.value.content)} else w.acks)
    case Command(id, effect) => w.(actors := w.actors[id := Process(c, w.actors[id], effect)])
    case Crash(id) => w.(actors := w.actors[id := Failed(w.actors[id])])
  }

  ghost predicate Runs(c: Codec, w0: World, evs: seq<Event>, w: World)
    decreases |evs|
  {
    if evs == [] then w == w0 else Enabled(w0, evs[0]) && Runs(c, Next(c, w0, evs[0]), evs[1..], w)
  }

  // ----- Points of the history -----

  /** The row an identity had at a revision. */
  function RowAt(h: History, pid: PersistenceId, revision: nat): Option<StateRow> {
    if h == [] then None
    else
      var c := h[|h| - 1];
      if c.pid == pid && c.revision == revision then Some(StateRow(c.revision, c.op, c.content))
      else RowAt(h[..|h| - 1], pid, revision)
  }

  /** `s` is the state recovered from what the store held for `pid` at `revision`. */
  ghost predicate Point(c: Codec, h: History, pid: PersistenceId, revision: nat, s: State) {
    && revision <= Count(h, pid)
    && (revision > 0 ==> RowAt(h, pid, revision).Some?)
    && Recovered(c, if revision == 0 then None else RowAt(h, pid, revision)) == Some(s)
  }

  // ----- The invariant -----

  predicate InLedger(db: Db, pid: PersistenceId, op: OperationId, content: Content) {
    (pid, op) in db.ledger && db.ledger[(pid, op)].fingerprint == content
  }

  /** The candidate state of a pending effect is what its content decodes to. */
  ghost predicate Candidate(c: Codec, p: Pending) {
    if p.content.Tombstone? then Copy(c, c.empty) == Some(p.candidate)
    else c.decode(Encoded(p.content.manifest, p.content.payload)) == Some(p.candidate)
  }

  ghost predicate KnowsState(c: Codec, h: History, a: Actor) {
    a.state.Some? && Point(c, h, a.pid, a.revision, a.state.value)
  }

  ghost predicate PersistingInv(c: Codec, db: Db, h: History, a: Actor) {
    && KnowsState(c, h, a) && a.pending.Some? && Candidate(c, a.pending.value)
    && var p := a.pending.value;
       match a.io
       case WriteSubmitted(expected, op, content, _) => expected == a.revision && op == p.op && content == p.content
       case WriteReady(revision, isDuplicate) =>
         && InLedger(db, a.pid, p.op, p.content)
         && (!isDuplicate ==> && revision == a.revision + 1 <= Count(h, a.pid)
                              && RowAt(h, a.pid, revision) == Some(StateRow(revision, p.op, p.content)))
       case WriteFailed => true
       case _ => false
  }

  ghost predicate RecoveringInv(db: Db, h: History, a: Actor) {
    && (a.pending.Some? ==> InLedger(db, a.pid, a.pending.value.op, a.pending.value.content))
    && match a.io
       case LoadSubmitted(duplicate) => duplicate == a.pending.Some?
       case LoadReady(row, duplicate) =>
         && duplicate == a.pending.Some?
         && (row.Some? ==> 0 < row.value.revision <= Count(h, a.pid) && RowAt(h, a.pid, row.value.revision) == row)
       case LoadFailed => true
       case _ => false
  }

  ghost predicate ActorInv(c: Codec, db: Db, h: History, a: Actor) {
    && (a.io.WriteSubmitted? ==> Point(c, h, a.pid, a.io.expected, a.io.seen))
    && match a.phase
       case Recovering => RecoveringInv(db, h, a)
       case Running => KnowsState(c, h, a) && a.pending.None? && a.io.Idle?
       case Persisting => PersistingInv(c, db, h, a)
       case Stopping => true
  }

  /** A logged handler saw the state of the revision before its own. */
  ghost predicate Saw(c: Codec, h: History, offset: nat, s: State) {
    && 1 <= offset <= |h| && h[offset - 1].revision > 0
    && Point(c, h, h[offset - 1].pid, h[offset - 1].revision - 1, s)
  }

  ghost predicate Inv(c: Codec, w: World) {
    && FeedInv(w.db, w.h) && FoldInv(w.db, w.h)
    && (forall id :: id in w.actors ==> ActorInv(c, w.db, w.h, w.actors[id]))
    && (forall offset :: offset in w.log ==> Saw(c, w.h, offset, w.log[offset]))
    && (forall t :: t in w.acks ==> InLedger(w.db, t.0, t.1, t.2))
  }

  // ----- Growth -----

  /** One more committed transaction. */
  ghost predicate Grows(db: Db, h: History, db': Db, h': History) {
    && (h' == h || (|h'| == |h| + 1 && h'[..|h|] == h && h'[|h|].revision == Count(h, h'[|h|].pid) + 1))
    && (forall key :: key in db.ledger ==> key in db'.ledger && db'.ledger[key] == db.ledger[key])
  }

  lemma ApplyGrows(db: Db, h: History, tx: Tx)
    requires FoldInv(db, h)
    ensures Grows(db, h, Apply(db, tx), h + Logged(db, tx))
  {
    if Logged(db, tx) == [] {
      assert h + Logged(db, tx) == h;
    } else {
      WriteEffect(db, tx);
      hide Apply, Logged, Exact, MaxOffset;
      assert Revision(db.states, Logged(db, tx)[0].pid) == Count(h, Logged(db, tx)[0].pid);
    }
  }

  lemma RowAtGrows(db: Db, h: History, db': Db, h': History, pid: PersistenceId, revision: nat)
    requires Grows(db, h, db', h') && revision <= Count(h, pid)
    ensures Count(h, pid) <= Count(h', pid) && RowAt(h', pid, revision) == RowAt(h, pid, revision)
  {
  }

  lemma PointGrows(c: Codec, db: Db, h: History, db': Db, h': History, pid: PersistenceId, revision: nat, s: State)
    requires Grows(db, h, db', h') && Point(c, h, pid, revision, s)
    ensures Point(c, h', pid, revision, s)
  {
    RowAtGrows(db, h, db', h', pid, revision);
    hide Grows, RowAt, Count;
  }

  lemma ActorGrows(c: Codec, db: Db, h: History, db': Db, h': History, a: Actor)
    requires Grows(db, h, db', h') && ActorInv(c, db, h, a)
    ensures ActorInv(c, db', h', a)
  {
    if a.io.WriteSubmitted? { PointGrows(c, db, h, db', h', a.pid, a.io.expected, a.io.seen); }
    if a.phase.Running? || a.phase.Persisting? { PointGrows(c, db, h, db', h', a.pid, a.revision, a.state.value); }
    if a.phase.Persisting? && a.io.WriteReady? && !a.io.isDuplicate {
      RowAtGrows(db, h, db', h', a.pid, a.io.revision);
    }
    if a.io.LoadReady? && a.phase.Recovering? && a.io.row.Some? {
      RowAtGrows(db, h, db', h', a.pid, a.io.row.value.revision);
    }
    hide Point, RowAt, Count, Candidate;
  }

  lemma SawGrows(c: Codec, db: Db, h: History, db': Db, h': History, offset: nat, s: State)
    requires Grows(db, h, db', h') && Saw(c, h, offset, s)
    ensures Saw(c, h', offset, s)
  {
    assert h'[offset - 1] == h[offset - 1];
    PointGrows(c, db, h, db', h', h[offset - 1].pid, h[offset - 1].revision - 1, s);
    hide Point, Count;
  }

  // ----- Steps -----

  lemma {:induction false} StoredRow(h: History, pid: PersistenceId)
    requires Exact(h) && pid in FoldStates(h)
    ensures FoldStates(h)[pid].revision == Count(h, pid) > 0
    ensures RowAt(h, pid, Count(h, pid)) == Some(FoldStates(h)[pid])
  {
    var n := |h| - 1;
    ExactPrefix(h, n);
    if h[n].pid != pid { StoredRow(h[..n], pid); }
  }

  lemma LoadKeepsActor(c: Codec, w: World, ev: Event)
    requires Inv(c, w) && ev.ExecLoad? && Enabled(w, ev)
    ensures ActorInv(c, w.db, w.h, Next(c, w, ev).actors[ev.id])
  {
    var a := w.actors[ev.id];
    assert ActorInv(c, w.db, w.h, a);
    if a.pid in w.db.states { StoredRow(w.h, a.pid); }
    hide Count, RowAt, FoldStates, FoldLedger, Exact, FeedInv;
  }

  lemma DecodedIsCandidate(c: Codec, p: Pending, row: StateRow)
    requires Stable(c) && Candidate(c, p) && row.content == p.content
    ensures Recovered(c, Some(row)) == Some(p.candidate)
  {
  }

  lemma SeenIsState(c: Codec, row: Option<StateRow>)
    requires Stable(c) && Recovered(c, row).Some?
    ensures Copy(c, Recovered(c, row).value) == Recovered(c, row)
  {
  }

  lemma RecoveryKeepsActor(c: Codec, db: Db, h: History, a: Actor)
    requires ActorInv(c, db, h, a) && a.phase.Recovering? && (a.io.LoadReady? || a.io.LoadFailed?)
    ensures ActorInv(c, db, h, CompleteRecovery(c, a))
    ensures Acknowledges(c, a) ==> InLedger(db, a.pid, a.pending.value.op, a.pending.value.content)
  {
    hide Recovered, Copy, Count, RowAt;
  }

  lemma WriteKeepsActor(c: Codec, db: Db, h: History, a: Actor)
    requires Stable(c) && ActorInv(c, db, h, a) && a.phase.Persisting? && (a.io.WriteReady? || a.io.WriteFailed?)
    ensures ActorInv(c, db, h, CompleteWrite(a))
    ensures Acknowledges(c, a) ==> InLedger(db, a.pid, a.pending.value.op, a.pending.value.content)
  {
    if a.io.WriteReady? && !a.io.isDuplicate {
      DecodedIsCandidate(c, a.pending.value, StateRow(a.io.revision, a.pending.value.op, a.pending.value.content));
    }
    hide Recovered, Copy, Count, RowAt, Stable, Candidate;
  }

  lemma CommandKeepsActor(c: Codec, db: Db, h: History, a: Actor, effect: Effect)
    requires Stable(c) && ActorInv(c, db, h, a) && a.phase.Running?
    ensures ActorInv(c, db, h, Process(c, a, effect))
  {
    SeenIsState(c, if a.revision == 0 then None else RowAt(h, a.pid, a.revision));
    hide Recovered, Count, RowAt, Stable;
  }

  /** A write the store has just executed. */
  lemma ExecutedKeepsActor(c: Codec, w: World, id: nat, slice: nat, reply: bool)
    requires Inv(c, w) && id in w.actors && w.actors[id].io.WriteSubmitted?
    requires ActorInv(c, Executing(w, id, slice, reply).db, Executing(w, id, slice, reply).h, w.actors[id])
    ensures var w' := Executing(w, id, slice, reply);
            ActorInv(c, w'.db, w'.h, w'.actors[id])
  {
    hide FeedInv, FoldInv, MaxOffset, FoldStates, FoldLedger, Exact, Recovered, Candidate;
  }

  lemma ExecutedLog(c: Codec, w: World, id: nat, slice: nat, reply: bool)
    requires Inv(c, w) && id in w.actors && w.actors[id].io.WriteSubmitted?
    ensures var w' := Executing(w, id, slice, reply);
            forall offset :: offset in w'.log ==>
              (offset in w.log && w'.log[offset] == w.log[offset]) || Saw(c, w'.h, offset, w'.log[offset])
  {
    hide MaxOffset, FoldStates, FoldLedger, Exact, Recovered, Candidate;
  }

  /** A store transaction leaves every actor, every logged command and every acknowledgement intact. */
  lemma GrowthKeepsInv(c: Codec, w: World, tx: Tx)
    requires Inv(c, w) && Possible(w.db, tx)
    ensures Inv(c, w.(db := Apply(w.db, tx), h := w.h + Logged(w.db, tx)))
  {
    hide FeedInv, FoldInv, Apply, Logged, ActorInv, Saw, Possible;
    var db', h' := Apply(w.db, tx), w.h + Logged(w.db, tx);
    ApplyKeepsFeed(w.db, w.h, tx);
    ApplyKeepsFold(w.db, w.h, tx);
    ApplyGrows(w.db, w.h, tx);
    forall id | id in w.actors ensures ActorInv(c, db', h', w.actors[id]) {
      ActorGrows(c, w.db, w.h, db', h', w.actors[id]);
    }
    forall offset | offset in w.log ensures Saw(c, h', offset, w.log[offset]) {
      SawGrows(c, w.db, w.h, db', h', offset, w.log[offset]);
    }
  }

  lemma ExecWriteKeepsInv(c: Codec, w: World, ev: Event)
    requires Inv(c, w) && ev.ExecWrite? && Enabled(w, ev)
    ensures Inv(c, Next(c, w, ev))
  {
    hide FeedInv, FoldInv, Apply, Logged, ActorInv, Saw, Mutate;
    var a := w.actors[ev.id];
    GrowthKeepsInv(c, w, DoWrite(ev.slice, a.pid, a.io.expected, a.io.op, a.io.content));
    ExecutedKeepsActor(c, w, ev.id, ev.slice, ev.reply);
    ExecutedLog(c, w, ev.id, ev.slice, ev.reply);
  }

  /** Steps that change only one actor. */
  lemma ActorStepKeepsInv(c: Codec, w: World, id: nat, a: Actor, acks: set<(PersistenceId, OperationId, Content)>)
    requires Inv(c, w) && ActorInv(c, w.db, w.h, a)
    requires forall t :: t in acks ==> InLedger(w.db, t.0, t.1, t.2)
    ensures Inv(c, w.(actors := w.actors[id := a], acks := acks))
  {
    hide FeedInv, FoldInv, ActorInv, Saw;
  }

  lemma FailedIoKeepsActor(c: Codec, db: Db, h: History, a: Actor)
    requires ActorInv(c, db, h, a) && (a.io.LoadSubmitted? || a.io.WriteSubmitted?)
    ensures ActorInv(c, db, h, a.(io := if a.io.LoadSubmitted? then LoadFailed else WriteFailed))
  {
    hide Point, Candidate;
  }

  lemma StoppedActor(c: Codec, db: Db, h: History, a: Actor)
    requires ActorInv(c, db, h, a)
    ensures ActorInv(c, db, h, Failed(a))
  {
  }

  lemma DeliverKeepsActor(c: Codec, db: Db, h: History, a: Actor)
    requires Stable(c) && ActorInv(c, db, h, a) && !a.phase.Stopping?
    requires !(a.io.LoadSubmitted? || a.io.WriteSubmitted? || a.io.Idle?)
    ensures ActorInv(c, db, h, Delivered(c, a))
    ensures Acknowledges(c, a) ==> InLedger(db, a.pid, a.pending.value.op, a.pending.value.content)
  {
    hide Acknowledges, CompleteRecovery, CompleteWrite, Point, Candidate;
    if a.phase.Recovering? { RecoveryKeepsActor(c, db, h, a); } else { WriteKeepsActor(c, db, h, a); }
  }

  lemma StepKeepsInv(c: Codec, w: World, ev: Event)
    requires Stable(c) && Inv(c, w) && Enabled(w, ev)
    ensures Inv(c, Next(c, w, ev))
  {
    hide FeedInv, FoldInv, Saw, ActorInv, Delivered, Acknowledges, Process, Stable;
    match ev {
      case Other(tx) => GrowthKeepsInv(c, w, tx);
      case Spawn(id, pid) =>
        BornActor(c, w.db, w.h, pid);
        ActorStepKeepsInv(c, w, id, Born(pid), w.acks);
      case ExecLoad(id) =>
        LoadKeepsActor(c, w, ev);
        ActorStepKeepsInv(c, w, id, Next(c, w, ev).actors[id], w.acks);
      case ExecWrite(_, _, _) => ExecWriteKeepsInv(c, w, ev);
      case FailIo(id) =>
        FailedIoKeepsActor(c, w.db, w.h, w.actors[id]);
        ActorStepKeepsInv(c, w, id, Next(c, w, ev).actors[id], w.acks);
      case Deliver(id) =>
        DeliverKeepsActor(c, w.db, w.h, w.actors[id]);
        ActorStepKeepsInv(c, w, id, Next(c, w, ev).actors[id], Next(c, w, ev).acks);
      case Command(id, effect) =>
        CommandKeepsActor(c, w.db, w.h, w.actors[id], effect);
        ActorStepKeepsInv(c, w, id, Next(c, w, ev).actors[id], w.acks);
      case Crash(id) =>
        StoppedActor(c, w.db, w.h, w.actors[id]);
        ActorStepKeepsInv(c, w, id, Next(c, w, ev).actors[id], w.acks);
    }
  }

  lemma BornActor(c: Codec, db: Db, h: History, pid: PersistenceId)
    ensures ActorInv(c, db, h, Born(pid))
  {
  }

  lemma {:induction false} RunsKeepInv(c: Codec, w0: World, evs: seq<Event>, w: World)
    requires Stable(c) && Inv(c, w0) && Runs(c, w0, evs, w)
    ensures Inv(c, w)
    decreases |evs|
  {
    hide Inv, Next, Stable;
    if evs != [] {
      StepKeepsInv(c, w0, evs[0]);
      RunsKeepInv(c, Next(c, w0, evs[0]), evs[1..], w);
    }
  }

  // ----- The theorems -----

  /** A running actor's state and revision are a point of the store's history, through duplicates and restarts. */
  lemma RunningIsAPoint(c: Codec, evs: seq<Event>, w: World, id: nat)
    requires Stable(c) && Runs(c, InitWorld, evs, w) && id in w.actors && w.actors[id].phase.Running?
    ensures var a := w.actors[id];
            a.state.Some? && Point(c, w.h, a.pid, a.revision, a.state.value)
  {
    RunsKeepInv(c, InitWorld, evs, w);
    assert ActorInv(c, w.db, w.h, w.actors[id]);
  }

  /** No lost update: the handler that produced a change was given the state of the revision just before it. */
  lemma NoLostUpdate(c: Codec, evs: seq<Event>, w: World, offset: nat)
    requires Stable(c) && Runs(c, InitWorld, evs, w) && offset in w.log
    ensures 1 <= offset <= |w.h| && w.h[offset - 1].revision >= 1
    ensures var change := w.h[offset - 1];
            Point(c, w.h, change.pid, change.revision - 1, w.log[offset])
  {
    RunsKeepInv(c, InitWorld, evs, w);
    assert Saw(c, w.h, offset, w.log[offset]);
  }

  ghost predicate AllLogged(w: World) {
    forall offset :: 1 <= offset <= |w.h| ==> offset in w.log
  }

  lemma {:induction false} ActorWritesAreLogged(c: Codec, w0: World, evs: seq<Event>, w: World)
    requires Stable(c) && Inv(c, w0) && AllLogged(w0) && Runs(c, w0, evs, w)
    requires forall k :: 0 <= k < |evs| ==> evs[k].Other? ==> !evs[k].tx.DoWrite?
    ensures AllLogged(w)
    decreases |evs|
  {
    hide FoldInv, ActorInv, Saw, MaxOffset, CompactTo, Stable, Delivered, Process, Acknowledges;
    if evs != [] {
      StepKeepsInv(c, w0, evs[0]);
      hide Inv;
      ActorWritesAreLogged(c, Next(c, w0, evs[0]), evs[1..], w);
    }
  }

  /** With only actors writing, every handler of a committed change saw the state of the revision before it. */
  lemma EveryUpdateSawThePrevious(c: Codec, evs: seq<Event>, w: World, offset: nat)
    requires Stable(c) && Runs(c, InitWorld, evs, w) && 1 <= offset <= |w.h|
    requires forall k :: 0 <= k < |evs| ==> evs[k].Other? ==> !evs[k].tx.DoWrite?
    ensures offset in w.log && w.h[offset - 1].revision >= 1
    ensures Point(c, w.h, w.h[offset - 1].pid, w.h[offset - 1].revision - 1, w.log[offset])
  {
    ActorWritesAreLogged(c, InitWorld, evs, w);
    NoLostUpdate(c, evs, w, offset);
  }

  /** Callbacks run only for operations the store holds, whatever became of the actors since. */
  lemma AcknowledgedIsDurable(c: Codec, evs: seq<Event>, w: World, t: (PersistenceId, OperationId, Content))
    requires Stable(c) && Runs(c, InitWorld, evs, w) && t in w.acks
    ensures exists k :: 0 <= k < |w.h| && w.h[k].pid == t.0 && w.h[k].op == t.1 && w.h[k].content == t.2
  {
    RunsKeepInv(c, InitWorld, evs, w);
    assert InLedger(w.db, t.0, t.1, t.2);
    LedgerHasOnly(w.h, (t.0, t.1));
    var k :| 0 <= k < |w.h| && (t.0, t.1) == (w.h[k].pid, w.h[k].op);
    LedgerHasEach(w.h, k);
  }

  /** What the store returned never trips the revision check of a completed write. */
  lemma RevisionCheckNeverFails(c: Codec, evs: seq<Event>, w: World, id: nat)
    requires Stable(c) && Runs(c, InitWorld, evs, w) && id in w.actors && w.actors[id].phase.Persisting?
    requires w.actors[id].io.WriteReady? && !w.actors[id].io.isDuplicate
    ensures w.actors[id].io.revision == w.actors[id].revision + 1 && w.actors[id].pending.Some?
  {
    RunsKeepInv(c, InitWorld, evs, w);
    assert ActorInv(c, w.db, w.h, w.actors[id]);
  }

  // ----- The behavior object -----

  class DurableStateBehavior {
    const codec: Codec
    const pid: PersistenceId
    var phase: Phase
    var revision: nat
    var state: Option<State>
    var pending: Option<Pending>
    var io: Io

    ghost function View(): Actor
      reads this
    {
      Actor(pid, phase, revision, state, pending, io)
    }

    constructor (pid: PersistenceId, codec: Codec)
      ensures View() == Born(pid) && this.codec == codec
    {
      this.pid, this.codec := pid, codec;
      phase, revision, state, pending, io := Recovering, 0, None, None, LoadSubmitted(false);
    }

    method BeginRecovery(duplicate: bool)
      modifies this
      ensures View() == old(View()).(phase := Recovering, io := LoadSubmitted(duplicate))
    {
      phase := Recovering;
      io := LoadSubmitted(duplicate);
    }

    method FinishPendingEffect(apply: bool)
      modifies this
      ensures View() == Finish(old(View()), apply)
    {
      if pending.None? { phase := Stopping; return; }
      var p := pending.value;
      pending := None;
      if apply { state := Some(p.candidate); }
      phase := Running;
      if p.stop { phase := Stopping; }
    }

    method FinishRecovery()
      requires io.LoadReady? || io.LoadFailed?
      modifies this
      ensures View() == CompleteRecovery(codec, old(View()))
    {
      var completion := io;
      io := Idle;
      if completion.LoadFailed? { phase := Stopping; return; }
      var loaded := 0;
      var recovered: Option<State>;
      if completion.row.None? {
        recovered := Copy(codec, codec.empty);
      } else {
        var row := completion.row.value;
        loaded := row.revision;
        if row.content.Tombstone? {
          recovered := Copy(codec, codec.empty);
        } else {
          var decoded := codec.decode(Encoded(row.content.manifest, row.content.payload));
          if decoded.None? { phase := Stopping; return; }
          recovered := Copy(codec, decoded.value);
        }
      }
      if recovered.None? { phase := Stopping; return; }
      state, revision := recovered, loaded;
      if Copy(codec, recovered.value).None? { phase := Stopping; return; }
      if completion.duplicate { FinishPendingEffect(false); } else { phase := Running; }
    }

    method FinishWrite()
      requires io.WriteReady? || io.WriteFailed?
      modifies this
      ensures View() == CompleteWrite(old(View()))
    {
      var completion := io;
      io := Idle;
      if completion.WriteFailed? { phase := Stopping; return; }
      if completion.isDuplicate { BeginRecovery(true); return; }
      if completion.revision != revision + 1 { phase := Stopping; return; }
      revision := completion.revision;
      FinishPendingEffect(true);
    }

    method ProcessCommand(effect: Effect)
      requires state.Some?
      modifies this
      ensures View() == Process(codec, old(View()), effect)
    {
      var seen := Copy(codec, state.value);
      if seen.None? { phase := Stopping; return; }
      if effect.NoEffect? {
        if effect.stop { phase := Stopping; }
        return;
      }
      var candidate: Option<State>;
      var content := Tombstone;
      if effect.Persist? {
        var encoded := codec.encode(effect.state);
        if encoded.None? { phase := Stopping; return; }
        candidate := codec.decode(encoded.value);
        content := Live(encoded.value.manifest, encoded.value.payload);
      } else {
        candidate := Copy(codec, codec.empty);
      }
      if candidate.None? { phase := Stopping; return; }
      pending := Some(Pending(candidate.value, effect.stop, effect.op, content));
      phase := Persisting;
      io := WriteSubmitted(revision, effect.op, content, seen.value);
    }
  }
}
