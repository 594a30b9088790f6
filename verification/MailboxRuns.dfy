/** Any number of sending threads and activations over one mailbox, interleaved between critical sections. */
module MailboxRuns {
  import opened Basics
  import opened Mailbox

  /** A thread that has queued a message and has yet to get an activation published. `fallback` is the second
      attempt, through the path of lifecycle messages. */
  datatype Sender = Sender(id: nat, user: bool, fallback: bool)

  /** Where a running activation is between two critical sections. */
  datatype Pc =
    | Scan
    | Invoke(ids: seq<nat>, system: bool)
    | Restoring(ids: seq<nat>, system: bool, failed: bool)
    | Rescan
    | Publish
    | Published
    | Recover
    | RecoverPublish
    | Tail

  /** What became of a message taken out of the queue for good: it reached the actor, or was dropped. */
  datatype Fate = Fate(id: nat, processed: bool)

  /** `can` says whether the actor takes user messages; `queued` counts the activations the dispatcher holds. The
      rest is history: the user messages admitted and not taken back, what became of those taken, what was handed
      back when user messages were stopped, and the stamps used. */
  datatype World =
    World(box: Box, can: bool, queued: nat, senders: map<nat, Sender>, runners: map<nat, Pc>,
          admitted: seq<nat>, consumed: seq<Fate>, drained: seq<nat>, used: set<nat>)

  datatype Event =
    | Send(t: nat, id: nat, user: bool)
    | Publishes(t: nat)
    | Rejects(t: nat)
    | Arrives(r: nat)
    | Scans(r: nat)
    | Finishes(r: nat, count: nat, dropRest: bool, failed: bool)
    | Blows(r: nat)
    | Restores(r: nat)
    | Rescans(r: nat)
    | RunnerPublishes(r: nat)
    | RunnerRejected(r: nat, runtime: bool)
    | Consumes(r: nat)
    | Recovers(r: nat)
    | RecoverPublishes(r: nat)
    | Leaves(r: nat)
    | Suspends
    | Resumes
    | Closes
    | Stops

  const InitWorld := World(FreshBox, false, 0, map[], map[], [], [], [], {})

  predicate At(w: World, r: nat, pc: Pc) {
    r in w.runners && w.runners[r] == pc
  }

  predicate InBatch(w: World, r: nat) {
    r in w.runners && w.runners[r].Invoke?
  }

  ghost predicate Enabled(w: World, ev: Event) {
    match ev
    case Send(t, id, _) => t !in w.senders && id !in w.used
    case Publishes(t) => t in w.senders
    case Rejects(t) => t in w.senders && !w.senders[t].fallback
    case Arrives(r) => w.queued > 0 && r !in w.runners
    case Scans(r) => At(w, r, Scan)
    case Finishes(r, count, dropRest, failed) =>
      InBatch(w, r) && count <= |w.runners[r].ids| && (failed ==> count > 0 && !dropRest)
    case Blows(r) => InBatch(w, r)
    case Restores(r) => r in w.runners && w.runners[r].Restoring?
    case Rescans(r) => At(w, r, Rescan)
    case RunnerPublishes(r) => At(w, r, Publish)
    case RunnerRejected(r, _) => At(w, r, Publish)
    case Consumes(r) => At(w, r, Published)
    case Recovers(r) => At(w, r, Recover)
    case RecoverPublishes(r) => At(w, r, RecoverPublish)
    case Leaves(r) => At(w, r, Tail)
    case Suspends => true
    case Resumes => exists r :: InBatch(w, r)
    case Closes => true
    case Stops => true
  }

  function RemoveId(ids: seq<nat>, id: nat): seq<nat> {
    if ids == [] then [] else if ids[0] == id then ids[1..] else [ids[0]] + RemoveId(ids[1..], id)
  }

  function Fates(ids: seq<nat>, count: nat): (r: seq<Fate>)
    ensures |r| == |ids| && forall k :: 0 <= k < |ids| ==> r[k] == Fate(ids[k], k < count)
  {
    seq(|ids|, k requires 0 <= k < |ids| => Fate(ids[k], k < count))
  }

  function Sending(cfg: Config, w: World, t: nat, id: nat, user: bool): World {
    var (b, admission) := Enqueue(cfg, w.box, w.can, id, user);
    var accepted := admission.Queued? || admission.MustPublish?;
    w.(box := b, used := w.used + {id},
       admitted := if accepted && user then w.admitted + [id] else w.admitted,
       senders := if admission.MustPublish? then w.senders[t := Sender(id, user, false)] else w.senders)
  }

  function Rejecting(w: World, t: nat): World
    requires t in w.senders
  {
    var s := w.senders[t];
    var (b, fallback) := Rollback(w.box, s.id, s.user);
    w.(box := b, senders := if fallback then w.senders[t := s.(fallback := true)] else w.senders - {t},
       admitted := if s.user && Item(s.id, true) in w.box.user then RemoveId(w.admitted, s.id) else w.admitted)
  }

  function Scanning(cfg: Config, w: World, r: nat): World {
    var (b, batch) := Take(cfg, w.box, w.can);
    w.(box := b, runners := w.runners[r := if batch.Nothing? then Tail else Invoke(batch.ids, batch.system)])
  }

  /** The actor has dealt with the first `count` messages of its batch and gives the rest back, or drops it. */
  function Finishing(w: World, r: nat, count: nat, dropRest: bool, failed: bool): World
    requires InBatch(w, r) && count <= |w.runners[r].ids|
  {
    var pc := w.runners[r];
    var gone := if dropRest then pc.ids else pc.ids[..count];
    w.(consumed := if pc.system then w.consumed else w.consumed + Fates(gone, count),
       runners := w.runners[r := Restoring(if dropRest then [] else pc.ids[count..], pc.system, failed)])
  }

  function Blowing(w: World, r: nat): World
    requires InBatch(w, r)
  {
    var pc := w.runners[r];
    w.(box := Forget(w.box), runners := w.runners[r := Recover],
       consumed := if pc.system then w.consumed else w.consumed + Fates(pc.ids, 0))
  }

  function Next(cfg: Config, w: World, ev: Event): World
    requires ev.Publishes? || ev.Rejects? ==> ev.t in w.senders
    requires ev.Arrives? ==> w.queued > 0
    requires ev.Finishes? ==> InBatch(w, ev.r) && ev.count <= |w.runners[ev.r].ids|
    requires ev.Blows? ==> InBatch(w, ev.r)
    requires ev.Restores? ==> ev.r in w.runners && w.runners[ev.r].Restoring?
  {
    match ev
    case Send(t, id, user) => Sending(cfg, w, t, id, user)
    case Publishes(t) => w.(queued := w.queued + 1, senders := w.senders - {t})
    case Rejects(t) => Rejecting(w, t)
    case Arrives(r) =>
      var (b, entered) := EnterRun(w.box);
      w.(box := b, queued := w.queued - 1, runners := if entered then w.runners[r := Scan] else w.runners)
    case Scans(r) => Scanning(cfg, w, r)
    case Finishes(r, count, dropRest, failed) => Finishing(w, r, count, dropRest, failed)
    case Blows(r) => Blowing(w, r)
    case Restores(r) =>
      var pc := w.runners[r];
      w.(box := Restore(w.box, pc.ids, pc.system), runners := w.runners[r := if pc.failed then Recover else Rescan])
    case Rescans(r) =>
      var (b, go) := Recheck(w.box, w.can);
      w.(box := b, runners := w.runners[r := if go then Publish else Tail])
    case RunnerPublishes(r) => w.(queued := w.queued + 1, runners := w.runners[r := Published])
    case RunnerRejected(r, runtime) =>
      if runtime then w.(runners := w.runners[r := Scan])
      else w.(box := Forget(w.box), runners := w.runners[r := Recover])
    case Consumes(r) =>
      var (b, ran) := Consume(w.box);
      w.(box := b, runners := w.runners[r := if ran then Scan else Tail])
    case Recovers(r) =>
      var (b, go) := Recheck(w.box, w.can);
      w.(box := b, runners := w.runners[r := if go then RecoverPublish else Tail])
    case RecoverPublishes(r) => w.(queued := w.queued + 1, runners := w.runners[r := Tail])
    case Leaves(r) =>
      var (b, again) := LeaveRun(w.box);
      w.(box := b, runners := if again then w.runners[r := Scan] else w.runners - {r})
    case Suspends => w.(can := false)
    case Resumes => w.(can := true)
    case Closes => w.(box := Close(w.box))
    case Stops =>
      var (b, ids) := StopUser(w.box);
      w.(box := b, drained := ids + w.drained)
  }

  ghost predicate Runs(cfg: Config, w0: World, evs: seq<Event>, w: World)
    decreases |evs|
  {
    if evs == [] then w == w0 else Enabled(w0, evs[0]) && Runs(cfg, Next(cfg, w0, evs[0]), evs[1..], w)
  }

  // ----- What every step keeps -----

  /** Only one activation runs, and the flag says so. */
  ghost predicate Mutex(w: World) {
    && (forall r, s :: r in w.runners && s in w.runners ==> r == s)
    && (w.box.running <==> w.runners != map[])
    && (w.box.inlineRun ==> w.box.running)
  }

  /** The user messages an activation has taken out of the queue. */
  function Hand(pc: Pc): seq<nat> {
    if (pc.Invoke? || pc.Restoring?) && !pc.system then pc.ids else []
  }

  predicate Holds(box: Box, pc: Pc) {
    if box.closed then true
    else if pc.Invoke? && !pc.system then box.inFlight == |pc.ids|
    else if pc.Restoring? && !pc.system then |pc.ids| <= box.inFlight
    else box.inFlight == 0
  }

  predicate Bounded(cfg: Config, box: Box) {
    && |box.user| + box.inFlight <= cfg.capacity
    && (box.closed ==> box.user == [] && box.system == [])
  }

  /** Messages are handed back only when no more are accepted. */
  predicate Drains(w: World) {
    w.box.accepting ==> w.drained == []
  }

  function FateIds(fates: seq<Fate>): (r: seq<nat>)
    ensures |r| == |fates| && forall k :: 0 <= k < |fates| ==> r[k] == fates[k].id
  {
    seq(|fates|, k requires 0 <= k < |fates| => fates[k].id)
  }

  /** No message is lost, repeated or overtaken: what was consumed, what is in hand, what is queued and what was
      handed back make up, in this order, what was admitted. */
  predicate Conserved(w: World, hand: seq<nat>) {
    if w.box.closed then FateIds(w.consumed) + hand <= w.admitted
    else w.admitted == FateIds(w.consumed) + hand + Ids(w.box.user) + w.drained
  }

  predicate Distinct(ids: seq<nat>) {
    forall i, j :: 0 <= i < j < |ids| ==> ids[i] != ids[j]
  }

  predicate KnownIds(w: World) {
    Distinct(w.admitted) && forall k :: 0 <= k < |w.admitted| ==> w.admitted[k] in w.used
  }

  ghost predicate Safe(cfg: Config, w: World) {
    && Mutex(w) && Bounded(cfg, w.box) && KnownIds(w) && Drains(w)
    && (w.runners == map[] ==> Holds(w.box, Tail) && Conserved(w, []))
    && (forall r :: r in w.runners ==> Holds(w.box, w.runners[r]) && Conserved(w, Hand(w.runners[r])))
  }

  /** The state with a single runner replaced. */
  lemma RunnerStep(cfg: Config, w: World, v: World, r: nat, pc: Pc)
    requires Safe(cfg, w) && r in w.runners && v.runners == w.runners[r := pc]
    requires v.box.running == w.box.running && (v.box.inlineRun ==> w.box.running)
    requires Bounded(cfg, v.box) && KnownIds(v) && Drains(v) && Holds(v.box, pc) && Conserved(v, Hand(pc))
    ensures Safe(cfg, v)
  {
    hide Bounded, KnownIds, Holds, Conserved;
    assert r in v.runners;
  }

  /** The same message queue and history around a runner that holds nothing. */
  predicate SameQueue(w: World, v: World) {
    && v.box.user == w.box.user && v.box.closed == w.box.closed && v.box.accepting == w.box.accepting
    && (w.box.closed ==> v.box.system == w.box.system)
    && v.admitted == w.admitted && v.consumed == w.consumed && v.drained == w.drained && v.used == w.used
  }

  lemma QueueKept(cfg: Config, w: World, v: World)
    requires Bounded(cfg, w.box) && KnownIds(w) && Drains(w) && SameQueue(w, v) && v.box.inFlight <= w.box.inFlight
    ensures Bounded(cfg, v.box) && KnownIds(v) && Drains(v)
  {
  }

  lemma ConservedKept(w: World, v: World, hand: seq<nat>)
    requires SameQueue(w, v) && Conserved(w, hand)
    ensures Conserved(v, hand)
  {
  }

  lemma SendKeeps(cfg: Config, w: World, ev: Event)
    requires Safe(cfg, w) && ev.Send? && Enabled(w, ev)
    ensures Safe(cfg, Next(cfg, w, ev))
  {
    var v := Next(cfg, w, ev);
    AppendKeeps(cfg, w, ev.t, ev.id, ev.user);
    hide Sending, Bounded, KnownIds, Conserved, Holds, Drains;
  }

  lemma AppendKeeps(cfg: Config, w: World, t: nat, id: nat, user: bool)
    requires Bounded(cfg, w.box) && KnownIds(w) && Drains(w) && id !in w.used
    ensures var v := Sending(cfg, w, t, id, user);
            && v.runners == w.runners && v.box.running == w.box.running && v.box.inlineRun == w.box.inlineRun
            && Bounded(cfg, v.box) && KnownIds(v)
            && (forall pc :: Holds(w.box, pc) ==> Holds(v.box, pc))
            && Drains(v) && (forall hand :: Conserved(w, hand) ==> Conserved(v, hand))
  {
  }

  // ----- A rejected request takes its message back -----

  lemma {:induction false} RemoveIds(items: seq<Item>, id: nat)
    requires Item(id, true) in items && Distinct(Ids(items))
    ensures Ids(Remove(items, id)) == RemoveId(Ids(items), id) && |Remove(items, id)| == |items| - 1
  {
    assert Ids(items)[1..] == Ids(items[1..]);
    if items[0] != Item(id, true) {
      var k :| 0 <= k < |items| && items[k] == Item(id, true);
      assert items[1..][k - 1] == Item(id, true) && Ids(items)[0] != Ids(items)[k];
      assert Distinct(Ids(items)[1..]);
      RemoveIds(items[1..], id);
      assert Ids([items[0]] + Remove(items[1..], id)) == [items[0].id] + Ids(Remove(items[1..], id));
    } else {
      assert Ids(items)[0] == id;
    }
  }

  lemma {:induction false} RemoveInside(a: seq<nat>, b: seq<nat>, c: seq<nat>, id: nat)
    requires id !in a && id in b
    ensures RemoveId(a + b + c, id) == a + RemoveId(b, id) + c
  {
    if a != [] {
      assert (a + b + c)[1..] == a[1..] + b + c;
      RemoveInside(a[1..], b, c, id);
    } else {
      assert a + b + c == b + c;
      RemoveFront(b, c, id);
    }
  }

  lemma {:induction false} RemoveFront(b: seq<nat>, c: seq<nat>, id: nat)
    requires id in b
    ensures RemoveId(b + c, id) == RemoveId(b, id) + c
  {
    assert (b + c)[1..] == b[1..] + c;
    if b[0] != id { RemoveFront(b[1..], c, id); }
  }

  lemma {:induction false} RemoveKeepsDistinct(ids: seq<nat>, id: nat)
    requires Distinct(ids)
    ensures Distinct(RemoveId(ids, id)) && forall k :: 0 <= k < |RemoveId(ids, id)| ==> RemoveId(ids, id)[k] in ids
  {
    if ids != [] && ids[0] != id {
      var rest := RemoveId(ids[1..], id);
      RemoveKeepsDistinct(ids[1..], id);
      forall k | 0 <= k < |rest| ensures rest[k] in ids && rest[k] != ids[0] {
        var j :| 0 <= j < |ids[1..]| && ids[1..][j] == rest[k];
        assert ids[j + 1] == rest[k];
      }
      assert RemoveId(ids, id) == [ids[0]] + rest;
    }
  }

  lemma DistinctParts(a: seq<nat>, b: seq<nat>, c: seq<nat>, id: nat)
    requires Distinct(a + b + c) && id in b
    ensures Distinct(b) && id !in a
  {
    var k :| 0 <= k < |b| && b[k] == id;
    assert (a + b + c)[|a| + k] == id;
    forall i, j | 0 <= i < j < |b| ensures b[i] != b[j] {
      assert (a + b + c)[|a| + i] == b[i] && (a + b + c)[|a| + j] == b[j];
    }
    forall i | 0 <= i < |a| ensures a[i] != id {
      assert (a + b + c)[i] == a[i];
    }
  }

  lemma TakenBack(w: World, id: nat, hand: seq<nat>)
    requires !w.box.closed && Conserved(w, hand) && Distinct(w.admitted) && Item(id, true) in w.box.user
    ensures RemoveId(w.admitted, id) == FateIds(w.consumed) + hand + Ids(Remove(w.box.user, id)) + w.drained
    ensures |Remove(w.box.user, id)| == |w.box.user| - 1
  {
    var a, b := FateIds(w.consumed) + hand, Ids(w.box.user);
    var k :| 0 <= k < |w.box.user| && w.box.user[k] == Item(id, true);
    assert b[k] == id;
    DistinctParts(a, b, w.drained, id);
    RemoveInside(a, b, w.drained, id);
    RemoveIds(w.box.user, id);
  }

  lemma RemoveKnown(w: World, id: nat)
    requires KnownIds(w)
    ensures KnownIds(w.(admitted := RemoveId(w.admitted, id)))
  {
    RemoveKeepsDistinct(w.admitted, id);
  }

  lemma RejectKeepsRest(cfg: Config, w: World, t: nat)
    requires Bounded(cfg, w.box) && KnownIds(w) && Drains(w) && t in w.senders
    requires exists hand :: Conserved(w, hand)
    ensures var v := Rejecting(w, t);
            && Bounded(cfg, v.box) && KnownIds(v) && Drains(v) && v.runners == w.runners
            && v.box.running == w.box.running && v.box.inlineRun == w.box.inlineRun
            && (forall pc :: Holds(w.box, pc) ==> Holds(v.box, pc))
            && (forall hand :: Conserved(w, hand) ==> Conserved(v, hand))
  {
    var v, s := Rejecting(w, t), w.senders[t];
    if s.user && Item(s.id, true) in w.box.user {
      hide RemoveId, Remove, FateIds, Ids;
      var some :| Conserved(w, some);
      TakenBack(w, s.id, some);
      RemoveKnown(w, s.id);
      forall hand | Conserved(w, hand) ensures Conserved(v, hand) { TakenBack(w, s.id, hand); }
      hide Conserved;
    }
  }

  lemma RejectKeeps(cfg: Config, w: World, ev: Event)
    requires Safe(cfg, w) && ev.Rejects? && Enabled(w, ev)
    ensures Safe(cfg, Next(cfg, w, ev))
  {
    if r :| r in w.runners { assert Conserved(w, Hand(w.runners[r])); } else { assert Conserved(w, []); }
    RejectKeepsRest(cfg, w, ev.t);
    hide Rejecting, Bounded, KnownIds, Drains, Holds, Conserved, Hand;
  }

  // ----- Activations -----

  lemma ArriveKeeps(cfg: Config, w: World, ev: Event)
    requires Safe(cfg, w) && ev.Arrives? && Enabled(w, ev)
    ensures Safe(cfg, Next(cfg, w, ev))
  {
    var v := Next(cfg, w, ev);
    QueueKept(cfg, w, v);
    hide Bounded, KnownIds, Drains;
  }

  lemma TakeConserves(w: World, n: nat)
    requires !w.box.closed && Conserved(w, []) && n <= |w.box.user|
    ensures w.admitted == FateIds(w.consumed) + Ids(w.box.user[..n]) + Ids(w.box.user[n..]) + w.drained
  {
    assert Ids(w.box.user) == Ids(w.box.user[..n]) + Ids(w.box.user[n..]);
    hide Ids, FateIds;
    assert FateIds(w.consumed) + [] == FateIds(w.consumed);
    assert FateIds(w.consumed) + Ids(w.box.user) == FateIds(w.consumed) + Ids(w.box.user[..n]) + Ids(w.box.user[n..]);
  }

  lemma TakeSplits(cfg: Config, w: World, r: nat)
    requires cfg.Valid() && Bounded(cfg, w.box) && Holds(w.box, Scan) && Conserved(w, [])
    ensures var v := Scanning(cfg, w, r);
            && r in v.runners && Bounded(cfg, v.box) && Holds(v.box, v.runners[r]) && Conserved(v, Hand(v.runners[r]))
            && v.box.running == w.box.running && v.box.inlineRun == w.box.inlineRun
            && v.box.accepting == w.box.accepting && v.box.closed == w.box.closed
  {
    hide FateIds;
    if HasWork(w.box, w.can) && w.box.system == [] {
      TakeConserves(w, Min(cfg.throughput, |w.box.user|));
    }
  }

  lemma ScanKeeps(cfg: Config, w: World, ev: Event)
    requires cfg.Valid() && Safe(cfg, w) && ev.Scans? && Enabled(w, ev)
    ensures Safe(cfg, Next(cfg, w, ev))
  {
    TakeSplits(cfg, w, ev.r);
    var v := Next(cfg, w, ev);
    RunnerStep(cfg, w, v, ev.r, v.runners[ev.r]);
  }

  lemma FatesSplit(fates: seq<Fate>, ids: seq<nat>, count: nat)
    ensures FateIds(fates + Fates(ids, count)) == FateIds(fates) + ids
  {
  }

  lemma FinishConserves(w: World, r: nat, count: nat, dropRest: bool, failed: bool)
    requires InBatch(w, r) && count <= |w.runners[r].ids| && Conserved(w, Hand(w.runners[r]))
    ensures var v := Finishing(w, r, count, dropRest, failed); Conserved(v, Hand(v.runners[r]))
  {
    var ids := w.runners[r].ids;
    var gone, rest := if dropRest then ids else ids[..count], if dropRest then [] else ids[count..];
    FatesSplit(w.consumed, gone, count);
    hide FateIds, Fates, Ids;
    if !w.runners[r].system {
      assert ids == gone + rest;
      assert FateIds(w.consumed) + ids == FateIds(w.consumed + Fates(gone, count)) + rest;
    }
  }

  lemma BlowConserves(w: World, r: nat)
    requires InBatch(w, r) && Conserved(w, Hand(w.runners[r]))
    ensures Conserved(Blowing(w, r), [])
  {
    FatesSplit(w.consumed, w.runners[r].ids, 0);
    hide FateIds, Fates;
  }

  lemma FinishKeeps(cfg: Config, w: World, ev: Event)
    requires Safe(cfg, w) && (ev.Finishes? || ev.Blows?) && Enabled(w, ev)
    ensures Safe(cfg, Next(cfg, w, ev))
  {
    hide Conserved, Mutex;
    var v, pc := Next(cfg, w, ev), w.runners[ev.r];
    assert Conserved(w, Hand(pc)) && Holds(w.box, pc);
    if ev.Finishes? {
      FinishConserves(w, ev.r, ev.count, ev.dropRest, ev.failed);
    } else {
      BlowConserves(w, ev.r);
    }
    assert Bounded(cfg, v.box) && KnownIds(v) && Drains(v);
    hide Bounded, KnownIds, Drains;
    FlagsOf(w);
    RunnerStep(cfg, w, v, ev.r, v.runners[ev.r]);
  }

  lemma FlagsOf(w: World)
    requires Mutex(w)
    ensures w.box.inlineRun ==> w.box.running
  {
  }

  lemma RestoreConserves(w: World, ids: seq<nat>, system: bool)
    requires Conserved(w, if system then [] else ids)
    ensures Conserved(w.(box := Restore(w.box, ids, system)), [])
  {
    if !system && !w.box.closed {
      assert Ids(Plain(ids) + w.box.user) == ids + Ids(w.box.user);
      hide FateIds, Plain, Ids;
      var a := FateIds(w.consumed);
      assert a + ids + Ids(w.box.user) == a + [] + (ids + Ids(w.box.user));
    }
  }

  lemma RestoreKeeps(cfg: Config, w: World, ev: Event)
    requires Safe(cfg, w) && ev.Restores? && Enabled(w, ev)
    ensures Safe(cfg, Next(cfg, w, ev))
  {
    hide Conserved, Mutex;
    var v, pc := Next(cfg, w, ev), w.runners[ev.r];
    assert Conserved(w, Hand(pc)) && Holds(w.box, pc);
    RestoreConserves(w, pc.ids, pc.system);
    ConservedKept(w.(box := v.box), v, []);
    assert Bounded(cfg, v.box) && KnownIds(v) && Drains(v);
    hide Bounded, KnownIds, Drains;
    FlagsOf(w);
    RunnerStep(cfg, w, v, ev.r, v.runners[ev.r]);
  }

  predicate FlagStep(ev: Event) {
    ev.Rescans? || ev.RunnerPublishes? || ev.RunnerRejected? || ev.Consumes? || ev.Recovers? || ev.RecoverPublishes?
  }

  lemma FlagEffect(cfg: Config, w: World, ev: Event)
    requires FlagStep(ev) && Enabled(w, ev)
    ensures ev.r in w.runners && Hand(w.runners[ev.r]) == []
    ensures Holds(w.box, w.runners[ev.r]) ==> Holds(w.box, Tail)
    ensures var v := Next(cfg, w, ev);
            && SameQueue(w, v) && v.box.running == w.box.running && (v.box.inlineRun ==> w.box.inlineRun)
            && (v.box.inFlight == w.box.inFlight || v.box.inFlight == 0)
            && ev.r in v.runners && v.runners == w.runners[ev.r := v.runners[ev.r]]
            && !v.runners[ev.r].Invoke? && !v.runners[ev.r].Restoring?
  {
  }

  lemma FlagsKeep(cfg: Config, w: World, ev: Event)
    requires Safe(cfg, w) && FlagStep(ev) && Enabled(w, ev)
    ensures Safe(cfg, Next(cfg, w, ev))
  {
    hide Conserved, Mutex, Next;
    FlagEffect(cfg, w, ev);
    var v := Next(cfg, w, ev);
    assert Holds(w.box, w.runners[ev.r]) && Conserved(w, []);
    QueueKept(cfg, w, v);
    hide Bounded, KnownIds, Drains;
    ConservedKept(w, v, []);
    FlagsOf(w);
    RunnerStep(cfg, w, v, ev.r, v.runners[ev.r]);
  }

  lemma LeaveKeeps(cfg: Config, w: World, ev: Event)
    requires Safe(cfg, w) && ev.Leaves? && Enabled(w, ev)
    ensures Safe(cfg, Next(cfg, w, ev))
  {
    var v := Next(cfg, w, ev);
    QueueKept(cfg, w, v);
    ConservedKept(w, v, []);
    if w.box.inlineRun {
      RunnerStep(cfg, w, v, ev.r, Scan);
    } else {
      hide Bounded, KnownIds, Drains, Conserved;
      assert v.runners == map[];
    }
  }

  lemma CloseConserves(cfg: Config, w: World, ev: Event, hand: seq<nat>)
    requires (ev.Closes? || ev.Stops?) && Conserved(w, hand) && Bounded(cfg, w.box)
    ensures Conserved(Next(cfg, w, ev), hand)
  {
    if !w.box.closed && ev.Stops? {
      assert FateIds(w.consumed) + hand + Ids([]) + (Ids(w.box.user) + w.drained) == w.admitted;
    }
  }

  lemma CloseKeeps(cfg: Config, w: World, ev: Event)
    requires Safe(cfg, w) && (ev.Closes? || ev.Stops?)
    ensures Safe(cfg, Next(cfg, w, ev))
  {
    hide Conserved;
    if w.runners == map[] { CloseConserves(cfg, w, ev, []); }
    forall r | r in w.runners ensures Conserved(Next(cfg, w, ev), Hand(w.runners[r])) {
      CloseConserves(cfg, w, ev, Hand(w.runners[r]));
    }
  }

  lemma ActorKeeps(cfg: Config, w: World, ev: Event)
    requires Safe(cfg, w) && (ev.Publishes? || ev.Suspends? || ev.Resumes?) && Enabled(w, ev)
    ensures Safe(cfg, Next(cfg, w, ev))
  {
    var v := Next(cfg, w, ev);
    QueueKept(cfg, w, v);
    hide Bounded, KnownIds, Drains;
  }

  lemma StepKeepsSafe(cfg: Config, w: World, ev: Event)
    requires cfg.Valid() && Safe(cfg, w) && Enabled(w, ev)
    ensures Safe(cfg, Next(cfg, w, ev))
  {
    hide Safe, Next;
    if ev.Send? { SendKeeps(cfg, w, ev); }
    else if ev.Rejects? { RejectKeeps(cfg, w, ev); }
    else if ev.Arrives? { ArriveKeeps(cfg, w, ev); }
    else if ev.Scans? { ScanKeeps(cfg, w, ev); }
    else if ev.Finishes? || ev.Blows? { FinishKeeps(cfg, w, ev); }
    else if ev.Restores? { RestoreKeeps(cfg, w, ev); }
    else if FlagStep(ev) { FlagsKeep(cfg, w, ev); }
    else if ev.Leaves? { LeaveKeeps(cfg, w, ev); }
    else if ev.Closes? || ev.Stops? { CloseKeeps(cfg, w, ev); }
    else { ActorKeeps(cfg, w, ev); }
  }

  lemma {:induction false} RunsKeepSafe(cfg: Config, w0: World, evs: seq<Event>, w: World)
    requires cfg.Valid() && Safe(cfg, w0) && Runs(cfg, w0, evs, w)
    ensures Safe(cfg, w)
    decreases |evs|
  {
    hide Safe, Next;
    if evs != [] {
      StepKeepsSafe(cfg, w0, evs[0]);
      RunsKeepSafe(cfg, Next(cfg, w0, evs[0]), evs[1..], w);
    }
  }

  // ----- Somebody always looks after a mailbox with work -----

  /** An activation at this point examines the queues again. */
  predicate Rechecks(pc: Pc) {
    !pc.Published? && !pc.Tail?
  }

  /** A sender that will get an activation published for the message in its entry. */
  predicate Counts(w: World, t: nat) {
    && t in w.senders
    && var s := w.senders[t];
       s.fallback || Item(s.id, true) in (if s.user then w.box.user else w.box.system)
  }

  predicate Looks(w: World, r: nat) {
    r in w.runners && (Rechecks(w.runners[r]) || w.box.inlineRun)
  }

  /** An activation is queued, is being published, or is running and will look again. */
  ghost predicate Live(w: World) {
    w.queued > 0 || (exists t :: Counts(w, t)) || (exists r :: Looks(w, r))
  }

  ghost predicate Attended(w: World) {
    !w.box.closed && (w.box.scheduled || HasWork(w.box, w.can)) ==> Live(w)
  }

  /** User messages are stopped from within a batch, as an actor does when it handles its own stop. */
  ghost predicate Orderly(w: World, ev: Event) {
    ev.Stops? ==> exists r :: InBatch(w, r)
  }

  lemma SendAttended(cfg: Config, w: World, ev: Event)
    requires Attended(w) && ev.Send? && Enabled(w, ev)
    ensures Attended(Next(cfg, w, ev))
  {
    var v := Next(cfg, w, ev);
    var (b, admission) := Enqueue(cfg, w.box, w.can, ev.id, ev.user);
    if admission.MustPublish? {
      assert Counts(v, ev.t);
    } else {
      if t :| Counts(w, t) { assert Counts(v, t); }
      if r :| Looks(w, r) { assert Looks(v, r); }
    }
  }

  lemma RejectAttended(cfg: Config, w: World, ev: Event)
    requires Attended(w) && ev.Rejects? && Enabled(w, ev)
    ensures Attended(Next(cfg, w, ev))
  {
    var v, s := Next(cfg, w, ev), w.senders[ev.t];
    var (b, fallback) := Rollback(w.box, s.id, s.user);
    if fallback {
      assert Counts(v, ev.t);
    } else if Item(s.id, true) !in (if s.user then w.box.user else w.box.system) {
      if t :| Counts(w, t) { assert Counts(v, t); }
      if r :| Looks(w, r) { assert Looks(v, r); }
    }
  }

  /** Steps after which the activation that took them looks again, or an activation is queued. */
  lemma BusyAttended(cfg: Config, w: World, ev: Event)
    requires Mutex(w) && Enabled(w, ev)
    requires ev.Publishes? || ev.Arrives? || ev.Finishes? || ev.Blows? || ev.Restores? || ev.RunnerPublishes?
             || ev.RunnerRejected? || ev.RecoverPublishes?
    ensures Live(Next(cfg, w, ev))
  {
    var v := Next(cfg, w, ev);
    if ev.Arrives? {
      if w.box.running {
        var r :| r in w.runners;
        assert Looks(v, r);
      } else {
        assert Looks(v, ev.r);
      }
    } else if ev.Finishes? || ev.Blows? || ev.Restores? || ev.RunnerRejected? {
      assert Looks(v, ev.r);
    }
  }

  lemma CheckAttended(cfg: Config, w: World, ev: Event)
    requires cfg.Valid() && Enabled(w, ev) && (ev.Scans? || ev.Rescans? || ev.Recovers?)
    ensures Attended(Next(cfg, w, ev))
  {
    if HasWork(w.box, w.can) { assert Looks(Next(cfg, w, ev), ev.r); }
  }

  lemma LeaveAttended(cfg: Config, w: World, ev: Event)
    requires Mutex(w) && Attended(w) && Enabled(w, ev) && (ev.Consumes? || ev.Leaves?)
    ensures Attended(Next(cfg, w, ev))
  {
    var v := Next(cfg, w, ev);
    if w.box.inlineRun {
      assert Looks(v, ev.r);
    } else {
      forall r ensures !Looks(w, r) { }
      if t :| Counts(w, t) { assert Counts(v, t); }
    }
  }

  lemma SwitchAttended(cfg: Config, w: World, ev: Event)
    requires Attended(w) && Enabled(w, ev) && Orderly(w, ev)
    requires ev.Suspends? || ev.Resumes? || ev.Closes? || ev.Stops?
    ensures Attended(Next(cfg, w, ev))
  {
    var v := Next(cfg, w, ev);
    if ev.Resumes? || ev.Stops? {
      var r :| InBatch(w, r);
      assert Looks(v, r);
    } else if ev.Suspends? {
      if t :| Counts(w, t) { assert Counts(v, t); }
      if r :| Looks(w, r) { assert Looks(v, r); }
    }
  }

  lemma StepAttended(cfg: Config, w: World, ev: Event)
    requires cfg.Valid() && Mutex(w) && Attended(w) && Enabled(w, ev) && Orderly(w, ev)
    ensures Attended(Next(cfg, w, ev))
  {
    hide Next, Mutex, Live, Enabled;
    if ev.Send? { SendAttended(cfg, w, ev); }
    else if ev.Rejects? { RejectAttended(cfg, w, ev); }
    else if ev.Scans? || ev.Rescans? || ev.Recovers? { CheckAttended(cfg, w, ev); }
    else if ev.Consumes? || ev.Leaves? { LeaveAttended(cfg, w, ev); }
    else if ev.Suspends? || ev.Resumes? || ev.Closes? || ev.Stops? { SwitchAttended(cfg, w, ev); }
    else { BusyAttended(cfg, w, ev); }
  }

  ghost predicate OrderlyRuns(cfg: Config, w0: World, evs: seq<Event>, w: World)
    decreases |evs|
  {
    if evs == [] then w == w0
    else Enabled(w0, evs[0]) && Orderly(w0, evs[0]) && OrderlyRuns(cfg, Next(cfg, w0, evs[0]), evs[1..], w)
  }

  lemma {:induction false} OrderlyRunsAttended(cfg: Config, w0: World, evs: seq<Event>, w: World)
    requires cfg.Valid() && Safe(cfg, w0) && Attended(w0) && OrderlyRuns(cfg, w0, evs, w)
    ensures Attended(w)
    decreases |evs|
  {
    if evs != [] {
      StepKeepsSafe(cfg, w0, evs[0]);
      StepAttended(cfg, w0, evs[0]);
      hide Safe, Next, Attended;
      OrderlyRunsAttended(cfg, Next(cfg, w0, evs[0]), evs[1..], w);
    }
  }

  // ----- The theorems -----

  lemma InitSafe(cfg: Config)
    requires cfg.Valid()
    ensures Safe(cfg, InitWorld) && Attended(InitWorld)
  {
  }

  /** At most one batch runs at a time. */
  lemma OneBatchAtATime(cfg: Config, evs: seq<Event>, w: World, r: nat, s: nat)
    requires cfg.Valid() && Runs(cfg, InitWorld, evs, w) && InBatch(w, r) && InBatch(w, s)
    ensures r == s
  {
    InitSafe(cfg);
    RunsKeepSafe(cfg, InitWorld, evs, w);
  }

  /** Queued and running user messages together never exceed the capacity. */
  lemma CapacityHolds(cfg: Config, evs: seq<Event>, w: World, r: nat)
    requires cfg.Valid() && Runs(cfg, InitWorld, evs, w)
    ensures |w.box.user| + w.box.inFlight <= cfg.capacity
    ensures InBatch(w, r) && !w.runners[r].system && !w.box.closed ==> |w.box.user| + |w.runners[r].ids| <= cfg.capacity
  {
    InitSafe(cfg);
    RunsKeepSafe(cfg, InitWorld, evs, w);
  }

  /** User messages reach the actor in the order of their admission, each at most once. */
  lemma HandedOverInOrder(cfg: Config, evs: seq<Event>, w: World, i: nat, j: nat)
    requires cfg.Valid() && Runs(cfg, InitWorld, evs, w) && i < j < |w.consumed|
    ensures j < |w.admitted| && w.consumed[i].id == w.admitted[i] && w.consumed[j].id == w.admitted[j]
    ensures w.consumed[i].id != w.consumed[j].id
  {
    InitSafe(cfg);
    RunsKeepSafe(cfg, InitWorld, evs, w);
    var ids := FateIds(w.consumed);
    if r :| r in w.runners {
      assert Conserved(w, Hand(w.runners[r]));
      assert ids <= w.admitted;
    } else {
      assert Conserved(w, []);
      assert ids <= w.admitted;
    }
    assert ids[i] == w.admitted[i] && ids[j] == w.admitted[j];
  }

  /** While a mailbox is open and nobody is in a batch, every admitted user message has been consumed, is queued, or
      was handed back, in this order. */
  lemma NothingIsLost(cfg: Config, evs: seq<Event>, w: World)
    requires cfg.Valid() && Runs(cfg, InitWorld, evs, w) && !w.box.closed && w.runners == map[]
    ensures w.admitted == FateIds(w.consumed) + Ids(w.box.user) + w.drained
  {
    InitSafe(cfg);
    RunsKeepSafe(cfg, InitWorld, evs, w);
    assert Conserved(w, []);
    assert FateIds(w.consumed) + [] == FateIds(w.consumed);
  }

  /** Whatever the dispatcher rejects, as long as user messages are stopped from within batches only, an open mailbox
      with a message that can be processed has an activation queued, being published or running. */
  lemma NeverForgotten(cfg: Config, evs: seq<Event>, w: World)
    requires cfg.Valid() && OrderlyRuns(cfg, InitWorld, evs, w) && HasWork(w.box, w.can)
    ensures Live(w)
  {
    InitSafe(cfg);
    OrderlyRunsAttended(cfg, InitWorld, evs, w);
  }

  // ----- Stopping user messages from outside -----

  /** A mailbox whose actor has just become able to take user messages, with nobody running. */
  predicate Idle(w: World) {
    && w.box == FreshBox && w.can && w.queued == 0 && w.senders == map[] && w.runners == map[] && 1 !in w.used
    && 2 !in w.used
  }

  /** The actor is handling its first lifecycle message. */
  const Starting :=
    World(FreshBox.(scheduled := true, running := true), false, 0, map[], map[0 := Invoke([0], true)], [], [], [], {0})

  lemma Begins(cfg: Config) returns (evs: seq<Event>)
    requires cfg.Valid()
    ensures Runs(cfg, InitWorld, evs, Starting)
  {
    var w1 := Next(cfg, InitWorld, Send(0, 0, false));
    var w2 := Next(cfg, w1, Publishes(0));
    var w3 := Next(cfg, w2, Arrives(0));
    var w4 := Next(cfg, w3, Scans(0));
    assert w3.box.system == [Item(0, true)] && w3.runners == map[0 := Scan] && w3.senders == map[];
    assert w3.box.system[..1] == [Item(0, true)] && Ids([Item(0, true)]) == [0];
    assert w4 == Starting;
    evs := [Scans(0)] + [];
    RunOne(cfg, w3, Scans(0), [], w4);
    RunOne(cfg, w2, Arrives(0), evs, w4);
    evs := [Arrives(0)] + evs;
    RunOne(cfg, w1, Publishes(0), evs, w4);
    evs := [Publishes(0)] + evs;
    RunOne(cfg, InitWorld, Send(0, 0, false), evs, w4);
    evs := [Send(0, 0, false)] + evs;
  }

  /** It has become able to take user messages and is done. */
  const Started := Starting.(can := true, runners := map[0 := Restoring([], true, false)])

  lemma Handles(cfg: Config) returns (evs: seq<Event>)
    ensures Runs(cfg, Starting, evs, Started)
  {
    var w1 := Next(cfg, Starting, Resumes);
    assert InBatch(Starting, 0) && [0][1..] == [];
    var w2 := Next(cfg, w1, Finishes(0, 1, false, false));
    assert w2 == Started;
    evs := [Finishes(0, 1, false, false)] + [];
    RunOne(cfg, w1, Finishes(0, 1, false, false), [], w2);
    RunOne(cfg, Starting, Resumes, evs, w2);
    evs := [Resumes] + evs;
  }

  lemma Settles(cfg: Config) returns (evs: seq<Event>, w: World)
    ensures Runs(cfg, Started, evs, w) && Idle(w)
  {
    var w1 := Next(cfg, Started, Restores(0));
    var w2 := Next(cfg, w1, Rescans(0));
    w := Next(cfg, w2, Leaves(0));
    assert w.runners == map[] && w.box == FreshBox;
    evs := [Leaves(0)] + [];
    RunOne(cfg, w2, Leaves(0), [], w);
    RunOne(cfg, w1, Rescans(0), evs, w);
    evs := [Rescans(0)] + evs;
    RunOne(cfg, Started, Restores(0), evs, w);
    evs := [Restores(0)] + evs;
  }

  lemma RunOne(cfg: Config, w: World, ev: Event, rest: seq<Event>, v: World)
    requires Enabled(w, ev) && Runs(cfg, Next(cfg, w, ev), rest, v)
    ensures Runs(cfg, w, [ev] + rest, v)
  {
    assert ([ev] + rest)[1..] == rest;
    hide Next, Enabled;
  }

  lemma {:induction false} RunsJoin(cfg: Config, w0: World, evs: seq<Event>, w: World, more: seq<Event>, v: World)
    requires Runs(cfg, w0, evs, w) && Runs(cfg, w, more, v)
    ensures Runs(cfg, w0, evs + more, v)
    decreases |evs|
  {
    hide Next;
    if evs == [] {
      assert evs + more == more;
    } else {
      RunsJoin(cfg, Next(cfg, w0, evs[0]), evs[1..], w, more, v);
      assert (evs + more)[1..] == evs[1..] + more && (evs + more)[0] == evs[0];
    }
  }

  /** Stopping user messages between a send and its rejected activation leaves the mailbox marked as scheduled with
      nobody to run it: a lifecycle message that follows is never looked at. */
  lemma Strands(cfg: Config, w: World) returns (v: World)
    requires cfg.Valid() && Idle(w)
    ensures Runs(cfg, w, [Send(0, 1, true), Stops, Rejects(0), Send(0, 2, false)], v)
    ensures HasWork(v.box, v.can) && v.box.scheduled && !Live(v)
  {
    var w1 := Next(cfg, w, Send(0, 1, true));
    var w2 := Next(cfg, w1, Stops);
    var w3 := Next(cfg, w2, Rejects(0));
    assert w3.senders == map[] && w3.box.scheduled;
    v := Next(cfg, w3, Send(0, 2, false));
    RunOne(cfg, w3, Send(0, 2, false), [], v);
    RunOne(cfg, w2, Rejects(0), [Send(0, 2, false)], v);
    RunOne(cfg, w1, Stops, [Rejects(0), Send(0, 2, false)], v);
    RunOne(cfg, w, Send(0, 1, true), [Stops, Rejects(0), Send(0, 2, false)], v);
  }

  lemma StoppingFromOutsideCanStrand(cfg: Config)
    requires cfg.Valid()
    ensures exists evs, w :: Runs(cfg, InitWorld, evs, w) && HasWork(w.box, w.can) && !Live(w)
  {
    hide Next, Live, Enabled, Runs;
    var a := Begins(cfg);
    var h := Handles(cfg);
    var b, w := Settles(cfg);
    var v := Strands(cfg, w);
    RunsJoin(cfg, InitWorld, a, Starting, h, Started);
    RunsJoin(cfg, InitWorld, a + h, Started, b, w);
    RunsJoin(cfg, InitWorld, a + h + b, w, [Send(0, 1, true), Stops, Rejects(0), Send(0, 2, false)], v);
  }
}
