/** Who looks after a mailbox, whatever the dispatcher rejects and whoever stops user messages. */
module MailboxAttendance {
  import opened Mailbox
  import opened MailboxRuns

  /** An open mailbox that is marked as scheduled or has a message it can hand over. */
  predicate NeedsCare(w: World) {
    !w.box.closed && (w.box.scheduled || HasWork(w.box, w.can))
  }

  /** An activation is queued, is in the hands of a sender, or is running and will look again. A sender that has not
      come back from the dispatcher counts whatever has become of its entry. */
  ghost predicate Watched(w: World) {
    w.queued > 0 || w.senders != map[] || exists r :: Looks(w, r)
  }

  ghost predicate Cared(w: World) {
    NeedsCare(w) ==> Watched(w)
  }

  /** The entry of a sender is still in the queue it went to. */
  predicate EntryQueued(w: World, t: nat)
    requires t in w.senders
  {
    Item(w.senders[t].id, true) in (if w.senders[t].user then w.box.user else w.box.system)
  }

  /** The dispatcher rejects the one activation that was on its way, and the sender finds its entry gone: it then
      neither publishes again nor takes the mark back. */
  ghost predicate Abandons(w: World, ev: Event) {
    && ev.Rejects? && ev.t in w.senders && NeedsCare(w) && !EntryQueued(w, ev.t)
    && w.queued == 0 && w.senders.Keys == {ev.t} && forall r :: !Looks(w, r)
  }

  // ----- One step -----

  lemma OthersRemain(w: World, t: nat)
    requires t in w.senders
    ensures w.senders - {t} == map[] <==> w.senders.Keys == {t}
  {
    if w.senders.Keys == {t} {
      assert w.senders - {t} == map[];
    } else {
      var s :| s in w.senders && s != t;
      assert s in w.senders - {t};
    }
  }

  lemma RejectCares(cfg: Config, w: World, ev: Event)
    requires Cared(w) && ev.Rejects? && Enabled(w, ev)
    ensures Cared(Next(cfg, w, ev)) <==> !Abandons(w, ev)
  {
    var v, t := Next(cfg, w, ev), ev.t;
    if EntryQueued(w, t) {
      if NeedsCare(v) { assert t in v.senders; }
    } else {
      OthersRemain(w, t);
      assert v.box == w.box && v.senders == w.senders - {t};
      forall r ensures Looks(v, r) <==> Looks(w, r) { }
    }
  }

  /** Steps that leave every activation and every sender where they are. */
  lemma QuietCares(cfg: Config, w: World, ev: Event)
    requires Cared(w) && Enabled(w, ev) && (ev.Send? || ev.Suspends? || ev.Closes? || ev.Stops?)
    ensures Cared(Next(cfg, w, ev))
  {
    var v := Next(cfg, w, ev);
    if ev.Send? && Enqueue(cfg, w.box, w.can, ev.id, ev.user).1.MustPublish? {
      assert ev.t in v.senders;
    } else {
      assert NeedsCare(v) ==> NeedsCare(w) by { assert v.box.scheduled ==> w.box.scheduled; }
      if r :| Looks(w, r) { assert Looks(v, r); }
    }
  }

  lemma BusyCares(cfg: Config, w: World, ev: Event)
    requires Mutex(w) && Enabled(w, ev)
    requires ev.Publishes? || ev.Arrives? || ev.Finishes? || ev.Blows? || ev.Restores? || ev.RunnerPublishes?
             || ev.RunnerRejected? || ev.RecoverPublishes?
    ensures Cared(Next(cfg, w, ev))
  {
    BusyAttended(cfg, w, ev);
  }

  lemma CheckCares(cfg: Config, w: World, ev: Event)
    requires cfg.Valid() && Enabled(w, ev) && (ev.Scans? || ev.Rescans? || ev.Recovers?)
    ensures Cared(Next(cfg, w, ev))
  {
    CheckAttended(cfg, w, ev);
  }

  lemma ResumeCares(cfg: Config, w: World, ev: Event)
    requires Enabled(w, ev) && ev.Resumes?
    ensures Cared(Next(cfg, w, ev))
  {
    var r :| InBatch(w, r);
    assert Looks(Next(cfg, w, ev), r);
  }

  lemma LeaveCares(cfg: Config, w: World, ev: Event)
    requires Mutex(w) && Cared(w) && Enabled(w, ev) && (ev.Consumes? || ev.Leaves?)
    ensures Cared(Next(cfg, w, ev))
  {
    var v := Next(cfg, w, ev);
    if w.box.inlineRun {
      assert Looks(v, ev.r);
    } else {
      forall r ensures !Looks(w, r) { }
    }
  }

  /** A looked-after mailbox stays looked after in every step but this one. */
  lemma StepCaresIff(cfg: Config, w: World, ev: Event)
    requires cfg.Valid() && Mutex(w) && Cared(w) && Enabled(w, ev)
    ensures Cared(Next(cfg, w, ev)) <==> !Abandons(w, ev)
  {
    hide Next, Mutex, Cared, Enabled;
    if ev.Rejects? { RejectCares(cfg, w, ev); }
    else if ev.Scans? || ev.Rescans? || ev.Recovers? { CheckCares(cfg, w, ev); }
    else if ev.Consumes? || ev.Leaves? { LeaveCares(cfg, w, ev); }
    else if ev.Resumes? { ResumeCares(cfg, w, ev); }
    else if ev.Send? || ev.Suspends? || ev.Closes? || ev.Stops? { QuietCares(cfg, w, ev); }
    else { BusyCares(cfg, w, ev); }
  }

  /** The rejection in terms of the sender that meets it: the mailbox stays looked after exactly if its entry is still
      queued, or somebody else is there. */
  lemma RejectionIsHarmlessIff(cfg: Config, w: World, t: nat)
    requires Cared(w) && !w.box.closed && w.box.scheduled && Enabled(w, Rejects(t))
    ensures Cared(Next(cfg, w, Rejects(t)))
            <==> || EntryQueued(w, t) || w.queued > 0
                 || (exists s :: s in w.senders && s != t) || (exists r :: Looks(w, r))
  {
    RejectCares(cfg, w, Rejects(t));
    hide Next, Cared, Looks;
    if w.senders.Keys != {t} { assert exists s :: s in w.senders && s != t; }
  }

  // ----- Stranded mailboxes -----

  /** Marked as scheduled, open, and nobody there. */
  ghost predicate Stranded(w: World) {
    !w.box.closed && w.box.scheduled && !Watched(w)
  }

  lemma AbandonedIsStranded(cfg: Config, w: World, ev: Event)
    requires Enabled(w, ev) && Abandons(w, ev) && w.box.scheduled
    ensures Stranded(Next(cfg, w, ev))
  {
    var v := Next(cfg, w, ev);
    OthersRemain(w, ev.t);
    assert v.box == w.box && v.senders == w.senders - {ev.t};
    forall r ensures !Looks(v, r) { assert !Looks(w, r); }
  }

  /** Nothing but closing it ends that: no message sent to a stranded mailbox brings an activation. */
  lemma StrandedStays(cfg: Config, w: World, ev: Event)
    requires Mutex(w) && Stranded(w) && Enabled(w, ev)
    ensures ev.Closes? || Stranded(Next(cfg, w, ev))
  {
    var v := Next(cfg, w, ev);
    forall r ensures r in w.runners ==> !Rechecks(w.runners[r]) && !w.box.inlineRun { assert !Looks(w, r); }
    if !ev.Closes? { forall r ensures !Looks(v, r) { } }
  }

  // ----- The mark -----

  /** Without the mark, work is looked after by an activation: no sender has to be relied on. */
  ghost predicate Marked(w: World) {
    !w.box.closed && !w.box.scheduled && HasWork(w.box, w.can) ==> w.queued > 0 || exists r :: Looks(w, r)
  }

  lemma MarkedBySenders(cfg: Config, w: World, ev: Event)
    requires Marked(w) && Enabled(w, ev)
    requires ev.Send? || ev.Rejects? || ev.Suspends? || ev.Closes? || ev.Stops?
    ensures Marked(Next(cfg, w, ev))
  {
    var v := Next(cfg, w, ev);
    if r :| Looks(w, r) { assert Looks(v, r); }
  }

  lemma MarkedByRunners(cfg: Config, w: World, ev: Event)
    requires cfg.Valid() && Mutex(w) && Marked(w) && Enabled(w, ev)
    requires ev.Arrives? || ev.Scans? || ev.Consumes? || ev.Leaves? || ev.Resumes? || ev.Rescans? || ev.Recovers?
    ensures Marked(Next(cfg, w, ev))
  {
    var v := Next(cfg, w, ev);
    if ev.Arrives? {
      if w.box.running { var r :| r in w.runners; assert Looks(v, r); } else { assert Looks(v, ev.r); }
    } else if ev.Resumes? {
      var r :| InBatch(w, r);
      assert Looks(v, r);
    } else if ev.Consumes? || ev.Leaves? {
      if w.box.inlineRun { assert Looks(v, ev.r); } else { forall r ensures !Looks(w, r) { } }
    } else if HasWork(w.box, w.can) {
      assert Looks(v, ev.r);
    }
  }

  lemma MarkedByBatches(cfg: Config, w: World, ev: Event)
    requires Enabled(w, ev)
    requires ev.Publishes? || ev.Finishes? || ev.Blows? || ev.Restores? || ev.RunnerPublishes? || ev.RunnerRejected?
             || ev.RecoverPublishes?
    ensures Marked(Next(cfg, w, ev))
  {
    if ev.Finishes? || ev.Blows? || ev.Restores? || ev.RunnerRejected? { assert Looks(Next(cfg, w, ev), ev.r); }
  }

  lemma StepKeepsMarked(cfg: Config, w: World, ev: Event)
    requires cfg.Valid() && Mutex(w) && Marked(w) && Enabled(w, ev)
    ensures Marked(Next(cfg, w, ev))
  {
    hide Next, Mutex, Marked, Enabled;
    if ev.Send? || ev.Rejects? || ev.Suspends? || ev.Closes? || ev.Stops? {
      MarkedBySenders(cfg, w, ev);
    } else if ev.Arrives? || ev.Scans? || ev.Consumes? || ev.Leaves? || ev.Resumes? || ev.Rescans? || ev.Recovers? {
      MarkedByRunners(cfg, w, ev);
    } else {
      MarkedByBatches(cfg, w, ev);
    }
  }

  lemma AbandonedIsMarked(w: World, ev: Event)
    requires Marked(w) && Abandons(w, ev)
    ensures w.box.scheduled
  {
  }

  // ----- Whole runs -----

  /** Some step of the run is such a rejection. */
  ghost predicate AbandonedIn(cfg: Config, w0: World, evs: seq<Event>)
    decreases |evs|
  {
    && evs != [] && Enabled(w0, evs[0])
    && (Abandons(w0, evs[0]) || AbandonedIn(cfg, Next(cfg, w0, evs[0]), evs[1..]))
  }

  lemma ClosedAtSending(cfg: Config, w: World, ev: Event)
    requires w.box.closed && Enabled(w, ev) && (ev.Send? || ev.Rejects? || ev.Scans? || ev.Restores?)
    ensures Next(cfg, w, ev).box.closed
  {
    hide Remove, RemoveId, Ids, Plain;
  }

  lemma ClosedStays(cfg: Config, w: World, ev: Event)
    requires w.box.closed && Enabled(w, ev)
    ensures Next(cfg, w, ev).box.closed
  {
    hide Sending, Rejecting, Scanning, Restore, Fates;
    if ev.Send? || ev.Rejects? || ev.Scans? || ev.Restores? { ClosedAtSending(cfg, w, ev); }
  }

  lemma {:induction false} ClosedForGood(cfg: Config, w0: World, evs: seq<Event>, w: World)
    requires w0.box.closed && Runs(cfg, w0, evs, w)
    ensures w.box.closed
    decreases |evs|
  {
    hide Next;
    if evs != [] {
      ClosedStays(cfg, w0, evs[0]);
      ClosedForGood(cfg, Next(cfg, w0, evs[0]), evs[1..], w);
    }
  }

  lemma {:induction false} StrandedForGood(cfg: Config, w0: World, evs: seq<Event>, w: World)
    requires cfg.Valid() && Safe(cfg, w0) && Stranded(w0) && Runs(cfg, w0, evs, w) && !w.box.closed
    ensures Stranded(w)
    decreases |evs|
  {
    if evs != [] {
      var v := Next(cfg, w0, evs[0]);
      StepKeepsSafe(cfg, w0, evs[0]);
      StrandedStays(cfg, w0, evs[0]);
      if evs[0].Closes? { ClosedForGood(cfg, v, evs[1..], w); }
      hide Safe, Next, Stranded;
      StrandedForGood(cfg, v, evs[1..], w);
    }
  }

  lemma {:induction false} RunCaresIff(cfg: Config, w0: World, evs: seq<Event>, w: World)
    requires cfg.Valid() && Safe(cfg, w0) && Marked(w0) && Cared(w0) && Runs(cfg, w0, evs, w) && !w.box.closed
    ensures if AbandonedIn(cfg, w0, evs) then Stranded(w) else Cared(w)
    decreases |evs|
  {
    if evs != [] {
      var v := Next(cfg, w0, evs[0]);
      StepKeepsSafe(cfg, w0, evs[0]);
      StepKeepsMarked(cfg, w0, evs[0]);
      StepCaresIff(cfg, w0, evs[0]);
      if Abandons(w0, evs[0]) {
        AbandonedIsMarked(w0, evs[0]);
        AbandonedIsStranded(cfg, w0, evs[0]);
        hide Safe, Next, Stranded, Cared, Marked;
        StrandedForGood(cfg, v, evs[1..], w);
      } else {
        hide Safe, Next, Stranded, Cared, Marked;
        RunCaresIff(cfg, v, evs[1..], w);
      }
    }
  }

  /** Over every run, with user messages stopped from anywhere and activations rejected at will: an open mailbox that
      is scheduled or has work is looked after, unless the run contains a rejection that abandoned it; and then it
      stands there scheduled, with nobody looking, whatever came after. */
  lemma ForgottenIff(cfg: Config, evs: seq<Event>, w: World)
    requires cfg.Valid() && Runs(cfg, InitWorld, evs, w) && !w.box.closed
    ensures Cared(w) <==> !AbandonedIn(cfg, InitWorld, evs)
    ensures Stranded(w) <==> AbandonedIn(cfg, InitWorld, evs)
  {
    InitSafe(cfg);
    RunCaresIff(cfg, InitWorld, evs, w);
    hide AbandonedIn, Runs;
  }

  lemma {:induction false} NoRejectionNoAbandoning(cfg: Config, w0: World, evs: seq<Event>)
    requires forall k :: 0 <= k < |evs| ==> !evs[k].Rejects?
    ensures !AbandonedIn(cfg, w0, evs)
    decreases |evs|
  {
    hide Next;
    if AbandonedIn(cfg, w0, evs) { NoRejectionNoAbandoning(cfg, Next(cfg, w0, evs[0]), evs[1..]); }
  }

  /** With a dispatcher that accepts, a mailbox is never forgotten, wherever user messages are stopped. */
  lemma AcceptingDispatcherNeverForgets(cfg: Config, evs: seq<Event>, w: World)
    requires cfg.Valid() && Runs(cfg, InitWorld, evs, w) && (forall k :: 0 <= k < |evs| ==> !evs[k].Rejects?)
    ensures Cared(w)
  {
    NoRejectionNoAbandoning(cfg, InitWorld, evs);
    if !w.box.closed { ForgottenIff(cfg, evs, w); }
  }

  // ----- Lifecycle messages first -----

  /** A lifecycle message is queued, or in a batch that may still give it back. */
  ghost predicate Waiting(w: World, id: nat) {
    || id in Ids(w.box.system)
    || exists r :: r in w.runners && Carries(w.runners[r], id)
  }

  predicate Carries(pc: Pc, id: nat) {
    (pc.Invoke? || pc.Restoring?) && pc.system && id in pc.ids
  }

  /** The user messages that were dealt with or are in a batch are among `gone`, in its order. */
  ghost predicate Within(w: World, gone: seq<nat>) {
    && FateIds(w.consumed) <= gone
    && forall r :: r in w.runners ==> FateIds(w.consumed) + Hand(w.runners[r]) <= gone
  }

  lemma ScanWithin(cfg: Config, w: World, ev: Event, id: nat, gone: seq<nat>)
    requires cfg.Valid() && Mutex(w) && Waiting(w, id) && Within(w, gone) && ev.Scans? && Enabled(w, ev)
    ensures Within(Next(cfg, w, ev), gone)
  {
    hide FateIds;
    var v := Next(cfg, w, ev);
    assert w.box.system != [];
    assert Hand(v.runners[ev.r]) == [] && FateIds(w.consumed) + [] == FateIds(w.consumed);
  }

  /** Part of a batch is dealt with, the rest stays in hand or is given back. */
  lemma PartWithin(fates: seq<Fate>, hand: seq<nat>, n: nat, count: nat, gone: seq<nat>)
    requires FateIds(fates) + hand <= gone && n <= |hand|
    ensures FateIds(fates + Fates(hand[..n], count)) <= gone
    ensures FateIds(fates + Fates(hand[..n], count)) + hand[n..] <= gone
  {
    FatesSplit(fates, hand[..n], count);
    hide FateIds, Fates;
    var a := FateIds(fates);
    assert a + hand == (a + hand[..n]) + hand[n..];
  }

  lemma FinishingWithin(w: World, r: nat, count: nat, dropRest: bool, failed: bool, gone: seq<nat>)
    requires Mutex(w) && Within(w, gone) && InBatch(w, r) && count <= |w.runners[r].ids|
    ensures Within(Finishing(w, r, count, dropRest, failed), gone)
  {
    OnlyRunner(w, r);
    var v, pc := Finishing(w, r, count, dropRest, failed), w.runners[r];
    hide Mutex, FateIds, Fates;
    assert FateIds(w.consumed) + Hand(pc) <= gone && v.runners.Keys == {r};
    assert FateIds(w.consumed) + [] == FateIds(w.consumed);
    if !pc.system {
      var n := if dropRest then |pc.ids| else count;
      PartWithin(w.consumed, pc.ids, n, count, gone);
      assert pc.ids[..n] == (if dropRest then pc.ids else pc.ids[..count]);
      assert dropRest ==> pc.ids[n..] == [];
    }
  }

  lemma BlowingWithin(w: World, r: nat, gone: seq<nat>)
    requires Mutex(w) && Within(w, gone) && InBatch(w, r)
    ensures Within(Blowing(w, r), gone)
  {
    OnlyRunner(w, r);
    var v, pc := Blowing(w, r), w.runners[r];
    hide Mutex, FateIds, Fates;
    assert FateIds(w.consumed) + Hand(pc) <= gone && v.runners.Keys == {r};
    assert FateIds(v.consumed) + [] == FateIds(v.consumed);
    if !pc.system {
      PartWithin(w.consumed, pc.ids, |pc.ids|, 0, gone);
      assert pc.ids[..|pc.ids|] == pc.ids;
    }
  }

  lemma FinishWithin(cfg: Config, w: World, ev: Event, gone: seq<nat>)
    requires Mutex(w) && Within(w, gone) && (ev.Finishes? || ev.Blows?) && Enabled(w, ev)
    ensures Within(Next(cfg, w, ev), gone)
  {
    hide Mutex, Within, Finishing, Blowing;
    if ev.Finishes? {
      FinishingWithin(w, ev.r, ev.count, ev.dropRest, ev.failed, gone);
    } else {
      BlowingWithin(w, ev.r, gone);
    }
  }

  lemma OnlyRunner(w: World, r: nat)
    requires Mutex(w) && r in w.runners
    ensures w.runners.Keys == {r}
  {
  }

  predicate Running(ev: Event) {
    ev.Arrives? || ev.Restores? || FlagStep(ev) || ev.Leaves?
  }

  lemma RunnerWithin(cfg: Config, w: World, ev: Event, gone: seq<nat>)
    requires Mutex(w) && Within(w, gone) && Running(ev) && Enabled(w, ev)
    ensures Within(Next(cfg, w, ev), gone)
  {
    hide FateIds, Mutex;
    assert FateIds(w.consumed) + [] == FateIds(w.consumed);
  }

  lemma OtherWithin(cfg: Config, w: World, ev: Event, gone: seq<nat>)
    requires Within(w, gone) && Enabled(w, ev)
    requires !ev.Scans? && !ev.Finishes? && !ev.Blows? && !Running(ev)
    ensures Within(Next(cfg, w, ev), gone)
  {
    hide FateIds;
  }

  lemma StepWithin(cfg: Config, w: World, ev: Event, id: nat, gone: seq<nat>)
    requires cfg.Valid() && Mutex(w) && Waiting(w, id) && Within(w, gone) && Enabled(w, ev)
    ensures Within(Next(cfg, w, ev), gone)
  {
    hide Next, Mutex, Within, Enabled, Waiting;
    if ev.Scans? { ScanWithin(cfg, w, ev, id, gone); }
    else if ev.Finishes? || ev.Blows? { FinishWithin(cfg, w, ev, gone); }
    else if Running(ev) { RunnerWithin(cfg, w, ev, gone); }
    else { OtherWithin(cfg, w, ev, gone); }
  }

  /** A lifecycle message waits all through a run. */
  ghost predicate WaitsThrough(cfg: Config, w0: World, evs: seq<Event>, id: nat)
    decreases |evs|
  {
    Waiting(w0, id)
    && (evs != [] && Enabled(w0, evs[0]) ==> WaitsThrough(cfg, Next(cfg, w0, evs[0]), evs[1..], id))
  }

  lemma {:induction false} WaitingHoldsBack(cfg: Config, w0: World, evs: seq<Event>, w: World, id: nat, gone: seq<nat>)
    requires cfg.Valid() && Safe(cfg, w0) && Runs(cfg, w0, evs, w) && WaitsThrough(cfg, w0, evs, id) && Within(w0, gone)
    ensures Within(w, gone)
    decreases |evs|
  {
    if evs != [] {
      StepKeepsSafe(cfg, w0, evs[0]);
      StepWithin(cfg, w0, evs[0], id, gone);
      hide Safe, Next, Within, Waiting;
      WaitingHoldsBack(cfg, Next(cfg, w0, evs[0]), evs[1..], w, id, gone);
    }
  }

  /** Lifecycle messages first: while one waits, whatever else happens, no user message is taken out of the queue.
      Only those that already were in the batch running when it came can still reach the actor. */
  lemma LifecycleFirst(cfg: Config, before: seq<Event>, w0: World, evs: seq<Event>, w: World, id: nat, gone: seq<nat>)
    requires cfg.Valid() && Runs(cfg, InitWorld, before, w0) && Runs(cfg, w0, evs, w)
    requires WaitsThrough(cfg, w0, evs, id) && Within(w0, gone)
    ensures Within(w, gone)
  {
    InitSafe(cfg);
    RunsKeepSafe(cfg, InitWorld, before, w0);
    WaitingHoldsBack(cfg, w0, evs, w, id, gone);
  }
}
