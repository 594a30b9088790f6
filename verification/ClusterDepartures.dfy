/** How members come up, and what a leaving member shows of itself. */
module ClusterDepartures {
  import opened Basics
  import opened ClusterCoordinator
  import opened ClusterBookkeeping
  import opened ClusterParticipant
  import opened ClusterRuns
  import opened ClusterInvariant
  import opened ClusterViews
  import opened ClusterSteps
  import opened ClusterJoins
  import opened ClusterViewRevisions
  import opened ClusterTheorems

  // ----- Coming up -----

  lemma QuietMessage(cfg: Config, w: World, ev: Event)
    requires Enabled(cfg, w, ev) && (ev.OnHeartbeat? || ev.OnLeave? || ev.FinishesLeave?)
    ensures Quiet(w.c, Next(cfg, w, ev).c)
  {
    hide Quiet, Beat, BeginLeave, EndLeave;
    match ev
    case OnHeartbeat(k) => BeatIsQuiet(w.c, k.from, k.token, k.sequence, w.clock);
    case OnLeave(k) => BeginLeaveIsQuiet(w.c, k.from, k.token, k.request);
    case FinishesLeave => EndLeaveIsQuiet(w.c);
  }

  lemma QuietTimer(cfg: Config, w: World, ev: Event)
    requires Enabled(cfg, w, ev) && (ev.Undo? || ev.Expires? || ev.Detects?)
    ensures Quiet(w.c, Next(cfg, w, ev).c)
  {
    hide Quiet, Expire, Detect;
    match ev
    case Undo => ExpireIsQuiet(w.c, w.c.work.who, w.c.work.request);
    case Expires(id) => ExpireIsQuiet(w.c, id, w.c.pending[id].request);
    case Detects => DetectIsQuiet(cfg, w.c, w.clock);
  }

  lemma QuietCall(cfg: Config, w: World, ev: Event)
    requires Enabled(cfg, w, ev) && (ev.Downs? || ev.SelfLeaves? || ev.Stops?)
    requires cfg.coordinator in w.c.members && cfg.coordinator !in w.c.tokens
    ensures Quiet(w.c, Next(cfg, w, ev).c)
  {
    hide Quiet, Down, SelfMoves;
    match ev
    case Downs(id) => DownIsQuiet(cfg, w.c, id);
    case SelfLeaves(status) => SelfMovesIsQuiet(cfg, w.c, status);
    case Stops => SameIsQuiet(w.c, w.c.(stopping := true));
  }

  lemma QuietStep(cfg: Config, w: World, ev: Event)
    requires Inv(cfg, w) && Enabled(cfg, w, ev) && !ev.OnJoinRequest? && !ev.OnJoinConfirm?
    ensures Quiet(w.c, Next(cfg, w, ev).c)
  {
    hide Inv, CInv, Quiet, Next, Enabled;
    Parts(cfg, w);
    if ev.OnHeartbeat? || ev.OnLeave? || ev.FinishesLeave? {
      QuietMessage(cfg, w, ev);
    } else if ev.Undo? || ev.Expires? || ev.Detects? {
      QuietTimer(cfg, w, ev);
    } else if ev.Downs? || ev.SelfLeaves? || ev.Stops? {
      QuietCall(cfg, w, ev);
    } else {
      OtherMoves(cfg, w, ev);
      StillIsQuiet(w.c);
    }
  }

  predicate IsUp(c: Coordinator, i: Identity) {
    i in c.members && c.members[i].status.Up?
  }

  lemma QuietBringsNobodyUp(cfg: Config, c: Coordinator, d: Coordinator, i: Identity)
    requires CInv(cfg, d) && Moves(c, d) && Quiet(c, d) && i != cfg.coordinator && IsUp(d, i)
    ensures IsUp(c, i)
  {
    assert KeysAt(cfg, d, i) && QuietAt(c, d, i);
    if d.revision != c.revision { assert LaterAt(PointOf(c), PointOf(d), i); }
  }

  lemma JoinBringsNobodyUp(cfg: Config, w: World, ev: Event, i: Identity)
    requires Inv(cfg, w) && Enabled(cfg, w, ev) && ev.OnJoinRequest? && IsUp(Next(cfg, w, ev).c, i)
    ensures IsUp(w.c, i)
  {
    hide Inv, CInv, Join;
    var k := ev.packet;
    Parts(cfg, w);
    Sender(cfg, w, k);
    JoinIs(cfg, w.c, k.from, k.endpoint, k.request, k.ref, ev.token, w.clock);
  }

  lemma ConfirmBringsOneUp(c: Coordinator, j: Identity, request: RequestId, token: Token, now: nat, i: Identity)
    requires IsUp(Confirm(c, j, request, token, now), i) && !IsUp(c, i)
    ensures i == j && MayConfirm(c, j, request, token, now)
  {
  }

  /** A member comes up only by confirming the token issued to it, for its own pending request and before the
      deadline. */
  lemma UpOnlyByConfirming(cfg: Config, now: nat, evs: seq<Event>, w: World, ev: Event, i: Identity)
    requires Reachable(cfg, now, evs, w) && Enabled(cfg, w, ev) && i != cfg.coordinator
    requires IsUp(Next(cfg, w, ev).c, i) && !IsUp(w.c, i)
    ensures ev.OnJoinConfirm? && ev.packet.from == i
    ensures i in w.c.tokens && w.c.tokens[i] == ev.packet.token
    ensures i in w.c.pending && w.c.pending[i].request == ev.packet.request && w.clock <= w.c.pending[i].deadline
    ensures i in w.nodes && w.nodes[i].token == Some(ev.packet.token)
  {
    hide Inv, CInv, Moves, Quiet, Next, Enabled;
    ReachableInv(cfg, now, evs, w);
    StepMoves(cfg, w, ev);
    if ev.OnJoinRequest? {
      JoinBringsNobodyUp(cfg, w, ev, i);
    } else if !ev.OnJoinConfirm? {
      QuietStep(cfg, w, ev);
      QuietBringsNobodyUp(cfg, w.c, Next(cfg, w, ev).c, i);
    } else {
      ConfirmOf(cfg, w, ev, i);
    }
  }

  lemma ConfirmOf(cfg: Config, w: World, ev: Event, i: Identity)
    requires Inv(cfg, w) && Enabled(cfg, w, ev) && ev.OnJoinConfirm?
    requires IsUp(Next(cfg, w, ev).c, i) && !IsUp(w.c, i)
    ensures ev.packet.from == i && MayConfirm(w.c, i, ev.packet.request, ev.packet.token, w.clock)
    ensures i in w.nodes && w.nodes[i].token == Some(ev.packet.token)
  {
    var k := ev.packet;
    ConfirmBringsOneUp(w.c, k.from, k.request, k.token, w.clock, i);
    hide Next, Confirm, CInv, HistInv, PacketOk, NodeInv;
    ConfirmerIsGranted(cfg, w, k);
    assert HolderAt(w, i) && TokenAt(w, i);
    assert GrantAt(w.c, w.since, w.issued, (i, w.nodes[i].token.value, w.nodes[i].grant));
  }

  // ----- What a leaving member shows of itself -----

  /** A member that is being served and holds the coordinator's token for it. */
  ghost predicate Serves(cfg: Config, w: World, a: Identity) {
    && Inv(cfg, w) && a in w.nodes && a in w.nodes[a].members && a in w.c.tokens && w.c.work.Free?
    && w.nodes[a].stage.Serving? && w.nodes[a].contacted && w.nodes[a].token == Some(w.c.tokens[a])
    && (w.nodes[a].members[a].status.Joining? || w.nodes[a].members[a].status.Up?)
  }

  /** The participant's view is as new as the coordinator's table, which has it as left, and still says leaving. */
  ghost predicate ShowsLeaving(w: World, a: Identity) {
    && a in w.nodes && a in w.nodes[a].members && a in w.c.members
    && w.nodes[a].revision == w.c.revision && w.c.members[a].status.Left?
    && w.nodes[a].members[a].status.Leaving?
  }

  /** Asking to leave. */
  lemma AsksToLeave(cfg: Config, w: World, a: Identity, q: RequestId) returns (v: World)
    requires Serves(cfg, w, a)
    ensures Runs(cfg, w, [BeginsStop(a), Asks(a, q)], v) && Inv(cfg, v)
    ensures v.c == w.c && a in v.nodes && a in v.nodes[a].members && v.nodes[a].members[a].status.Leaving?
    ensures v.nodes[a].contacted && v.nodes[a].leaveRequest == Some(q) && v.nodes[a].revision == w.nodes[a].revision
    ensures Leave(a, w.c.tokens[a], q) in v.net
  {
    hide Inv;
    var u := Next(cfg, w, BeginsStop(a));
    StepKeepsInv(cfg, w, BeginsStop(a));
    v := Next(cfg, u, Asks(a, q));
    StepKeepsInv(cfg, u, Asks(a, q));
    TwoSteps(cfg, w, BeginsStop(a), Asks(a, q));
  }

  lemma TwoSteps(cfg: Config, w: World, x: Event, y: Event)
    requires Enabled(cfg, w, x) && Enabled(cfg, Next(cfg, w, x), y)
    ensures Runs(cfg, w, [x, y], Next(cfg, Next(cfg, w, x), y))
  {
    var v := Next(cfg, w, x);
    assert [x, y][1..] == [y] && [y][1..] == [];
    assert Runs(cfg, Next(cfg, v, y), [], Next(cfg, v, y));
    assert Runs(cfg, v, [y], Next(cfg, v, y));
  }

  /** The coordinator lets it go. */
  lemma IsLetGo(cfg: Config, w: World, a: Identity, q: RequestId) returns (v: World)
    requires Inv(cfg, w) && a in w.nodes && a in w.c.tokens && w.c.work.Free? && Leave(a, w.c.tokens[a], q) in w.net
    ensures Runs(cfg, w, [OnLeave(Leave(a, w.c.tokens[a], q)), FinishesLeave], v) && Inv(cfg, v)
    ensures v.nodes == w.nodes && a in v.c.members && v.c.members[a].status.Left? && w.c.revision < v.c.revision
    ensures LeaveAck(a, q, v.c.revision, v.c.members) in v.net
  {
    hide Inv, CInv, Next, Enabled;
    var k := Leave(a, w.c.tokens[a], q);
    Parts(cfg, w);
    LeaveIsHandled(cfg, w, a, q);
    StepKeepsInv(cfg, w, OnLeave(k));
    var u := Next(cfg, w, OnLeave(k));
    LeaveIsFinished(cfg, u);
    StepKeepsInv(cfg, u, FinishesLeave);
    v := Next(cfg, u, FinishesLeave);
    TwoSteps(cfg, w, OnLeave(k), FinishesLeave);
  }

  lemma LeaveIsHandled(cfg: Config, w: World, a: Identity, q: RequestId)
    requires CInv(cfg, w.c) && a in w.c.tokens && w.c.work.Free? && Leave(a, w.c.tokens[a], q) in w.net
    ensures Enabled(cfg, w, OnLeave(Leave(a, w.c.tokens[a], q)))
    ensures var u := Next(cfg, w, OnLeave(Leave(a, w.c.tokens[a], q)));
            && u.nodes == w.nodes && u.c.work == FinishLeave(a, q) && a in u.c.members
            && !u.c.members[a].status.Left? && w.c.revision <= u.c.revision
  {
    assert KeysAt(cfg, w.c, a);
    hide CInv;
  }

  lemma LeaveIsFinished(cfg: Config, w: World)
    requires w.c.work.FinishLeave? && w.c.work.who in w.c.members && !w.c.members[w.c.work.who].status.Left?
    ensures Enabled(cfg, w, FinishesLeave)
    ensures var v, i := Next(cfg, w, FinishesLeave), w.c.work.who;
            && v.nodes == w.nodes && i in v.c.members && v.c.members[i].status.Left?
            && v.c.revision == w.c.revision + 1
            && LeaveAck(i, w.c.work.request, v.c.revision, v.c.members) in v.net
  {
    hide Replace, Revoke;
    var c, i := w.c, w.c.work.who;
    ReplaceIs(c.(revision := c.revision + 1), i, c.members[i].(status := Left));
    RevokeIs(Departed(c, i), i, i);
  }

  /** The acknowledgement arrives. */
  lemma TakesLeave(cfg: Config, w: World, a: Identity, q: RequestId) returns (v: World)
    requires Inv(cfg, w) && a in w.nodes && a in w.nodes[a].members && w.nodes[a].members[a].status.Leaving?
    requires w.nodes[a].contacted && w.nodes[a].leaveRequest == Some(q) && w.nodes[a].revision < w.c.revision
    requires a in w.c.members && w.c.members[a].status.Left? && LeaveAck(a, q, w.c.revision, w.c.members) in w.net
    ensures Runs(cfg, w, [OnLeaveAck(LeaveAck(a, q, w.c.revision, w.c.members))], v) && ShowsLeaving(v, a)
  {
    hide Inv, HistInv, NodeInv, Honest, Rejected;
    var k := LeaveAck(a, q, w.c.revision, w.c.members);
    Receiver(cfg, w, k);
    AcceptedIff(cfg, w.hist, w.c, a, w.nodes[a], w.c.revision, w.c.members);
    v := Next(cfg, w, OnLeaveAck(k));
    assert [OnLeaveAck(k)][1..] == [];
    assert Runs(cfg, v, [], v);
  }

  lemma {:induction false} RunsJoin(cfg: Config, w0: World, evs: seq<Event>, w: World, more: seq<Event>, v: World)
    requires Runs(cfg, w0, evs, w) && Runs(cfg, w, more, v)
    ensures Runs(cfg, w0, evs + more, v)
    decreases |evs|
  {
    hide Next, Enabled;
    if evs == [] {
      assert evs + more == more;
    } else {
      RunsJoin(cfg, Next(cfg, w0, evs[0]), evs[1..], w, more, v);
      assert (evs + more)[1..] == evs[1..] + more && (evs + more)[0] == evs[0];
    }
  }

  /** Every graceful leave can pass through a state in which the leaving member itself contradicts the rule that an
      identity that has left is shown as left at that revision. */
  lemma LeavingMemberShowsLeaving(cfg: Config, w: World, a: Identity, q: RequestId)
    requires Serves(cfg, w, a)
    ensures exists evs, v :: Runs(cfg, w, evs, v) && ShowsLeaving(v, a)
  {
    hide Inv, Next, Enabled;
    var w1 := AsksToLeave(cfg, w, a, q);
    var w2 := IsLetGo(cfg, w1, a, q);
    KnownBy(cfg, w1, a);
    var w3 := TakesLeave(cfg, w2, a, q);
    var x, y := [BeginsStop(a), Asks(a, q)], [OnLeave(Leave(a, w1.c.tokens[a], q)), FinishesLeave];
    RunsJoin(cfg, w, x, w1, y, w2);
    RunsJoin(cfg, w, x + y, w2, [OnLeaveAck(LeaveAck(a, q, w2.c.revision, w2.c.members))], w3);
  }

  lemma KnownBy(cfg: Config, w: World, a: Identity)
    requires Inv(cfg, w) && a in w.nodes
    ensures w.nodes[a].revision <= w.c.revision
  {
    assert NodeInv(cfg, w.hist, a, w.nodes[a]);
  }

  // ----- Until it closes itself -----

  predicate ClosedAt(w: World, a: Identity) {
    a in w.nodes && w.nodes[a].stage.Closed?
  }

  lemma ApplyKeepsStage(cfg: Config, self: Identity, p: Participant, revision: nat, table: Members)
    requires self in p.members
    ensures Apply(cfg, self, p, revision, table).0.stage == p.stage
  {
    hide Rejected, Own, Dropped;
  }

  lemma HearingKeepsStage(cfg: Config, self: Identity, p: Participant, now: int)
    ensures FinishJoin(self, SeeCoordinator(cfg, p, now)).stage == p.stage
  {
  }

  lemma MessagesKeepStage(cfg: Config, w: World, ev: Event)
    requires Enabled(cfg, w, ev) && ToNode(ev)
    ensures var to, v := ev.packet.to, Next(cfg, w, ev); to in v.nodes && v.nodes[to].stage == w.nodes[to].stage
  {
    hide Apply, FinishJoin, SeeCoordinator;
    var k := ev.packet;
    var p := w.nodes[k.to];
    ApplyKeepsStage(cfg, k.to, p, k.revision, k.table);
    var q := Apply(cfg, k.to, p, k.revision, k.table).0;
    if ev.OnHeartbeatAck? { HearingKeepsStage(cfg, k.to, q.(acked := k.sequence), w.clock); }
    if ev.OnUpdate? { HearingKeepsStage(cfg, k.to, q, w.clock); }
  }

  lemma OwnStepsClose(cfg: Config, w: World, ev: Event)
    requires Enabled(cfg, w, ev) && OfNode(ev)
    ensures ClosedAt(Next(cfg, w, ev), ev.id) <==> ClosedAt(w, ev.id) || ev.Closes?
  {
  }

  lemma OthersStay(cfg: Config, w: World, ev: Event, a: Identity)
    requires Enabled(cfg, w, ev) && !ToNode(ev) && !OfNode(ev) && a !in w.nodes
    ensures !ClosedAt(Next(cfg, w, ev), a)
  {
    hide Join, Confirm, Beat, MayBeat, BeginLeave, EndLeave, Expire, Detect, Down, SelfMoves, Updates;
  }

  lemma NoNewNodes(cfg: Config, w: World, ev: Event, a: Identity)
    requires Enabled(cfg, w, ev) && (ToNode(ev) || OfNode(ev)) && a !in w.nodes
    ensures a !in Next(cfg, w, ev).nodes
  {
    hide Accepted, Acked, Updated, LeaveAcked, Doubt, Close, AskToLeave, BeginStop, Contact;
  }

  lemma StepClosesIff(cfg: Config, w: World, ev: Event, a: Identity)
    requires Enabled(cfg, w, ev)
    ensures ClosedAt(Next(cfg, w, ev), a) <==> ClosedAt(w, a) || ev == Closes(a)
  {
    hide Next, Enabled;
    if ev == Closes(a) { IsOwn(cfg, w, ev, a); }
    if a !in w.nodes {
      if ToNode(ev) || OfNode(ev) { NoNewNodes(cfg, w, ev, a); } else { OthersStay(cfg, w, ev, a); }
    } else if ToNode(ev) {
      if Takes(ev, a) { MessagesKeepStage(cfg, w, ev); } else { MessageTouchesOne(cfg, w, ev, a); }
    } else if OfNode(ev) {
      if Takes(ev, a) { OwnStepsClose(cfg, w, ev); } else { StepTouchesOne(cfg, w, ev, a); }
    } else {
      RestTouchesNone(cfg, w, ev, a);
    }
  }

  lemma IsOwn(cfg: Config, w: World, ev: Event, a: Identity)
    requires Enabled(cfg, w, ev) && ev == Closes(a)
    ensures a in w.nodes
  {
  }

  lemma {:induction false} ClosedIff(cfg: Config, w0: World, evs: seq<Event>, w: World, a: Identity)
    requires Runs(cfg, w0, evs, w)
    ensures ClosedAt(w, a) <==> ClosedAt(w0, a) || Closes(a) in evs
    decreases |evs|
  {
    hide Next, Enabled;
    if evs != [] {
      StepClosesIff(cfg, w0, evs[0], a);
      ClosedIff(cfg, Next(cfg, w0, evs[0]), evs[1..], w, a);
      assert evs == [evs[0]] + evs[1..];
    }
  }

  /** The rule for the member's own entry, exactly: at a revision at which the coordinator has it as left, it shows
      itself as left if and only if it has closed itself in the run, as it does when its leave was acknowledged or it
      gave up waiting; until then it shows leaving. */
  lemma OwnEntryIsLeftIff(cfg: Config, now: nat, evs: seq<Event>, w: World, a: Identity)
    requires Reachable(cfg, now, evs, w) && a in w.nodes && a in w.c.members
    requires w.nodes[a].revision == w.c.revision && w.c.members[a].status.Left?
    ensures a in w.nodes[a].members
    ensures w.nodes[a].members[a].status == if Closes(a) in evs then Left else Leaving
  {
    ReachableInv(cfg, now, evs, w);
    ClosedIff(cfg, Init(cfg, now), evs, w, a);
    assert NodeInv(cfg, w.hist, a, w.nodes[a]);
    assert ShownAt(cfg, a, w.nodes[a].members, w.c.members, a);
  }

  // ----- Such members exist -----

  lemma Arrives(cfg: Config, now: nat, a: Identity, endpoint: Endpoint, q: RequestId, ref: nat) returns (w: World)
    requires cfg.Valid() && a.name != cfg.coordinator.name
    ensures Runs(cfg, Init(cfg, now), [NewNode(a, endpoint), Contacts(a, q, ref)], w) && Inv(cfg, w)
    ensures w.c == Formed(cfg, now) && a in w.nodes && w.nodes[a] == Contact(Fresh(a, endpoint), q) && w.issued == {}
    ensures JoinRequest(a, endpoint, q, ref) in w.net
  {
    InitInv(cfg, now);
    hide Inv;
    var w0 := Init(cfg, now);
    var w1 := Next(cfg, w0, NewNode(a, endpoint));
    StepKeepsInv(cfg, w0, NewNode(a, endpoint));
    w := Next(cfg, w1, Contacts(a, q, ref));
    StepKeepsInv(cfg, w1, Contacts(a, q, ref));
    TwoSteps(cfg, w0, NewNode(a, endpoint), Contacts(a, q, ref));
  }

  lemma FirstJoin(cfg: Config, now: nat, a: Identity, endpoint: Endpoint, q: RequestId, ref: nat, t: Token, time: nat)
    requires cfg.memberLimit >= 2 && a.name != cfg.coordinator.name
    requires a.name in cfg.peers && cfg.peers[a.name] == endpoint
    ensures var (d, answered) := Join(cfg, Formed(cfg, now), a, endpoint, q, ref, t, time);
            && answered && d.work.Free? && a in d.tokens && d.tokens[a] == t && d.revision == 2
            && a in d.members && d.members[a].status.Joining?
  {
    var c := Formed(cfg, now);
    assert |c.members| == 1;
    EnterIs(cfg, c, a, endpoint, q, ref, t, time, a);
  }

  lemma IsAnswered(cfg: Config, now: nat, w: World, a: Identity, endpoint: Endpoint, q: RequestId, ref: nat, t: Token)
    requires cfg.memberLimit >= 2 && a.name != cfg.coordinator.name
    requires a.name in cfg.peers && cfg.peers[a.name] == endpoint
    requires w.c == Formed(cfg, now) && JoinRequest(a, endpoint, q, ref) in w.net && w.issued == {}
    ensures var x := OnJoinRequest(JoinRequest(a, endpoint, q, ref), t, true);
            && Enabled(cfg, w, x)
            && var u := Next(cfg, w, x);
               && JoinAccepted(a, q, t, u.c.revision, u.c.members) in u.net && u.nodes == w.nodes
               && a in u.c.tokens && u.c.tokens[a] == t && u.c.work.Free? && u.c.revision > 0
               && a in u.c.members && u.c.members[a].status.Joining?
  {
    FirstJoin(cfg, now, a, endpoint, q, ref, t, w.clock);
    hide Join;
  }

  lemma IsAdmitted(cfg: Config, now: nat, w: World, a: Identity, endpoint: Endpoint, q: RequestId, ref: nat, t: Token)
    returns (v: World)
    requires Inv(cfg, w) && cfg.memberLimit >= 2 && a.name != cfg.coordinator.name
    requires a.name in cfg.peers && cfg.peers[a.name] == endpoint
    requires w.c == Formed(cfg, now) && a in w.nodes && w.nodes[a] == Contact(Fresh(a, endpoint), q)
    requires JoinRequest(a, endpoint, q, ref) in w.net && w.issued == {}
    ensures exists evs :: Runs(cfg, w, evs, v)
    ensures Serves(cfg, v, a)
  {
    hide Inv, Next, Enabled, Formed;
    var x := OnJoinRequest(JoinRequest(a, endpoint, q, ref), t, true);
    IsAnswered(cfg, now, w, a, endpoint, q, ref, t);
    StepKeepsInv(cfg, w, x);
    var u := Next(cfg, w, x);
    var y := OnJoinAccepted(JoinAccepted(a, q, t, u.c.revision, u.c.members));
    IsAccepted(cfg, u, a, q, t);
    StepKeepsInv(cfg, u, y);
    v := Next(cfg, u, y);
    TwoSteps(cfg, w, x, y);
  }

  lemma IsAccepted(cfg: Config, w: World, a: Identity, q: RequestId, t: Token)
    requires Inv(cfg, w) && a in w.nodes && w.nodes[a].joinRequest == Some(q) && w.nodes[a].contacted
    requires w.nodes[a].revision == 0 && w.nodes[a].stage.Serving? && w.nodes[a].snapshot.None?
    requires a in w.nodes[a].members && w.nodes[a].members[a].status.Joining?
    requires a in w.c.members && w.c.members[a].status.Joining? && w.c.revision > 0
    requires JoinAccepted(a, q, t, w.c.revision, w.c.members) in w.net
    ensures var y := OnJoinAccepted(JoinAccepted(a, q, t, w.c.revision, w.c.members));
            && Enabled(cfg, w, y)
            && var v := Next(cfg, w, y);
               && v.c == w.c && a in v.nodes && a in v.nodes[a].members && v.nodes[a].members[a].status.Joining?
               && v.nodes[a].stage.Serving? && v.nodes[a].contacted && v.nodes[a].token == Some(t)
  {
    hide Inv, HistInv, NodeInv, Honest, Rejected;
    Receiver(cfg, w, JoinAccepted(a, q, t, w.c.revision, w.c.members));
    AcceptedIff(cfg, w.hist, w.c, a, w.nodes[a], w.c.revision, w.c.members);
  }

  /** The rule that what has left is shown as left fails for a member's own entry, in every cluster that admits a
      second member. */
  lemma OwnEntryCanShowLeaving(cfg: Config, now: nat, a: Identity, q: RequestId, t: Token)
    requires cfg.Valid() && cfg.memberLimit >= 2 && a.name != cfg.coordinator.name && a.name in cfg.peers
    ensures exists evs, w :: Reachable(cfg, now, evs, w) && ShowsLeaving(w, a)
  {
    hide Inv, Next, Enabled, Formed, Fresh, Contact;
    var endpoint := cfg.peers[a.name];
    var w1 := Arrives(cfg, now, a, endpoint, q, 0);
    var w2 := IsAdmitted(cfg, now, w1, a, endpoint, q, 0, t);
    var y :| Runs(cfg, w1, y, w2);
    LeavingMemberShowsLeaving(cfg, w2, a, q);
    var z, w3 :| Runs(cfg, w2, z, w3) && ShowsLeaving(w3, a);
    var x := [NewNode(a, endpoint), Contacts(a, q, 0)];
    RunsJoin(cfg, Init(cfg, now), x, w1, y, w2);
    RunsJoin(cfg, Init(cfg, now), x + y, w2, z, w3);
    assert Reachable(cfg, now, x + y + z, w3);
  }
}
