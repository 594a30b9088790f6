/** What holds in every reachable state of a cluster. */
module ClusterTheorems {
  import opened Basics
  import opened ClusterCoordinator
  import opened ClusterBookkeeping
  import opened ClusterParticipant
  import opened ClusterRuns
  import opened ClusterInvariant
  import opened ClusterViews
  import opened ClusterSteps
  import opened ClusterJoins
  import opened ClusterContacts

  // ----- Event by event: the participants -----

  lemma Receiver(cfg: Config, w: World, k: Packet)
    requires Inv(cfg, w) && k in w.net && FromCoordinator(k) && k.to in w.nodes
    ensures HistInv(cfg, w.hist, w.c) && NodeInv(cfg, w.hist, k.to, w.nodes[k.to])
    ensures Honest(w.hist, k.to, w.nodes[k.to].endpoint, k.revision, k.table)
    ensures k.to in k.table && (k.table[k.to].status.Left? ==> k.LeaveAck?)
    ensures k.JoinAccepted? ==> (k.to, k.token, k.revision) in w.grants
  {
    assert PacketOk(cfg, w.hist, w.nodes, k) && ConfirmAt(w, k);
  }

  lemma ReceptionKeeps(cfg: Config, w: World, ev: Event)
    requires Inv(cfg, w) && Enabled(cfg, w, ev) && (ev.OnHeartbeatAck? || ev.OnUpdate? || ev.OnLeaveAck?)
    ensures Inv(cfg, Next(cfg, w, ev))
  {
    hide Inv, HistInv, NodeInv, Honest, Acked, Updated, LeaveAcked;
    var k := ev.packet;
    Receiver(cfg, w, k);
    var p := w.nodes[k.to];
    if ev.OnHeartbeatAck? {
      AckedKeeps(cfg, w.hist, w.c, k.to, p, k.token, k.sequence, k.revision, k.table, w.clock);
      NodeStepKeeps(cfg, w, k.to, Acked(cfg, k.to, p, k.token, k.sequence, k.revision, k.table, w.clock), {});
    } else if ev.OnUpdate? {
      UpdatedKeeps(cfg, w.hist, w.c, k.to, p, k.token, k.revision, k.table, w.clock);
      NodeStepKeeps(cfg, w, k.to, Updated(cfg, k.to, p, k.token, k.revision, k.table, w.clock), {});
    } else {
      LeaveAckedKeeps(cfg, w.hist, w.c, k.to, p, k.request, k.revision, k.table);
      NodeStepKeeps(cfg, w, k.to, LeaveAcked(cfg, k.to, p, k.request, k.revision, k.table), {});
    }
  }

  lemma AcceptingKeeps(cfg: Config, w: World, k: Packet)
    requires Inv(cfg, w) && k in w.net && k.JoinAccepted? && k.to in w.nodes && k.to in w.nodes[k.to].members
    ensures Inv(cfg, Accepting(cfg, w, k))
  {
    hide Inv, HistInv, NodeInv, Honest, Accepted;
    Receiver(cfg, w, k);
    var p := w.nodes[k.to];
    AcceptedKeeps(cfg, w.hist, w.c, k.to, p, k.request, k.token, k.revision, k.table, w.clock);
    var (q, confirms) := Accepted(cfg, k.to, p, k.request, k.token, k.revision, k.table, w.clock);
    NodeStepKeeps(cfg, w, k.to, q, if confirms then {JoinConfirm(k.to, k.request, k.token, k.revision)} else {});
  }

  lemma NodeOf(cfg: Config, w: World, id: Identity)
    requires Inv(cfg, w) && id in w.nodes
    ensures NodeInv(cfg, w.hist, id, w.nodes[id])
  {
  }

  lemma StoppingKeeps(cfg: Config, hist: map<nat, Point>, id: Identity, p: Participant)
    requires NodeInv(cfg, hist, id, p) && p.stage.Serving?
    ensures NodeInv(cfg, hist, id, BeginStop(id, p))
  {
    hide Honest, ShownAt;
  }

  lemma ContactKeeps(cfg: Config, hist: map<nat, Point>, id: Identity, p: Participant, request: RequestId)
    requires NodeInv(cfg, hist, id, p)
    ensures NodeInv(cfg, hist, id, Contact(p, request))
  {
    hide Honest, ShownAt;
  }

  lemma ServingStepKeeps(cfg: Config, w: World, ev: Event)
    requires Inv(cfg, w) && Enabled(cfg, w, ev) && (ev.Contacts? || ev.Beats? || ev.Doubts?)
    ensures Inv(cfg, Next(cfg, w, ev))
  {
    hide Inv, NodeInv;
    var p := w.nodes[ev.id];
    NodeOf(cfg, w, ev.id);
    match ev {
      case Contacts(id, request, ref) =>
        ContactKeeps(cfg, w.hist, id, p, request);
        NodeStepKeeps(cfg, w, id, Contact(p, request), {JoinRequest(id, p.endpoint, request, ref)});
      case Beats(id) =>
        PlainKeeps(cfg, w.hist, id, p, p.(sequence := p.sequence + 1));
        NodeStepKeeps(cfg, w, id, p.(sequence := p.sequence + 1), {Heartbeat(id, p.token.value, p.sequence)});
      case Doubts(id) =>
        if cfg.coordinator in p.members { VerdictKeeps(cfg, w.hist, id, p, false); }
        NodeStepKeeps(cfg, w, id, Doubt(cfg, p, w.clock), {});
    }
  }

  lemma LeavingStepKeeps(cfg: Config, w: World, ev: Event)
    requires Inv(cfg, w) && Enabled(cfg, w, ev) && (ev.BeginsStop? || ev.Asks? || ev.Closes?)
    ensures Inv(cfg, Next(cfg, w, ev))
  {
    hide Inv, NodeInv;
    var p := w.nodes[ev.id];
    NodeOf(cfg, w, ev.id);
    match ev {
      case BeginsStop(id) =>
        StoppingKeeps(cfg, w.hist, id, p);
        NodeStepKeeps(cfg, w, id, BeginStop(id, p), {});
      case Asks(id, request) =>
        OwnStatusKeeps(cfg, w.hist, id, p, Leaving, AskToLeave(id, p, request));
        NodeStepKeeps(cfg, w, id, AskToLeave(id, p, request),
                      if p.token.Some? then {Leave(id, p.token.value, request)} else {});
      case Closes(id) =>
        OwnStatusKeeps(cfg, w.hist, id, p, Left, Close(id, p));
        NodeStepKeeps(cfg, w, id, Close(id, p), {});
    }
  }

  // ----- Every step -----

  lemma FreshNode(cfg: Config, hist: map<nat, Point>, id: Identity, endpoint: Endpoint)
    requires id.name != cfg.coordinator.name
    ensures NodeInv(cfg, hist, id, Fresh(id, endpoint))
  {
  }

  lemma NewNodeKeeps(cfg: Config, w: World, id: Identity, endpoint: Endpoint)
    requires Inv(cfg, w) && id !in w.nodes && id.name != cfg.coordinator.name
    ensures Inv(cfg, w.(nodes := w.nodes[id := Fresh(id, endpoint)]))
  {
    hide CInv, HistInv, NodeInv, Honest;
    FreshNode(cfg, w.hist, id, endpoint);
    var v := w.(nodes := w.nodes[id := Fresh(id, endpoint)]);
    forall k | k in v.net ensures PacketOk(cfg, v.hist, v.nodes, k) && ConfirmAt(v, k) {
      assert PacketOk(cfg, w.hist, w.nodes, k) && ConfirmAt(w, k);
    }
    hide PacketOk;
    forall j ensures TokenAt(v, j) && HolderAt(v, j) && ListedAt(cfg, v, j) {
      assert TokenAt(w, j) && HolderAt(w, j) && ListedAt(cfg, w, j);
    }
  }

  /** Time passes, or the coordinator starts to stop. */
  lemma IdleKeeps(cfg: Config, w: World, time: nat, stopping: bool)
    requires Inv(cfg, w) && (w.c.stopping ==> stopping)
    ensures Inv(cfg, w.(clock := time, c := w.c.(stopping := stopping)))
  {
    hide NodeInv, PacketOk, GoodPoint, Later;
    var v := w.(clock := time, c := w.c.(stopping := stopping));
    forall j ensures KeysAt(cfg, v.c, j) && WorkAt(cfg, v.c, j) && ListedAt(cfg, v, j) {
      assert KeysAt(cfg, w.c, j) && WorkAt(cfg, w.c, j) && ListedAt(cfg, w, j);
    }
    forall j ensures TokenAt(v, j) && HolderAt(v, j) { assert TokenAt(w, j) && HolderAt(w, j); }
    forall g | g in v.grants ensures GrantAt(v.c, v.since, v.issued, g) {
      assert GrantAt(w.c, w.since, w.issued, g);
    }
    forall q | q in v.net ensures ConfirmAt(v, q) { assert ConfirmAt(w, q); }
  }

  lemma StepKeepsInv(cfg: Config, w: World, ev: Event)
    requires Inv(cfg, w) && Enabled(cfg, w, ev)
    ensures Inv(cfg, Next(cfg, w, ev))
  {
    hide Inv;
    match ev {
      case Tick(time) => IdleKeeps(cfg, w, time, w.c.stopping);
      case NewNode(id, endpoint) => NewNodeKeeps(cfg, w, id, endpoint);
      case OnJoinRequest(k, token, delivered) => JoiningKeeps(cfg, w, k, token, delivered);
      case Undo => ExpiresKeeps(cfg, w, w.c.work.who, w.c.work.request, Next(cfg, w, ev).c);
      case OnJoinConfirm(k) => ConfirmKeepsInv(cfg, w, k);
      case OnHeartbeat(k) => HeartbeatKeeps(cfg, w, k);
      case OnLeave(k) => LeaveKeeps(cfg, w, k);
      case FinishesLeave => FinishesLeaveKeeps(cfg, w);
      case Expires(id) => ExpiresKeeps(cfg, w, id, w.c.pending[id].request, Next(cfg, w, ev).c);
      case Detects => DetectsKeeps(cfg, w);
      case Downs(id) => DownsKeeps(cfg, w, id);
      case Stops => IdleKeeps(cfg, w, w.clock, true);
      case SelfLeaves(status) => SelfLeavesKeeps(cfg, w, status);
      case Broadcasts(exclude) => UpdatesKeep(cfg, w, exclude);
      case OnJoinAccepted(k) => AcceptingKeeps(cfg, w, k);
      case OnHeartbeatAck(_) => ReceptionKeeps(cfg, w, ev);
      case OnUpdate(_) => ReceptionKeeps(cfg, w, ev);
      case OnLeaveAck(_) => ReceptionKeeps(cfg, w, ev);
      case BeginsStop(_) => LeavingStepKeeps(cfg, w, ev);
      case Asks(_, _) => LeavingStepKeeps(cfg, w, ev);
      case Closes(_) => LeavingStepKeeps(cfg, w, ev);
      case _ => ServingStepKeeps(cfg, w, ev);
    }
  }

  lemma InitInv(cfg: Config, now: nat)
    requires cfg.Valid()
    ensures Inv(cfg, Init(cfg, now))
  {
    var w := Init(cfg, now);
    forall i ensures KeysAt(cfg, w.c, i) && WorkAt(cfg, w.c, i) && ListedWell(cfg, PointOf(w.c), i) { }
    forall i, j ensures !Rivals(w.c.members, i, j) { }
  }

  lemma {:induction false} RunsKeepInv(cfg: Config, w0: World, evs: seq<Event>, w: World)
    requires Inv(cfg, w0) && Runs(cfg, w0, evs, w)
    ensures Inv(cfg, w)
    decreases |evs|
  {
    hide Inv, Next, Enabled;
    if evs != [] {
      StepKeepsInv(cfg, w0, evs[0]);
      RunsKeepInv(cfg, Next(cfg, w0, evs[0]), evs[1..], w);
    }
  }

  lemma ReachableInv(cfg: Config, now: nat, evs: seq<Event>, w: World)
    requires Reachable(cfg, now, evs, w)
    ensures Inv(cfg, w)
  {
    hide Inv;
    InitInv(cfg, now);
    RunsKeepInv(cfg, Init(cfg, now), evs, w);
  }

  // ----- The history is never rewritten -----

  lemma StepExtends(cfg: Config, w: World, ev: Event)
    requires Inv(cfg, w) && Enabled(cfg, w, ev)
    ensures Extends(w.hist, Next(cfg, w, ev).hist)
  {
    hide Inv, CInv, Next, Moves, Enabled;
    StepMoves(cfg, w, ev);
    var v := Next(cfg, w, ev);
    if v.hist != w.hist { HistoryStep(cfg, w, v.c); }
  }

  lemma HistoryStep(cfg: Config, w: World, d: Coordinator)
    requires Inv(cfg, w) && CInv(cfg, d) && Moves(w.c, d)
    ensures Extends(w.hist, w.hist[d.revision := PointOf(d)])
  {
    HistGrows(cfg, w.hist, w.c, d);
  }

  /** The coordinator moves, and what it has become is what is recorded. */
  ghost predicate StepsTo(w: World, v: World) {
    Moves(w.c, v.c) && (v.hist == w.hist || v.hist == w.hist[v.c.revision := PointOf(v.c)])
  }

  lemma JoinMoves(cfg: Config, w: World, ev: Event)
    requires Inv(cfg, w) && Enabled(cfg, w, ev) && ev.OnJoinRequest?
    ensures StepsTo(w, Next(cfg, w, ev))
  {
    hide Inv, CInv, Moves, Join, Later;
    Parts(cfg, w);
    var k := ev.packet;
    Sender(cfg, w, k);
    JoinKeeps(cfg, w.c, k.from, k.endpoint, k.request, k.ref, ev.token, w.clock);
    WorkIsInvisible(w.c, Join(cfg, w.c, k.from, k.endpoint, k.request, k.ref, ev.token, w.clock).0,
                    Next(cfg, w, ev).c);
  }

  lemma MessageMoves(cfg: Config, w: World, ev: Event)
    requires Inv(cfg, w) && Enabled(cfg, w, ev) && (ev.OnJoinConfirm? || ev.OnHeartbeat? || ev.OnLeave?)
    ensures StepsTo(w, Next(cfg, w, ev))
  {
    hide Inv, CInv, Moves, Confirm, Beat, BeginLeave, MayBeat;
    Parts(cfg, w);
    var k := ev.packet;
    Sender(cfg, w, k);
    if ev.OnJoinConfirm? {
      ConfirmKeeps(cfg, w.c, k.from, k.request, k.token, w.clock);
    } else if ev.OnHeartbeat? {
      BeatKeeps(cfg, w.c, k.from, k.token, k.sequence, w.clock);
    } else {
      BeginLeaveKeeps(cfg, w.c, k.from, k.token, k.request);
    }
  }

  lemma WorkMoves(cfg: Config, w: World, ev: Event)
    requires Inv(cfg, w) && Enabled(cfg, w, ev) && (ev.Undo? || ev.Expires? || ev.FinishesLeave?)
    ensures StepsTo(w, Next(cfg, w, ev))
  {
    hide Inv, CInv, Moves, Expire, EndLeave;
    Parts(cfg, w);
    if ev.Undo? {
      ExpireKeeps(cfg, w.c, w.c.work.who, w.c.work.request);
      WorkIsInvisible(w.c, Expire(w.c, w.c.work.who, w.c.work.request), Next(cfg, w, ev).c);
    } else if ev.Expires? {
      ExpireKeeps(cfg, w.c, ev.id, w.c.pending[ev.id].request);
    } else {
      EndLeaveKeeps(cfg, w.c);
    }
  }

  lemma OwnMoves(cfg: Config, w: World, ev: Event)
    requires Inv(cfg, w) && Enabled(cfg, w, ev) && (ev.Detects? || ev.Downs? || ev.SelfLeaves? || ev.Stops?)
    ensures StepsTo(w, Next(cfg, w, ev))
  {
    hide Inv, CInv, Moves, Detect, Down, SelfMoves;
    Parts(cfg, w);
    StillIsQuiet(w.c);
    if ev.Detects? {
      DetectKeeps(cfg, w.c, w.clock);
    } else if ev.Downs? {
      DownKeeps(cfg, w.c, ev.id);
    } else if ev.SelfLeaves? {
      SelfMovesKeeps(cfg, w.c, ev.status);
    } else {
      WorkIsInvisible(w.c, w.c, Next(cfg, w, ev).c);
    }
  }

  /** The events of the coordinator that change its tables. */
  predicate OfTables(ev: Event) {
    || ev.OnJoinRequest? || ev.OnJoinConfirm? || ev.OnHeartbeat? || ev.OnLeave? || ev.Undo? || ev.Expires?
    || ev.FinishesLeave? || ev.Detects? || ev.Downs? || ev.SelfLeaves? || ev.Stops?
  }

  lemma OtherMoves(cfg: Config, w: World, ev: Event)
    requires Enabled(cfg, w, ev) && !OfTables(ev)
    ensures Next(cfg, w, ev).c == w.c && Next(cfg, w, ev).hist == w.hist
  {
  }

  /** Between the tables of two consecutive states nothing wire-visible changes, or the revision grows. */
  lemma StepMoves(cfg: Config, w: World, ev: Event)
    requires Inv(cfg, w) && Enabled(cfg, w, ev)
    ensures CInv(cfg, Next(cfg, w, ev).c) && StepsTo(w, Next(cfg, w, ev))
  {
    hide Inv, CInv, Next, Enabled, Moves;
    StepKeepsInv(cfg, w, ev);
    Parts(cfg, Next(cfg, w, ev));
    if ev.OnJoinRequest? {
      JoinMoves(cfg, w, ev);
    } else if ev.OnJoinConfirm? || ev.OnHeartbeat? || ev.OnLeave? {
      MessageMoves(cfg, w, ev);
    } else if ev.Undo? || ev.Expires? || ev.FinishesLeave? {
      WorkMoves(cfg, w, ev);
    } else if OfTables(ev) {
      OwnMoves(cfg, w, ev);
    } else {
      OtherMoves(cfg, w, ev);
      StillIsQuiet(w.c);
    }
  }

  lemma WorkIsInvisible(c: Coordinator, d: Coordinator, e: Coordinator)
    requires Moves(c, d) && PointOf(e) == PointOf(d) && e.revision == d.revision
    ensures Moves(c, e)
  {
    hide Later;
  }

  lemma {:induction false} RunsExtend(cfg: Config, w0: World, evs: seq<Event>, w: World)
    requires Inv(cfg, w0) && Runs(cfg, w0, evs, w)
    ensures Inv(cfg, w) && Extends(w0.hist, w.hist)
    decreases |evs|
  {
    hide Inv, Next, Enabled;
    if evs != [] {
      StepKeepsInv(cfg, w0, evs[0]);
      StepExtends(cfg, w0, evs[0]);
      RunsExtend(cfg, Next(cfg, w0, evs[0]), evs[1..], w);
    }
  }

  // ----- The theorems -----

  /** A revision determines its snapshot: any two packets with one revision carry one table, and it is the
      coordinator's own as long as that revision lasts. */
  lemma RevisionDeterminesSnapshot(cfg: Config, now: nat, evs: seq<Event>, w: World, k: Packet, l: Packet)
    requires Reachable(cfg, now, evs, w)
    requires k in w.net && l in w.net && FromCoordinator(k) && FromCoordinator(l)
    ensures k.revision == l.revision ==> k.table == l.table
    ensures k.revision <= w.c.revision && (k.revision == w.c.revision ==> k.table == w.c.members)
  {
    ReachableInv(cfg, now, evs, w);
    assert PacketOk(cfg, w.hist, w.nodes, k) && PacketOk(cfg, w.hist, w.nodes, l);
  }

  /** A participant's view at a revision is the coordinator's table while it had that revision, except for its own
      leaving or left status and its own verdict on the coordinator's reachability. */
  lemma ViewIsCoordinatorsTable(cfg: Config, now: nat, evs: seq<Event>, w: World, more: seq<Event>, v: World,
                                id: Identity, j: Identity)
    requires Reachable(cfg, now, evs, w) && Runs(cfg, w, more, v)
    requires id in v.nodes && v.nodes[id].revision == w.c.revision
    ensures ShownAt(cfg, id, v.nodes[id].members, w.c.members, j)
  {
    ReachableInv(cfg, now, evs, w);
    RunsExtend(cfg, w, more, v);
    assert w.c.revision in w.hist && w.c.revision >= 1;
    assert NodeInv(cfg, v.hist, id, v.nodes[id]);
  }

  /** A revision is recorded when the coordinator takes it. */
  lemma NewKeyIsCurrent(cfg: Config, w: World, ev: Event, revision: nat)
    requires Enabled(cfg, w, ev) && revision in Next(cfg, w, ev).hist && revision !in w.hist
    ensures revision == Next(cfg, w, ev).c.revision
  {
    hide Accepted, Acked, Updated, LeaveAcked, Doubt, Close, AskToLeave, BeginStop, Contact;
    hide Join, Confirm, Beat, MayBeat, BeginLeave, EndLeave, Expire, Detect, Down, SelfMoves, Updates;
  }

  /** Every revision in the history was the coordinator's at some point of the run. */
  lemma {:induction false} RevisionHappened(cfg: Config, w0: World, evs: seq<Event>, v: World, revision: nat)
    returns (k: nat, w: World)
    requires Runs(cfg, w0, evs, v) && revision in v.hist && (revision in w0.hist ==> revision == w0.c.revision)
    ensures k <= |evs| && Runs(cfg, w0, evs[..k], w) && Runs(cfg, w, evs[k..], v) && w.c.revision == revision
    decreases |evs|
  {
    hide Next, Enabled;
    if revision == w0.c.revision {
      k, w := 0, w0;
      assert evs[..0] == [] && evs[0..] == evs;
    } else {
      assert evs != [];
      var w1 := Next(cfg, w0, evs[0]);
      if revision in w1.hist { NewKeyIsCurrent(cfg, w0, evs[0], revision); }
      var j: nat;
      j, w := RevisionHappened(cfg, w1, evs[1..], v, revision);
      k := j + 1;
      assert evs[..k][1..] == evs[1..][..j] && evs[..k][0] == evs[0] && evs[k..] == evs[1..][j..];
    }
  }

  /** Every view is a point of the coordinator's history: there was a moment of the run at which the coordinator had
      the view's revision, and the view shows its table of that moment, but for the two local differences. A
      participant that has seen no table shows only itself. */
  lemma ViewIsAPointOfHistory(cfg: Config, now: nat, evs: seq<Event>, v: World, id: Identity) returns (k: nat, w: World)
    requires Reachable(cfg, now, evs, v) && id in v.nodes
    ensures v.nodes[id].revision == 0 ==> v.nodes[id].members.Keys == {id}
    ensures v.nodes[id].revision > 0 ==>
              && k <= |evs| && Reachable(cfg, now, evs[..k], w) && Runs(cfg, w, evs[k..], v)
              && w.c.revision == v.nodes[id].revision
              && forall j :: ShownAt(cfg, id, v.nodes[id].members, w.c.members, j)
  {
    ReachableInv(cfg, now, evs, v);
    assert NodeInv(cfg, v.hist, id, v.nodes[id]);
    k, w := 0, v;
    if v.nodes[id].revision > 0 {
      hide Inv, NodeInv, ShownAt;
      k, w := RevisionHappened(cfg, Init(cfg, now), evs, v, v.nodes[id].revision);
      forall j ensures ShownAt(cfg, id, v.nodes[id].members, w.c.members, j) {
        ViewIsCoordinatorsTable(cfg, now, evs[..k], w, evs[k..], v, id, j);
      }
    }
  }

  /** Left is final: once the coordinator has seen an identity leave, it never lists it otherwise again, and neither
      does any other participant whose view is as new; the identity itself shows at most that it is leaving. */
  lemma LeftNeverReturns(cfg: Config, now: nat, evs: seq<Event>, w: World, more: seq<Event>, v: World, j: Identity,
                         id: Identity)
    requires Reachable(cfg, now, evs, w) && Runs(cfg, w, more, v)
    requires (j in w.c.members && w.c.members[j].status.Left?) || j in w.c.retired
    ensures j in v.c.members ==> v.c.members[j].status.Left?
    ensures id in v.nodes && w.c.revision <= v.nodes[id].revision && j in v.nodes[id].members ==>
              if id != j then v.nodes[id].members[j].status.Left?
              else v.nodes[id].members[j].status.Left? || v.nodes[id].members[j].status.Leaving?
  {
    ReachableInv(cfg, now, evs, w);
    RunsExtend(cfg, w, more, v);
    assert v.hist[w.c.revision] == PointOf(w.c);
    HistOf(cfg, v);
    GoneAfter(cfg, v, w.c.revision, v.c.revision, j);
    if id in v.nodes && w.c.revision <= v.nodes[id].revision {
      assert NodeInv(cfg, v.hist, id, v.nodes[id]);
      HistOf(cfg, w);
      GoneAfter(cfg, v, w.c.revision, v.nodes[id].revision, j);
      assert ShownAt(cfg, id, v.nodes[id].members, v.nodes[id].snapshot.value, j);
    }
  }

  lemma HistOf(cfg: Config, w: World)
    requires Inv(cfg, w)
    ensures HistInv(cfg, w.hist, w.c) && w.c.revision in w.hist && w.hist[w.c.revision] == PointOf(w.c)
    ensures w.c.revision >= 1
  {
  }

  lemma GoneAfter(cfg: Config, v: World, r: nat, s: nat, j: Identity)
    requires HistInv(cfg, v.hist, v.c) && r in v.hist && s in v.hist && r <= s
    requires (j in v.hist[r].members && v.hist[r].members[j].status.Left?) || j in v.hist[r].retired
    ensures j in v.hist[s].members ==> v.hist[s].members[j].status.Left?
  {
    assert ListedWell(cfg, v.hist[s], j);
    if r < s { assert LaterAt(v.hist[r], v.hist[s], j); }
  }

  /** A snapshot sent to a participant is accepted exactly when it is not older than the view, unless it is newer and
      still lists as active a participant that has already left by its own account. */
  lemma SnapshotAcceptedIff(cfg: Config, now: nat, evs: seq<Event>, w: World, k: Packet)
    requires Reachable(cfg, now, evs, w) && k in w.net && FromCoordinator(k)
    ensures k.to in w.nodes && k.to in w.nodes[k.to].members && k.to in k.table
    ensures var p := w.nodes[k.to];
            Apply(cfg, k.to, p, k.revision, k.table).1
            <==> p.revision == k.revision
                 || (p.revision < k.revision && !(p.members[k.to].status.Left? && !k.table[k.to].status.Left?))
  {
    ReachableInv(cfg, now, evs, w);
    PacketsAreForContacts(cfg, now, evs, w, k);
    hide Apply, Inv, HistInv, Honest, ViewInv;
    Receiver(cfg, w, k);
    AcceptedIff(cfg, w.hist, w.c, k.to, w.nodes[k.to], k.revision, k.table);
  }

  /** Every view lists its owner and at most one active incarnation of a name. */
  lemma ViewsAreValid(cfg: Config, now: nat, evs: seq<Event>, w: World, id: Identity)
    requires Reachable(cfg, now, evs, w)
    ensures cfg.coordinator in w.c.members && OneActive(w.c.members)
    ensures id in w.nodes ==> id in w.nodes[id].members && OneActive(w.nodes[id].members)
  {
    ReachableInv(cfg, now, evs, w);
    if id in w.nodes {
      var p := w.nodes[id];
      assert NodeInv(cfg, w.hist, id, p);
      if p.snapshot.Some? {
        var table := p.snapshot.value;
        assert GoodPoint(cfg, w.hist[p.revision]);
        forall i, j ensures !Rivals(p.members, i, j) {
          assert !Rivals(table, i, j);
          assert ShownAt(cfg, id, p.members, table, i) && ShownAt(cfg, id, p.members, table, j);
          assert SoleAt(table, id, i) && SoleAt(table, id, j);
        }
      }
    }
  }

  /** A member past joining holds the token the coordinator has for it. */
  lemma TokensAgree(cfg: Config, now: nat, evs: seq<Event>, w: World, i: Identity)
    requires Reachable(cfg, now, evs, w)
    requires Active(cfg, w.c.members, i) && !w.c.members[i].status.Joining?
    ensures i in w.c.tokens && i in w.nodes && w.nodes[i].token == Some(w.c.tokens[i])
  {
    ReachableInv(cfg, now, evs, w);
    assert KeysAt(cfg, w.c, i) && TokenAt(w, i) && HolderAt(w, i);
    assert GrantAt(w.c, w.since, w.issued, (i, w.nodes[i].token.value, w.nodes[i].grant));
  }

  /** The coordinator's tables over every run. */
  lemma BookkeepingHolds(cfg: Config, now: nat, evs: seq<Event>, w: World, i: Identity)
    requires Reachable(cfg, now, evs, w)
    ensures |w.c.members| <= cfg.memberLimit && |w.c.retired| <= cfg.retiredLimit
    ensures i in w.c.members ==> i !in w.c.retired
    ensures i in w.c.tokens <==> Active(cfg, w.c.members, i)
    ensures i in w.c.refs <==> i in w.c.tokens
    ensures i in w.c.pending <==> Provisionally(cfg, w.c.members, i)
    ensures w.c.work.FinishLeave? ==> w.c.work.who in w.c.members
  {
    ReachableInv(cfg, now, evs, w);
    assert KeysAt(cfg, w.c, i) && ListedWell(cfg, PointOf(w.c), i);
  }

  /** Statuses only move forward while an identity stays listed, over any number of steps; one that got past joining
      is dropped only by being retired. */
  lemma StatusesMoveForward(cfg: Config, now: nat, evs: seq<Event>, w: World, more: seq<Event>, v: World, i: Identity)
    requires Reachable(cfg, now, evs, w) && Runs(cfg, w, more, v) && i in w.c.members
    ensures if i in v.c.members then Rank(w.c.members[i].status) <= Rank(v.c.members[i].status)
            else w.c.members[i].status.Joining? || i in v.c.retired
  {
    ReachableInv(cfg, now, evs, w);
    RunsExtend(cfg, w, more, v);
    HistOf(cfg, w);
    HistOf(cfg, v);
    assert v.hist[w.c.revision] == PointOf(w.c);
    if w.c.revision < v.c.revision { assert LaterAt(v.hist[w.c.revision], v.hist[v.c.revision], i); }
  }
}
