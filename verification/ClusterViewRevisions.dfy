/** The local view revision that accompanies every published membership snapshot. */
module ClusterViewRevisions {
  import opened ClusterCoordinator
  import opened ClusterParticipant
  import opened ClusterRuns

  /** The view revision never falls, and rises with every change of the members shown. */
  predicate Raised(members: Members, view: nat, members': Members, view': nat) {
    view <= view' && (members != members' ==> view < view')
  }

  predicate NodeRaised(p: Participant, q: Participant) {
    Raised(p.members, p.view, q.members, q.view)
  }

  predicate CoordinatorRaised(c: Coordinator, d: Coordinator) {
    Raised(c.members, c.view, d.members, d.view)
  }

  // ----- Participants -----

  lemma ApplyRaises(cfg: Config, self: Identity, p: Participant, revision: nat, table: Members)
    requires self in p.members
    ensures NodeRaised(p, Apply(cfg, self, p, revision, table).0)
  {
    hide Rejected, Own, Dropped;
  }

  lemma HeardRaises(cfg: Config, self: Identity, p: Participant, now: int)
    ensures NodeRaised(p, FinishJoin(self, SeeCoordinator(cfg, p, now)))
  {
  }

  predicate ToNode(ev: Event) {
    ev.OnJoinAccepted? || ev.OnHeartbeatAck? || ev.OnUpdate? || ev.OnLeaveAck?
  }

  lemma MessageRaises(cfg: Config, w: World, ev: Event)
    requires Enabled(cfg, w, ev) && ToNode(ev)
    ensures var to := ev.packet.to; to in Next(cfg, w, ev).nodes && NodeRaised(w.nodes[to], Next(cfg, w, ev).nodes[to])
  {
    hide Apply, FinishJoin, SeeCoordinator;
    var k := ev.packet;
    var p := w.nodes[k.to];
    ApplyRaises(cfg, k.to, p, k.revision, k.table);
    var q := Apply(cfg, k.to, p, k.revision, k.table).0;
    if ev.OnHeartbeatAck? { HeardRaises(cfg, k.to, q.(acked := k.sequence), w.clock); }
    if ev.OnUpdate? { HeardRaises(cfg, k.to, q, w.clock); }
  }

  lemma OwnStepRaises(cfg: Config, w: World, ev: Event)
    requires Enabled(cfg, w, ev) && OfNode(ev)
    ensures ev.id in Next(cfg, w, ev).nodes && NodeRaised(w.nodes[ev.id], Next(cfg, w, ev).nodes[ev.id])
  {
  }

  lemma NodeStays(p: Participant)
    ensures NodeRaised(p, p)
  {
  }

  /** The participant whose step an event is. */
  predicate Takes(ev: Event, id: Identity) {
    (ToNode(ev) && (ev.packet.JoinAccepted? || ev.packet.HeartbeatAck? || ev.packet.Update? || ev.packet.LeaveAck?)
     && ev.packet.to == id)
    || (OfNode(ev) && ev.id == id)
  }

  lemma MessageTouchesOne(cfg: Config, w: World, ev: Event, id: Identity)
    requires Enabled(cfg, w, ev) && id in w.nodes && ToNode(ev) && !Takes(ev, id)
    ensures id in Next(cfg, w, ev).nodes && Next(cfg, w, ev).nodes[id] == w.nodes[id]
  {
    hide Accepted, Acked, Updated, LeaveAcked;
  }

  lemma StepTouchesOne(cfg: Config, w: World, ev: Event, id: Identity)
    requires Enabled(cfg, w, ev) && id in w.nodes && OfNode(ev) && !Takes(ev, id)
    ensures id in Next(cfg, w, ev).nodes && Next(cfg, w, ev).nodes[id] == w.nodes[id]
  {
    hide Doubt, Close, AskToLeave, BeginStop, Contact;
  }

  lemma RestTouchesNone(cfg: Config, w: World, ev: Event, id: Identity)
    requires Enabled(cfg, w, ev) && id in w.nodes && !ToNode(ev) && !OfNode(ev)
    ensures id in Next(cfg, w, ev).nodes && Next(cfg, w, ev).nodes[id] == w.nodes[id]
  {
    hide Join, Confirm, Beat, MayBeat, BeginLeave, EndLeave, Expire, Detect, Down, SelfMoves, Updates;
  }

  /** What a participant shows never changes under one view revision. */
  lemma ParticipantViewRises(cfg: Config, w: World, ev: Event, id: Identity)
    requires Enabled(cfg, w, ev) && id in w.nodes
    ensures id in Next(cfg, w, ev).nodes && NodeRaised(w.nodes[id], Next(cfg, w, ev).nodes[id])
  {
    hide Next, Enabled, NodeRaised;
    NodeStays(w.nodes[id]);
    if ToNode(ev) {
      if Takes(ev, id) { MessageRaises(cfg, w, ev); } else { MessageTouchesOne(cfg, w, ev, id); }
    } else if OfNode(ev) {
      if Takes(ev, id) { OwnStepRaises(cfg, w, ev); } else { StepTouchesOne(cfg, w, ev, id); }
    } else {
      RestTouchesNone(cfg, w, ev, id);
    }
  }

  // ----- The coordinator -----

  lemma {:induction false} ReserveRaises(cfg: Config, c: Coordinator)
    ensures CoordinatorRaised(c, Reserve(cfg, c).0)
    decreases |c.leftOrder|
  {
    if |c.members| >= cfg.memberLimit && c.leftOrder != [] {
      var i := c.leftOrder[0];
      var popped := c.(leftOrder := c.leftOrder[1..]);
      if !(i in c.members && c.members[i].status.Left?) {
        ReserveRaises(cfg, popped);
      } else if i in c.retired || |c.retired| < cfg.retiredLimit {
        ReserveRaises(cfg, Evicted(popped, i));
      }
    }
  }

  lemma JoinRaises(cfg: Config, c: Coordinator, i: Identity, endpoint: Endpoint, request: RequestId, ref: nat,
                   token: Token, now: nat)
    ensures CoordinatorRaised(c, Join(cfg, c, i, endpoint, request, ref, token, now).0)
  {
    ReserveRaises(cfg, c);
    hide Reserve, SameName;
  }

  lemma DetectRaises(cfg: Config, c: Coordinator, now: nat)
    ensures CoordinatorRaised(c, Detect(cfg, c, now))
  {
    if Overdue(cfg, c, now) == {} { MarkNone(c); }
  }

  lemma ConfirmRaises(c: Coordinator, i: Identity, request: RequestId, token: Token, now: nat)
    ensures CoordinatorRaised(c, Confirm(c, i, request, token, now))
  {
  }

  lemma BeatRaises(c: Coordinator, i: Identity, token: Token, sequence: nat, now: nat)
    ensures CoordinatorRaised(c, Beat(c, i, token, sequence, now))
  {
  }

  lemma BeginLeaveRaises(c: Coordinator, i: Identity, token: Token, request: RequestId)
    ensures CoordinatorRaised(c, BeginLeave(c, i, token, request))
  {
  }

  lemma EndLeaveRaises(c: Coordinator)
    requires c.work.FinishLeave? && c.work.who in c.members
    ensures CoordinatorRaised(c, EndLeave(c))
  {
    hide Without;
  }

  lemma ExpireRaises(c: Coordinator, i: Identity, request: RequestId)
    ensures CoordinatorRaised(c, Expire(c, i, request))
  {
    hide Without;
  }

  lemma DownRaises(cfg: Config, c: Coordinator, i: Identity)
    ensures CoordinatorRaised(c, Down(cfg, c, i).0)
  {
    hide Without;
  }

  lemma SelfMovesRaises(cfg: Config, c: Coordinator, status: Status)
    requires cfg.coordinator in c.members
    ensures CoordinatorRaised(c, SelfMoves(cfg, c, status))
  {
  }

  predicate Asked(ev: Event) {
    ev.OnJoinRequest? || ev.OnJoinConfirm? || ev.OnHeartbeat? || ev.OnLeave?
  }

  lemma MessagesRaise(cfg: Config, w: World, ev: Event)
    requires Enabled(cfg, w, ev) && Asked(ev)
    ensures CoordinatorRaised(w.c, Next(cfg, w, ev).c)
  {
    hide Join, Confirm, Beat, MayBeat, BeginLeave;
    var k := ev.packet;
    if ev.OnJoinRequest? { JoinRaises(cfg, w.c, k.from, k.endpoint, k.request, k.ref, ev.token, w.clock); }
    if ev.OnJoinConfirm? { ConfirmRaises(w.c, k.from, k.request, k.token, w.clock); }
    if ev.OnHeartbeat? { BeatRaises(w.c, k.from, k.token, k.sequence, w.clock); }
    if ev.OnLeave? { BeginLeaveRaises(w.c, k.from, k.token, k.request); }
  }

  predicate OwnWork(ev: Event) {
    ev.Undo? || ev.FinishesLeave? || ev.Expires? || ev.Detects? || ev.Downs? || ev.SelfLeaves?
  }

  lemma OwnWorkRaises(cfg: Config, w: World, ev: Event)
    requires Enabled(cfg, w, ev) && OwnWork(ev)
    ensures CoordinatorRaised(w.c, Next(cfg, w, ev).c)
  {
    hide EndLeave, Expire, Detect, Down, SelfMoves, Updates;
    match ev
    case Undo => ExpireRaises(w.c, w.c.work.who, w.c.work.request);
    case FinishesLeave => EndLeaveRaises(w.c);
    case Expires(id) => ExpireRaises(w.c, id, w.c.pending[id].request);
    case Detects => DetectRaises(cfg, w.c, w.clock);
    case Downs(id) => DownRaises(cfg, w.c, id);
    case SelfLeaves(status) => SelfMovesRaises(cfg, w.c, status);
    case _ =>
  }

  lemma RestRaisesNothing(cfg: Config, w: World, ev: Event)
    requires Enabled(cfg, w, ev) && !Asked(ev) && !OwnWork(ev)
    ensures CoordinatorRaised(w.c, Next(cfg, w, ev).c)
  {
    hide Accepted, Acked, Updated, LeaveAcked, Updates;
  }

  /** What the coordinator shows never changes under one view revision. */
  lemma CoordinatorViewRises(cfg: Config, w: World, ev: Event)
    requires Enabled(cfg, w, ev)
    ensures CoordinatorRaised(w.c, Next(cfg, w, ev).c)
  {
    hide Next, Enabled, CoordinatorRaised;
    if Asked(ev) {
      MessagesRaise(cfg, w, ev);
    } else if OwnWork(ev) {
      OwnWorkRaises(cfg, w, ev);
    } else {
      RestRaisesNothing(cfg, w, ev);
    }
  }

  // ----- Runs -----

  /** Over any run, whoever shows the same view revision twice shows the same members both times. */
  lemma {:induction false} SameRevisionSameMembers(cfg: Config, w0: World, evs: seq<Event>, w: World)
    requires Runs(cfg, w0, evs, w)
    ensures CoordinatorRaised(w0.c, w.c)
    ensures forall id :: id in w0.nodes ==> id in w.nodes && NodeRaised(w0.nodes[id], w.nodes[id])
    decreases |evs|
  {
    hide Next, Enabled;
    if evs != [] {
      var v := Next(cfg, w0, evs[0]);
      CoordinatorViewRises(cfg, w0, evs[0]);
      SameRevisionSameMembers(cfg, v, evs[1..], w);
      forall id | id in w0.nodes ensures id in w.nodes && NodeRaised(w0.nodes[id], w.nodes[id]) {
        ParticipantViewRises(cfg, w0, evs[0], id);
      }
    }
  }
}
