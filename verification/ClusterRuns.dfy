/** One coordinator, any number of participants and a network that may lose, delay, repeat and reorder packets. */
module ClusterRuns {
  import opened Basics
  import opened ClusterCoordinator
  import opened ClusterBookkeeping
  import opened ClusterParticipant

  /** Every packet is bound to the association that carries it, so `from` is the true sender. The grant of a
      confirmation is the revision of the acceptance it answers. */
  datatype Packet =
    | JoinRequest(from: Identity, endpoint: Endpoint, request: RequestId, ref: nat)
    | JoinAccepted(to: Identity, request: RequestId, token: Token, revision: nat, table: Members)
    | JoinConfirm(from: Identity, request: RequestId, token: Token, grant: nat)
    | Heartbeat(from: Identity, token: Token, sequence: nat)
    | HeartbeatAck(to: Identity, token: Token, sequence: nat, revision: nat, table: Members)
    | Update(to: Identity, token: Token, revision: nat, table: Members)
    | Leave(from: Identity, token: Token, request: RequestId)
    | LeaveAck(to: Identity, request: RequestId, revision: nat, table: Members)

  /** `net` holds every packet ever sent, and any of them may arrive at any time, any number of times.
      `hist` records the point of each revision; `since` the revision at which the current token of a member was
      issued; `grants` the acceptances sent; `issued` the tokens used so far. */
  datatype World =
    World(c: Coordinator, nodes: map<Identity, Participant>, net: set<Packet>, clock: nat, hist: map<nat, Point>,
          since: map<Identity, nat>, grants: set<(Identity, Token, nat)>, issued: set<Token>)

  datatype Event =
    | Tick(time: nat)
    | NewNode(id: Identity, endpoint: Endpoint)
    | Contacts(id: Identity, request: RequestId, ref: nat)
    | OnJoinRequest(packet: Packet, token: Token, delivered: bool)
    | Undo
    | OnJoinConfirm(packet: Packet)
    | OnHeartbeat(packet: Packet)
    | OnLeave(packet: Packet)
    | FinishesLeave
    | Expires(id: Identity)
    | Detects
    | Downs(id: Identity)
    | Stops
    | SelfLeaves(status: Status)
    | Broadcasts(exclude: Option<Identity>)
    | OnJoinAccepted(packet: Packet)
    | OnHeartbeatAck(packet: Packet)
    | OnUpdate(packet: Packet)
    | OnLeaveAck(packet: Packet)
    | Beats(id: Identity)
    | Doubts(id: Identity)
    | BeginsStop(id: Identity)
    | Asks(id: Identity, request: RequestId)
    | Closes(id: Identity)

  function Init(cfg: Config, now: nat): World {
    var c := Formed(cfg, now);
    World(c, map[], {}, now, map[c.revision := PointOf(c)], map[], {}, {})
  }

  function Packets(ev: Event): Option<Packet> {
    if ev.OnJoinRequest? || ev.OnJoinConfirm? || ev.OnHeartbeat? || ev.OnLeave? || ev.OnJoinAccepted?
       || ev.OnHeartbeatAck? || ev.OnUpdate? || ev.OnLeaveAck? then Some(ev.packet) else None
  }

  predicate Addressed(w: World, ev: Event) {
    match ev
    case OnJoinRequest(q, _, _) => q.JoinRequest?
    case OnJoinConfirm(q) => q.JoinConfirm?
    case OnHeartbeat(q) => q.Heartbeat?
    case OnLeave(q) => q.Leave?
    case OnJoinAccepted(q) => q.JoinAccepted? && q.to in w.nodes
    case OnHeartbeatAck(q) => q.HeartbeatAck? && q.to in w.nodes
    case OnUpdate(q) => q.Update? && q.to in w.nodes
    case OnLeaveAck(q) => q.LeaveAck? && q.to in w.nodes
    case _ => true
  }

  /** The worker thread of the coordinator handles one message or timer at a time. */
  predicate ForWorker(ev: Event) {
    ev.OnJoinRequest? || ev.OnJoinConfirm? || ev.OnHeartbeat? || ev.OnLeave? || ev.Expires? || ev.Detects?
  }

  predicate OfNode(ev: Event) {
    ev.Beats? || ev.Doubts? || ev.BeginsStop? || ev.Asks? || ev.Closes? || ev.Contacts?
  }

  predicate Enabled(cfg: Config, w: World, ev: Event) {
    && (Packets(ev).Some? ==> Packets(ev).value in w.net && Addressed(w, ev))
    && (ForWorker(ev) ==> w.c.work.Free?)
    && (OfNode(ev) ==> ev.id in w.nodes && ev.id in w.nodes[ev.id].members)
    && (Packets(ev).Some? && !ForWorker(ev) ==>
          ev.packet.to in w.nodes && ev.packet.to in w.nodes[ev.packet.to].members)
    && match ev
       case Tick(time) => w.clock <= time
       case NewNode(id, _) => id !in w.nodes && id.name != cfg.coordinator.name
       case Contacts(id, _, _) => !w.nodes[id].contacted && w.nodes[id].stage.Serving?
       case OnJoinRequest(_, token, _) => token !in w.issued
       case Undo => w.c.work.UndoJoin?
       case FinishesLeave => w.c.work.FinishLeave? && w.c.work.who in w.c.members
       case Expires(id) => id in w.c.pending && w.c.pending[id].deadline <= w.clock
       case SelfLeaves(status) =>
         && w.c.stopping && cfg.coordinator in w.c.members
         && ((status.Leaving? && w.c.members[cfg.coordinator].status.Up?)
             || (status.Left? && w.c.members[cfg.coordinator].status.Leaving?))
       case Beats(id) =>
         && w.nodes[id].contacted && w.nodes[id].token.Some?
         && (w.nodes[id].members[id].status.Joining? || w.nodes[id].members[id].status.Up?)
       case BeginsStop(id) => w.nodes[id].stage.Serving?
       case Asks(id, _) => w.nodes[id].stage.Departing?
       case Closes(id) => w.nodes[id].stage.Closing?
       case _ => true
  }

  /** The coordinator moves to `d` and sends `sent`. */
  function Record(w: World, d: Coordinator, sent: set<Packet>): World {
    w.(c := d, hist := w.hist[d.revision := PointOf(d)], net := w.net + sent)
  }

  function SetNode(w: World, id: Identity, p: Participant, sent: set<Packet>): World {
    w.(nodes := w.nodes[id := p], net := w.net + sent)
  }

  function Admitting(cfg: Config, w: World, q: Packet, token: Token, delivered: bool): World
    requires q.JoinRequest?
  {
    var (d, answered) := Join(cfg, w.c, q.from, q.endpoint, q.request, q.ref, token, w.clock);
    if !answered then Record(w, d, {})
    else
      var anew := q.from !in w.c.tokens;
      var noted := w.(since := if anew then w.since[q.from := d.revision] else w.since,
                      issued := if anew then w.issued + {token} else w.issued);
      if !delivered then Record(noted, d.(work := UndoJoin(q.from, q.request)), {})
      else
        Record(noted, d, {JoinAccepted(q.from, q.request, d.tokens[q.from], d.revision, d.members)})
          .(grants := w.grants + {(q.from, d.tokens[q.from], d.revision)})
  }

  function Updates(c: Coordinator, exclude: Option<Identity>): set<Packet> {
    set i | i in c.tokens && exclude != Some(i) :: Update(i, c.tokens[i], c.revision, c.members)
  }

  function Beating(w: World, q: Packet): World
    requires q.Heartbeat?
  {
    var d := Beat(w.c, q.from, q.token, q.sequence, w.clock);
    Record(w, d, if MayBeat(w.c, q.from, q.token, q.sequence)
                 then {HeartbeatAck(q.from, q.token, q.sequence, d.revision, d.members)} else {})
  }

  function Accepting(cfg: Config, w: World, q: Packet): World
    requires q.JoinAccepted? && q.to in w.nodes && q.to in w.nodes[q.to].members
  {
    var (p, confirms) := Accepted(cfg, q.to, w.nodes[q.to], q.request, q.token, q.revision, q.table, w.clock);
    SetNode(w, q.to, p, if confirms then {JoinConfirm(q.to, q.request, q.token, q.revision)} else {})
  }

  function Next(cfg: Config, w: World, ev: Event): World
    requires Enabled(cfg, w, ev)
  {
    match ev
    case Tick(time) => w.(clock := time)
    case NewNode(id, endpoint) => w.(nodes := w.nodes[id := Fresh(id, endpoint)])
    case Contacts(id, request, ref) =>
      SetNode(w, id, Contact(w.nodes[id], request), {JoinRequest(id, w.nodes[id].endpoint, request, ref)})
    case OnJoinRequest(q, token, delivered) => Admitting(cfg, w, q, token, delivered)
    case Undo => Record(w, Expire(w.c, w.c.work.who, w.c.work.request).(work := Free), {})
    case OnJoinConfirm(q) => Record(w, Confirm(w.c, q.from, q.request, q.token, w.clock), {})
    case OnHeartbeat(q) => Beating(w, q)
    case OnLeave(q) => Record(w, BeginLeave(w.c, q.from, q.token, q.request), {})
    case FinishesLeave =>
      var d := EndLeave(w.c);
      Record(w, d, {LeaveAck(w.c.work.who, w.c.work.request, d.revision, d.members)})
    case Expires(id) => Record(w, Expire(w.c, id, w.c.pending[id].request), {})
    case Detects => Record(w, Detect(cfg, w.c, w.clock), {})
    case Downs(id) => Record(w, Down(cfg, w.c, id).0, {})
    case Stops => w.(c := w.c.(stopping := true))
    case SelfLeaves(status) => Record(w, SelfMoves(cfg, w.c, status), {})
    case Broadcasts(exclude) => w.(net := w.net + Updates(w.c, exclude))
    case OnJoinAccepted(q) => Accepting(cfg, w, q)
    case OnHeartbeatAck(q) =>
      SetNode(w, q.to, Acked(cfg, q.to, w.nodes[q.to], q.token, q.sequence, q.revision, q.table, w.clock), {})
    case OnUpdate(q) => SetNode(w, q.to, Updated(cfg, q.to, w.nodes[q.to], q.token, q.revision, q.table, w.clock), {})
    case OnLeaveAck(q) => SetNode(w, q.to, LeaveAcked(cfg, q.to, w.nodes[q.to], q.request, q.revision, q.table), {})
    case Beats(id) =>
      var p := w.nodes[id];
      SetNode(w, id, p.(sequence := p.sequence + 1), {Heartbeat(id, p.token.value, p.sequence)})
    case Doubts(id) => SetNode(w, id, Doubt(cfg, w.nodes[id], w.clock), {})
    case BeginsStop(id) => SetNode(w, id, BeginStop(id, w.nodes[id]), {})
    case Asks(id, request) =>
      var p := w.nodes[id];
      SetNode(w, id, AskToLeave(id, p, request), if p.token.Some? then {Leave(id, p.token.value, request)} else {})
    case Closes(id) => SetNode(w, id, Close(id, w.nodes[id]), {})
  }

  ghost predicate Runs(cfg: Config, w0: World, evs: seq<Event>, w: World)
    decreases |evs|
  {
    if evs == [] then w == w0 else Enabled(cfg, w0, evs[0]) && Runs(cfg, Next(cfg, w0, evs[0]), evs[1..], w)
  }

  /** `w` is reached by a valid cluster from its formation. */
  ghost predicate Reachable(cfg: Config, now: nat, evs: seq<Event>, w: World) {
    cfg.Valid() && Runs(cfg, Init(cfg, now), evs, w)
  }
}
