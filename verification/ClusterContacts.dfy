/** Only participants that have contacted the coordinator take part in the exchange. */
module ClusterContacts {
  import opened ClusterCoordinator
  import opened ClusterBookkeeping
  import opened ClusterParticipant
  import opened ClusterRuns
  import opened ClusterInvariant
  import opened ClusterViewRevisions

  predicate ContactedAt(w: World, i: Identity) {
    i in w.nodes && w.nodes[i].contacted
  }

  /** The participant that sent a packet or that it is for. */
  function Party(q: Packet): Identity {
    if FromCoordinator(q) then q.to else q.from
  }

  /** A packet, a token, a leave under way and a token held all belong to a participant that has made contact. */
  predicate KnownAt(w: World, i: Identity) {
    && (i in w.c.tokens ==> ContactedAt(w, i))
    && (w.c.work.FinishLeave? && w.c.work.who == i ==> ContactedAt(w, i))
    && (i in w.nodes && w.nodes[i].token.Some? ==> w.nodes[i].contacted)
  }

  ghost predicate Known(w: World) {
    && (forall i :: KnownAt(w, i))
    && (forall q :: q in w.net ==> ContactedAt(w, Party(q)))
  }

  // ----- Participants -----

  lemma ApplyKeepsContact(cfg: Config, self: Identity, p: Participant, revision: nat, table: Members)
    requires self in p.members
    ensures var q := Apply(cfg, self, p, revision, table).0; q.contacted == p.contacted && q.token == p.token
  {
    hide Rejected, Own, Dropped;
  }

  lemma HearingKeepsContact(cfg: Config, self: Identity, p: Participant, now: int)
    ensures var q := FinishJoin(self, SeeCoordinator(cfg, p, now)); q.contacted == p.contacted && q.token == p.token
  {
  }

  predicate NodeKept(p: Participant, q: Participant) {
    (p.contacted ==> q.contacted) && (q.token.Some? ==> p.token.Some? || q.contacted)
  }

  lemma MessageKeepsContact(cfg: Config, w: World, ev: Event)
    requires Enabled(cfg, w, ev) && ToNode(ev)
    ensures var to, v := ev.packet.to, Next(cfg, w, ev); to in v.nodes && NodeKept(w.nodes[to], v.nodes[to])
  {
    hide Apply, FinishJoin, SeeCoordinator;
    var k := ev.packet;
    var p := w.nodes[k.to];
    ApplyKeepsContact(cfg, k.to, p, k.revision, k.table);
    var q := Apply(cfg, k.to, p, k.revision, k.table).0;
    if ev.OnHeartbeatAck? { HearingKeepsContact(cfg, k.to, q.(acked := k.sequence), w.clock); }
    if ev.OnUpdate? { HearingKeepsContact(cfg, k.to, q, w.clock); }
  }

  lemma OwnStepKeepsContact(cfg: Config, w: World, ev: Event)
    requires Enabled(cfg, w, ev) && OfNode(ev)
    ensures var v := Next(cfg, w, ev); ev.id in v.nodes && NodeKept(w.nodes[ev.id], v.nodes[ev.id])
  {
  }

  lemma NewcomersHaveNoToken(cfg: Config, w: World, ev: Event, i: Identity)
    requires Enabled(cfg, w, ev) && i !in w.nodes
    ensures i in Next(cfg, w, ev).nodes ==> Next(cfg, w, ev).nodes[i].token.None?
  {
    hide Join, Confirm, Beat, MayBeat, BeginLeave, EndLeave, Expire, Detect, Down, SelfMoves, Updates;
    hide Accepted, Acked, Updated, LeaveAcked, Doubt, Close, AskToLeave, BeginStop, Contact;
  }

  lemma ContactStays(cfg: Config, w: World, ev: Event, i: Identity)
    requires Enabled(cfg, w, ev) && i in w.nodes
    ensures i in Next(cfg, w, ev).nodes && NodeKept(w.nodes[i], Next(cfg, w, ev).nodes[i])
  {
    hide Next, Enabled;
    if ToNode(ev) {
      if Takes(ev, i) { MessageKeepsContact(cfg, w, ev); } else { MessageTouchesOne(cfg, w, ev, i); }
    } else if OfNode(ev) {
      if Takes(ev, i) { OwnStepKeepsContact(cfg, w, ev); } else { StepTouchesOne(cfg, w, ev, i); }
    } else {
      RestTouchesNone(cfg, w, ev, i);
    }
  }

  // ----- The coordinator -----

  predicate Caller(ev: Event, i: Identity) {
    (ev.OnJoinRequest? || ev.OnLeave?) && !FromCoordinator(ev.packet) && ev.packet.from == i
  }

  /** A token or a leave under way is new only for the sender of the packet being handled. */
  predicate OnlyFor(c: Coordinator, d: Coordinator, ev: Event, i: Identity) {
    && (i in d.tokens ==> i in c.tokens || Caller(ev, i))
    && (d.work.FinishLeave? && d.work.who == i ==> (c.work.FinishLeave? && c.work.who == i) || Caller(ev, i))
  }

  lemma {:induction false} ReserveKeepsTokens(cfg: Config, c: Coordinator, i: Identity)
    ensures (i in Reserve(cfg, c).0.tokens ==> i in c.tokens) && Reserve(cfg, c).0.work == c.work
    decreases |c.leftOrder|
  {
    if |c.members| >= cfg.memberLimit && c.leftOrder != [] {
      var j := c.leftOrder[0];
      var popped := c.(leftOrder := c.leftOrder[1..]);
      if !(j in c.members && c.members[j].status.Left?) {
        ReserveKeepsTokens(cfg, popped, i);
      } else if j in c.retired || |c.retired| < cfg.retiredLimit {
        ReserveKeepsTokens(cfg, Evicted(popped, j), i);
      }
    }
  }

  lemma JoinTokens(cfg: Config, c: Coordinator, i: Identity, endpoint: Endpoint, request: RequestId, ref: nat,
                   token: Token, now: nat, j: Identity)
    ensures var d := Join(cfg, c, i, endpoint, request, ref, token, now).0;
            (j in d.tokens ==> j in c.tokens || j == i) && d.work == c.work
  {
    hide Reserve, MayJoin, Enter;
    ReserveKeepsTokens(cfg, c, j);
    var room := if i in c.members then c else Reserve(cfg, c).0;
    EnterIs(cfg, room, i, endpoint, request, ref, token, now, j);
  }

  lemma JoinOnlyFor(cfg: Config, w: World, ev: Event, i: Identity)
    requires Enabled(cfg, w, ev) && ev.OnJoinRequest?
    ensures OnlyFor(w.c, Next(cfg, w, ev).c, ev, i)
  {
    hide Join;
    var k := ev.packet;
    JoinTokens(cfg, w.c, k.from, k.endpoint, k.request, k.ref, ev.token, w.clock, i);
  }

  lemma AskedTokens(c: Coordinator, i: Identity, request: RequestId, token: Token, now: nat, j: Identity)
    ensures var d := Confirm(c, i, request, token, now); (j in d.tokens ==> j in c.tokens) && d.work == c.work
    ensures var d := BeginLeave(c, i, token, request);
            && (j in d.tokens ==> j in c.tokens)
            && (d.work.FinishLeave? ==> d.work == c.work || d.work.who == i)
  {
  }

  lemma AskedOnlyFor(cfg: Config, w: World, ev: Event, i: Identity)
    requires Enabled(cfg, w, ev) && (ev.OnJoinConfirm? || ev.OnHeartbeat? || ev.OnLeave?)
    ensures OnlyFor(w.c, Next(cfg, w, ev).c, ev, i)
  {
    hide Confirm, Beat, BeginLeave, MayBeat;
    var k := ev.packet;
    if ev.OnHeartbeat? {
      BeatTokens(w.c, k.from, k.token, k.sequence, w.clock, i);
    } else {
      AskedTokens(w.c, k.from, k.request, k.token, w.clock, i);
    }
  }

  lemma BeatTokens(c: Coordinator, i: Identity, token: Token, sequence: nat, now: nat, j: Identity)
    ensures var d := Beat(c, i, token, sequence, now); (j in d.tokens ==> j in c.tokens) && d.work == c.work
  {
  }

  lemma OwnOnlyFor(cfg: Config, w: World, ev: Event, i: Identity)
    requires Enabled(cfg, w, ev) && OwnWork(ev)
    ensures OnlyFor(w.c, Next(cfg, w, ev).c, ev, i)
  {
    hide Updates;
    if ev.Detects? && Overdue(cfg, w.c, w.clock) == {} { MarkNone(w.c); }
  }

  lemma RestOnlyFor(cfg: Config, w: World, ev: Event, i: Identity)
    requires Enabled(cfg, w, ev) && !Asked(ev) && !OwnWork(ev)
    ensures OnlyFor(w.c, Next(cfg, w, ev).c, ev, i)
  {
    hide Accepted, Acked, Updated, LeaveAcked, Updates;
  }

  lemma StepOnlyFor(cfg: Config, w: World, ev: Event, i: Identity)
    requires Enabled(cfg, w, ev)
    ensures OnlyFor(w.c, Next(cfg, w, ev).c, ev, i)
  {
    hide Next, Enabled, OnlyFor;
    if ev.OnJoinRequest? { JoinOnlyFor(cfg, w, ev, i); }
    else if Asked(ev) { AskedOnlyFor(cfg, w, ev, i); }
    else if OwnWork(ev) { OwnOnlyFor(cfg, w, ev, i); }
    else { RestOnlyFor(cfg, w, ev, i); }
  }

  // ----- Packets -----

  /** Who may be named by a packet that is sent in a step. */
  predicate MaySend(w: World, ev: Event, i: Identity) {
    || (OfNode(ev) && ev.id == i && i in w.nodes
        && (ev.Contacts? || w.nodes[i].contacted || w.nodes[i].token.Some?))
    || (ev.OnJoinAccepted? && FromCoordinator(ev.packet) && ev.packet.to == i && ContactedAt(w, i))
    || (Asked(ev) && !FromCoordinator(ev.packet) && ev.packet.from == i)
    || (ev.FinishesLeave? && w.c.work.FinishLeave? && w.c.work.who == i)
    || (ev.Broadcasts? && i in w.c.tokens)
  }

  lemma AskedSends(cfg: Config, w: World, ev: Event, q: Packet)
    requires Enabled(cfg, w, ev) && Asked(ev) && q in Next(cfg, w, ev).net && q !in w.net
    ensures MaySend(w, ev, Party(q))
  {
    hide Join, Confirm, Beat, MayBeat, BeginLeave;
  }

  lemma NodeSends(cfg: Config, w: World, ev: Event, q: Packet)
    requires Enabled(cfg, w, ev) && (OfNode(ev) || ToNode(ev)) && q in Next(cfg, w, ev).net && q !in w.net
    ensures MaySend(w, ev, Party(q))
  {
    hide Apply, Acked, Updated, LeaveAcked, Doubt, Close, AskToLeave, BeginStop, Contact;
  }

  lemma RestSends(cfg: Config, w: World, ev: Event, q: Packet)
    requires Enabled(cfg, w, ev) && !Asked(ev) && !OfNode(ev) && !ToNode(ev)
    requires q in Next(cfg, w, ev).net && q !in w.net
    ensures MaySend(w, ev, Party(q))
  {
    hide EndLeave, Expire, Detect, Down, SelfMoves;
  }

  lemma StepSends(cfg: Config, w: World, ev: Event, q: Packet)
    requires Enabled(cfg, w, ev) && q in Next(cfg, w, ev).net && q !in w.net
    ensures MaySend(w, ev, Party(q))
  {
    hide Next, Enabled, MaySend;
    if Asked(ev) { AskedSends(cfg, w, ev, q); }
    else if OfNode(ev) || ToNode(ev) { NodeSends(cfg, w, ev, q); }
    else { RestSends(cfg, w, ev, q); }
  }

  // ----- Every step -----

  lemma ContactMade(cfg: Config, w: World, ev: Event)
    requires Enabled(cfg, w, ev) && ev.Contacts?
    ensures ContactedAt(Next(cfg, w, ev), ev.id)
  {
  }

  lemma AskedIsSent(cfg: Config, w: World, ev: Event)
    requires Enabled(cfg, w, ev) && Asked(ev)
    ensures ev.packet in w.net && !FromCoordinator(ev.packet)
  {
  }

  lemma StepKeepsKnown(cfg: Config, w: World, ev: Event)
    requires Known(w) && Enabled(cfg, w, ev)
    ensures Known(Next(cfg, w, ev))
  {
    hide Next, Enabled;
    var v := Next(cfg, w, ev);
    if Asked(ev) { AskedIsSent(cfg, w, ev); }
    if ev.Contacts? { ContactMade(cfg, w, ev); }
    forall i ensures KnownAt(v, i) {
      assert KnownAt(w, i);
      StepOnlyFor(cfg, w, ev, i);
      if i in w.nodes { ContactStays(cfg, w, ev, i); } else { NewcomersHaveNoToken(cfg, w, ev, i); }
    }
    forall q | q in v.net ensures ContactedAt(v, Party(q)) {
      var i := Party(q);
      assert KnownAt(w, i);
      if q !in w.net { StepSends(cfg, w, ev, q); }
      if i in w.nodes { ContactStays(cfg, w, ev, i); }
    }
  }

  lemma {:induction false} RunsKeepKnown(cfg: Config, w0: World, evs: seq<Event>, w: World)
    requires Known(w0) && Runs(cfg, w0, evs, w)
    ensures Known(w)
    decreases |evs|
  {
    hide Known, Next, Enabled;
    if evs != [] {
      StepKeepsKnown(cfg, w0, evs[0]);
      RunsKeepKnown(cfg, Next(cfg, w0, evs[0]), evs[1..], w);
    }
  }

  /** Every packet ever sent was sent by, or is meant for, a participant that has made contact. */
  lemma PacketsAreForContacts(cfg: Config, now: nat, evs: seq<Event>, w: World, q: Packet)
    requires Reachable(cfg, now, evs, w) && q in w.net
    ensures ContactedAt(w, Party(q))
  {
    RunsKeepKnown(cfg, Init(cfg, now), evs, w);
  }
}
