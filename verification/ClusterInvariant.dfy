/** The invariant of a cluster run. */
module ClusterInvariant {
  import opened ClusterCoordinator
  import opened ClusterBookkeeping
  import opened ClusterParticipant
  import opened ClusterRuns

  // ----- The recorded points -----

  ghost predicate HistInv(cfg: Config, hist: map<nat, Point>, c: Coordinator) {
    && c.revision in hist && hist[c.revision] == PointOf(c)
    && (forall r :: r in hist ==> 1 <= r <= c.revision && GoodPoint(cfg, hist[r]))
    && (forall r, s :: r in hist && s in hist && r < s ==> Later(hist[r], hist[s]))
  }

  ghost predicate Extends(hist: map<nat, Point>, more: map<nat, Point>) {
    forall r :: r in hist ==> r in more && more[r] == hist[r]
  }

  lemma HistGrows(cfg: Config, hist: map<nat, Point>, c: Coordinator, d: Coordinator)
    requires HistInv(cfg, hist, c) && GoodPoint(cfg, PointOf(d)) && Moves(c, d)
    ensures HistInv(cfg, hist[d.revision := PointOf(d)], d) && Extends(hist, hist[d.revision := PointOf(d)])
  {
    hide GoodPoint, Later;
    var more := hist[d.revision := PointOf(d)];
    if d.revision == c.revision {
      assert more == hist;
    } else {
      forall r, s | r in more && s in more && r < s ensures Later(more[r], more[s]) {
        if s == d.revision && r < c.revision { LaterTransitive(cfg, hist[r], PointOf(c), PointOf(d)); }
      }
    }
  }

  // ----- Packets -----

  /** No other incarnation of the name is active. */
  predicate SoleAt(table: Members, to: Identity, j: Identity) {
    j in table && j.name == to.name && j != to ==> table[j].status.Left?
  }

  /** A snapshot for `to` is a recorded point that lists it, as the only active incarnation of its name. */
  ghost predicate Honest(hist: map<nat, Point>, to: Identity, endpoint: Endpoint, revision: nat, table: Members) {
    && revision in hist && hist[revision].members == table
    && to in table && table[to].endpoint == endpoint
    && forall j :: SoleAt(table, to, j)
  }

  predicate FromCoordinator(q: Packet) {
    q.JoinAccepted? || q.HeartbeatAck? || q.Update? || q.LeaveAck?
  }

  ghost predicate PacketOk(cfg: Config, hist: map<nat, Point>, nodes: map<Identity, Participant>, q: Packet) {
    if FromCoordinator(q) then
      && q.to in nodes && q.to.name != cfg.coordinator.name
      && Honest(hist, q.to, nodes[q.to].endpoint, q.revision, q.table)
      && (q.table[q.to].status.Left? ==> q.LeaveAck?)
    else
      && q.from in nodes && q.from.name != cfg.coordinator.name
      && (q.JoinRequest? ==> q.endpoint == nodes[q.from].endpoint)
  }

  // ----- Participants -----

  /** What a participant shows of `j`, against the table it accepted: the table's entry, except that it keeps its own
      leaving or left status and its own verdict on whether the coordinator is reachable. */
  predicate ShownAt(cfg: Config, self: Identity, members: Members, table: Members, j: Identity) {
    && (j in members <==> j in table)
    && (j in table ==>
          if j == self then
            && members[j] == table[j].(status := members[j].status)
            && (members[j].status == table[j].status || members[j].status.Leaving? || members[j].status.Left?)
          else if j == cfg.coordinator then members[j] == table[j].(reachable := members[j].reachable)
          else members[j] == table[j])
  }

  ghost predicate ViewInv(cfg: Config, hist: map<nat, Point>, self: Identity, p: Participant) {
    match p.snapshot
    case None => p.revision == 0 && p.retired == {} && p.members.Keys == {self}
    case Some(table) =>
      && p.contacted && Honest(hist, self, p.endpoint, p.revision, table) && p.revision > 0
      && (forall j :: ShownAt(cfg, self, p.members, table, j))
      && (table[self].status.Left? && self in p.members ==>
            p.members[self].status.Leaving? || p.members[self].status.Left?)
      && (forall j :: j in p.retired ==> j in hist[p.revision].retired)
  }

  ghost predicate NodeInv(cfg: Config, hist: map<nat, Point>, self: Identity, p: Participant) {
    && self in p.members && self.name != cfg.coordinator.name
    && (p.stage.Serving? || p.stage.Departing? ==> p.leaveRequest.None?)
    && (p.stage.Closed? <==> p.members[self].status.Left?)
    && (p.leaveRequest.Some? ==> p.members[self].status.Leaving? || p.members[self].status.Left?)
    && ViewInv(cfg, hist, self, p)
  }

  // ----- Tokens -----

  /** The acceptances of the current token of a member are exactly those sent since it was issued. */
  predicate GrantAt(c: Coordinator, since: map<Identity, nat>, issued: set<Token>, g: (Identity, Token, nat)) {
    && g.1 in issued && g.2 <= c.revision
    && (g.0 in c.tokens && g.0 in since ==> (g.1 == c.tokens[g.0] <==> since[g.0] <= g.2))
  }

  predicate TokenAt(w: World, i: Identity) {
    && (i in w.c.tokens ==> i in w.since && w.since[i] <= w.c.revision && w.c.tokens[i] in w.issued && i in w.nodes)
    && (i in w.c.tokens && i in w.c.members && !w.c.members[i].status.Joining? ==>
          w.nodes[i].token.Some? && w.since[i] <= w.nodes[i].grant)
  }

  predicate HolderAt(w: World, i: Identity) {
    i in w.nodes && w.nodes[i].token.Some? ==>
      (i, w.nodes[i].token.value, w.nodes[i].grant) in w.grants && w.nodes[i].grant <= w.nodes[i].revision
  }

  predicate ConfirmAt(w: World, q: Packet) {
    && (q.JoinAccepted? ==> (q.to, q.token, q.revision) in w.grants)
    && (q.JoinConfirm? && q.from in w.nodes ==>
          && (q.from, q.token, q.grant) in w.grants
          && w.nodes[q.from].token.Some? && q.grant <= w.nodes[q.from].grant)
  }

  ghost predicate TokenInv(w: World) {
    && (forall g :: g in w.grants ==> GrantAt(w.c, w.since, w.issued, g))
    && (forall i :: TokenAt(w, i))
    && (forall i :: HolderAt(w, i))
    && (forall q :: q in w.net ==> ConfirmAt(w, q))
  }

  predicate ListedAt(cfg: Config, w: World, i: Identity) {
    i in w.c.members && i != cfg.coordinator ==> i in w.nodes && w.c.members[i].endpoint == w.nodes[i].endpoint
  }

  ghost predicate Inv(cfg: Config, w: World) {
    && CInv(cfg, w.c) && HistInv(cfg, w.hist, w.c)
    && (forall i :: ListedAt(cfg, w, i))
    && (forall q :: q in w.net ==> PacketOk(cfg, w.hist, w.nodes, q))
    && (forall i :: i in w.nodes ==> NodeInv(cfg, w.hist, i, w.nodes[i]))
    && TokenInv(w)
  }

  // ----- More history -----

  lemma HonestGrows(hist: map<nat, Point>, more: map<nat, Point>, to: Identity, endpoint: Endpoint, revision: nat,
                    table: Members)
    requires Extends(hist, more) && Honest(hist, to, endpoint, revision, table)
    ensures Honest(more, to, endpoint, revision, table)
  {
  }

  lemma PacketGrows(cfg: Config, hist: map<nat, Point>, more: map<nat, Point>, nodes: map<Identity, Participant>,
                    q: Packet)
    requires Extends(hist, more) && PacketOk(cfg, hist, nodes, q)
    ensures PacketOk(cfg, more, nodes, q)
  {
    hide Honest, Extends;
    if FromCoordinator(q) { HonestGrows(hist, more, q.to, nodes[q.to].endpoint, q.revision, q.table); }
  }

  lemma NodeGrows(cfg: Config, hist: map<nat, Point>, more: map<nat, Point>, self: Identity, p: Participant)
    requires Extends(hist, more) && NodeInv(cfg, hist, self, p)
    ensures NodeInv(cfg, more, self, p)
  {
    if p.snapshot.Some? { HonestGrows(hist, more, self, p.endpoint, p.revision, p.snapshot.value); }
  }
}
