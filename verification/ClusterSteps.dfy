/** Every step of a cluster run keeps the invariant. */
module ClusterSteps {
  import opened Basics
  import opened ClusterCoordinator
  import opened ClusterBookkeeping
  import opened ClusterParticipant
  import opened ClusterRuns
  import opened ClusterInvariant

  // ----- A participant moves -----

  /** A packet a participant may send while it becomes `q`. */
  ghost predicate MaySend(w: World, id: Identity, q: Participant, k: Packet) {
    && !FromCoordinator(k) && k.from == id
    && (k.JoinRequest? ==> k.endpoint == q.endpoint)
    && (k.JoinConfirm? ==> (id, k.token, k.grant) in w.grants && q.token.Some? && k.grant <= q.grant)
  }

  /** The token stays, or a newer acceptance replaces it. */
  predicate TokenMoves(w: World, id: Identity, p: Participant, q: Participant) {
    || (q.token == p.token && q.grant == p.grant)
    || (q.token.Some? && (id, q.token.value, q.grant) in w.grants && q.grant == q.revision)
  }

  lemma PacketsOfNode(cfg: Config, w: World, id: Identity, q: Participant, sent: set<Packet>, k: Packet)
    requires Inv(cfg, w) && id in w.nodes && q.endpoint == w.nodes[id].endpoint && id.name != cfg.coordinator.name
    requires forall j :: j in sent ==> MaySend(w, id, q, j)
    requires k in w.net + sent
    ensures PacketOk(cfg, w.hist, w.nodes[id := q], k)
  {
    hide CInv, HistInv, NodeInv, TokenInv, Honest;
    if k in w.net { assert PacketOk(cfg, w.hist, w.nodes, k); }
  }

  lemma TokensOfNode(cfg: Config, w: World, id: Identity, q: Participant, sent: set<Packet>)
    requires Inv(cfg, w) && id in w.nodes && w.nodes[id].revision <= q.revision && TokenMoves(w, id, w.nodes[id], q)
    requires forall j :: j in sent ==> MaySend(w, id, q, j)
    ensures TokenInv(SetNode(w, id, q, sent))
  {
    hide CInv, HistInv, NodeInv, PacketOk, ListedAt;
    var v := SetNode(w, id, q, sent);
    assert HolderAt(w, id);
    forall i ensures TokenAt(v, i) && HolderAt(v, i) {
      assert TokenAt(w, i) && HolderAt(w, i);
    }
    forall k | k in v.net ensures ConfirmAt(v, k) {
      if k in w.net { assert ConfirmAt(w, k); }
    }
  }

  lemma NodeName(cfg: Config, hist: map<nat, Point>, id: Identity, q: Participant)
    requires NodeInv(cfg, hist, id, q)
    ensures id.name != cfg.coordinator.name && id in q.members
  {
  }

  lemma NodeStepKeeps(cfg: Config, w: World, id: Identity, q: Participant, sent: set<Packet>)
    requires Inv(cfg, w) && id in w.nodes && NodeInv(cfg, w.hist, id, q)
    requires q.endpoint == w.nodes[id].endpoint && w.nodes[id].revision <= q.revision
    requires TokenMoves(w, id, w.nodes[id], q) && forall k :: k in sent ==> MaySend(w, id, q, k)
    ensures Inv(cfg, SetNode(w, id, q, sent))
  {
    hide CInv, HistInv, NodeInv, PacketOk, TokenInv, TokenMoves, MaySend;
    var v := SetNode(w, id, q, sent);
    NodeName(cfg, w.hist, id, q);
    forall k | k in v.net ensures PacketOk(cfg, v.hist, v.nodes, k) { PacketsOfNode(cfg, w, id, q, sent, k); }
    TokensOfNode(cfg, w, id, q, sent);
    forall i ensures ListedAt(cfg, v, i) { assert ListedAt(cfg, w, i); }
  }

  // ----- The coordinator moves -----

  /** Nobody is added, no token is issued and nobody stops joining. */
  predicate QuietAt(c: Coordinator, d: Coordinator, i: Identity) {
    && (i in d.members ==> i in c.members && d.members[i].endpoint == c.members[i].endpoint)
    && (i in d.tokens ==> i in c.tokens && d.tokens[i] == c.tokens[i])
    && (i in d.tokens && i in d.members && i in c.members && c.members[i].status.Joining? ==>
          d.members[i].status.Joining?)
  }

  ghost predicate Quiet(c: Coordinator, d: Coordinator) {
    forall i :: QuietAt(c, d, i)
  }

  lemma TokensOfCoordinator(cfg: Config, w: World, d: Coordinator, sent: set<Packet>)
    requires Inv(cfg, w) && w.c.revision <= d.revision && Quiet(w.c, d)
    requires forall k :: k in sent ==> FromCoordinator(k) && !k.JoinAccepted?
    ensures TokenInv(Record(w, d, sent))
  {
    hide CInv, HistInv, NodeInv, PacketOk, ListedAt;
    var v := Record(w, d, sent);
    forall i ensures TokenAt(v, i) && HolderAt(v, i) {
      assert TokenAt(w, i) && HolderAt(w, i) && QuietAt(w.c, d, i);
    }
    forall g | g in v.grants ensures GrantAt(v.c, v.since, v.issued, g) {
      assert GrantAt(w.c, w.since, w.issued, g) && QuietAt(w.c, d, g.0);
    }
    forall k | k in v.net ensures ConfirmAt(v, k) {
      if k in w.net { assert ConfirmAt(w, k); }
    }
  }

  /** The packets and participants under one more recorded point. */
  lemma RestUnder(cfg: Config, w: World, d: Coordinator, sent: set<Packet>)
    requires Inv(cfg, w) && GoodPoint(cfg, PointOf(d)) && Moves(w.c, d)
    requires forall k :: k in sent ==> PacketOk(cfg, w.hist[d.revision := PointOf(d)], w.nodes, k)
    ensures var v := Record(w, d, sent);
            && HistInv(cfg, v.hist, v.c)
            && (forall k :: k in v.net ==> PacketOk(cfg, v.hist, v.nodes, k))
            && (forall i :: i in v.nodes ==> NodeInv(cfg, v.hist, i, v.nodes[i]))
  {
    HistGrows(cfg, w.hist, w.c, d);
    hide CInv, HistInv, NodeInv, PacketOk, TokenInv, Extends, Moves, GoodPoint, ListedAt;
    var v := Record(w, d, sent);
    forall k | k in v.net ensures PacketOk(cfg, v.hist, v.nodes, k) {
      if k in w.net { PacketGrows(cfg, w.hist, v.hist, w.nodes, k); }
    }
    forall i | i in v.nodes ensures NodeInv(cfg, v.hist, i, v.nodes[i]) {
      NodeGrows(cfg, w.hist, v.hist, i, w.nodes[i]);
    }
  }

  lemma CoordinatorStepKeeps(cfg: Config, w: World, d: Coordinator, sent: set<Packet>)
    requires Inv(cfg, w) && CInv(cfg, d) && Moves(w.c, d) && Quiet(w.c, d)
    requires forall k :: k in sent ==> FromCoordinator(k) && !k.JoinAccepted?
    requires forall k :: k in sent ==> PacketOk(cfg, w.hist[d.revision := PointOf(d)], w.nodes, k)
    ensures Inv(cfg, Record(w, d, sent))
  {
    RestUnder(cfg, w, d, sent);
    TokensOfCoordinator(cfg, w, d, sent);
    hide CInv, HistInv, NodeInv, PacketOk, TokenInv, Moves;
    var v := Record(w, d, sent);
    forall i ensures ListedAt(cfg, v, i) { assert ListedAt(cfg, w, i) && QuietAt(w.c, d, i); }
  }

  // ----- Packets of the coordinator -----

  /** A snapshot of the current tables for a member that holds a token. */
  lemma CurrentIsHonest(cfg: Config, c: Coordinator, hist: map<nat, Point>, to: Identity)
    requires CInv(cfg, c) && c.revision in hist && hist[c.revision] == PointOf(c) && to in c.tokens
    ensures to in c.members && !c.members[to].status.Left?
    ensures Honest(hist, to, c.members[to].endpoint, c.revision, c.members)
  {
    assert KeysAt(cfg, c, to);
    forall j ensures SoleAt(c.members, to, j) {
      assert !Rivals(c.members, to, j);
    }
  }

  lemma TokenHolder(cfg: Config, w: World, d: Coordinator, to: Identity)
    requires Inv(cfg, w) && CInv(cfg, d) && to in d.tokens && Quiet(w.c, d)
    ensures to in w.nodes && to != cfg.coordinator && to.name != cfg.coordinator.name
    ensures to in d.members && d.members[to].endpoint == w.nodes[to].endpoint
  {
    assert QuietAt(w.c, d, to) && ListedAt(cfg, w, to) && KeysAt(cfg, d, to) && KeysAt(cfg, w.c, to);
    hide TokenInv, HistInv, PacketOk, GoodPoint, WorkInv;
    NodeName(cfg, w.hist, to, w.nodes[to]);
  }

  /** An answer or update with the tables of `d` for a token holder. */
  lemma AnswerIsOk(cfg: Config, w: World, d: Coordinator, k: Packet)
    requires Inv(cfg, w) && CInv(cfg, d) && Quiet(w.c, d)
    requires FromCoordinator(k) && k.to in d.tokens && k.revision == d.revision && k.table == d.members
    ensures PacketOk(cfg, w.hist[d.revision := PointOf(d)], w.nodes, k)
  {
    hide Inv, CInv, Quiet, Honest;
    TokenHolder(cfg, w, d, k.to);
    CurrentIsHonest(cfg, d, w.hist[d.revision := PointOf(d)], k.to);
  }

  // ----- The coordinator's operations are quiet -----

  lemma BeatIsQuiet(c: Coordinator, i: Identity, token: Token, sequence: nat, now: nat)
    ensures Quiet(c, Beat(c, i, token, sequence, now))
    ensures MayBeat(c, i, token, sequence) ==> i in Beat(c, i, token, sequence, now).tokens
  {
    forall j ensures QuietAt(c, Beat(c, i, token, sequence, now), j) { }
  }

  lemma BeginLeaveIsQuiet(c: Coordinator, i: Identity, token: Token, request: RequestId)
    ensures Quiet(c, BeginLeave(c, i, token, request))
  {
    forall j ensures QuietAt(c, BeginLeave(c, i, token, request), j) { }
  }

  lemma EndLeaveIsQuiet(c: Coordinator)
    requires c.work.FinishLeave? && c.work.who in c.members
    ensures Quiet(c, EndLeave(c))
  {
    hide Replace, Revoke;
    var i := c.work.who;
    ReplaceIs(c.(revision := c.revision + 1), i, c.members[i].(status := Left));
    forall j ensures QuietAt(c, EndLeave(c), j) { RevokeIs(Departed(c, i), i, j); }
  }

  lemma DetectIsQuiet(cfg: Config, c: Coordinator, now: nat)
    ensures Quiet(c, Detect(cfg, c, now))
  {
    forall j ensures QuietAt(c, Detect(cfg, c, now), j) { }
  }

  lemma DownIsQuiet(cfg: Config, c: Coordinator, i: Identity)
    ensures Quiet(c, Down(cfg, c, i).0)
  {
    hide Replace, Revoke;
    if i in c.members {
      var left := c.members[i].(status := Left);
      ReplaceIs(c.(revision := c.revision + 1), i, left);
      forall j ensures QuietAt(c, Down(cfg, c, i).0, j) {
        RevokeIs(Replace(c.(revision := c.revision + 1), i, left), i, j);
      }
    }
  }

  lemma SelfMovesIsQuiet(cfg: Config, c: Coordinator, status: Status)
    requires cfg.coordinator in c.members && cfg.coordinator !in c.tokens
    ensures Quiet(c, SelfMoves(cfg, c, status))
  {
    forall j ensures QuietAt(c, SelfMoves(cfg, c, status), j) { }
  }

  lemma ExpireIsQuiet(c: Coordinator, i: Identity, request: RequestId)
    ensures Quiet(c, Expire(c, i, request)) && Quiet(c, Expire(c, i, request).(work := Free))
  {
    var d := Expire(c, i, request);
    forall j ensures QuietAt(c, d, j) && QuietAt(c, d.(work := Free), j) { }
  }

  lemma StillIsQuiet(c: Coordinator)
    ensures Quiet(c, c) && Moves(c, c)
  {
  }

  // ----- Event by event: the coordinator -----

  lemma Parts(cfg: Config, w: World)
    requires Inv(cfg, w)
    ensures CInv(cfg, w.c) && cfg.coordinator in w.c.members && cfg.coordinator !in w.c.tokens
    ensures w.hist[w.c.revision := PointOf(w.c)] == w.hist
  {
    assert KeysAt(cfg, w.c, cfg.coordinator);
  }

  lemma Sender(cfg: Config, w: World, k: Packet)
    requires Inv(cfg, w) && k in w.net && !FromCoordinator(k)
    ensures k.from in w.nodes && k.from != cfg.coordinator
    ensures k.JoinRequest? ==> k.endpoint == w.nodes[k.from].endpoint
  {
    assert PacketOk(cfg, w.hist, w.nodes, k);
  }

  lemma HeartbeatKeeps(cfg: Config, w: World, k: Packet)
    requires Inv(cfg, w) && k in w.net && k.Heartbeat?
    ensures Inv(cfg, Beating(w, k))
  {
    hide Inv, CInv, Moves, Quiet, Beat, MayBeat, PacketOk;
    Parts(cfg, w);
    Sender(cfg, w, k);
    var d := Beat(w.c, k.from, k.token, k.sequence, w.clock);
    BeatKeeps(cfg, w.c, k.from, k.token, k.sequence, w.clock);
    BeatIsQuiet(w.c, k.from, k.token, k.sequence, w.clock);
    var ack := HeartbeatAck(k.from, k.token, k.sequence, d.revision, d.members);
    if MayBeat(w.c, k.from, k.token, k.sequence) {
      AnswerIsOk(cfg, w, d, ack);
      CoordinatorStepKeeps(cfg, w, d, {ack});
    } else {
      CoordinatorStepKeeps(cfg, w, d, {});
    }
  }

  lemma UpdatesKeep(cfg: Config, w: World, exclude: Option<Identity>)
    requires Inv(cfg, w)
    ensures Inv(cfg, w.(net := w.net + Updates(w.c, exclude)))
  {
    hide Inv, CInv, Moves, Quiet, PacketOk;
    Parts(cfg, w);
    StillIsQuiet(w.c);
    forall k | k in Updates(w.c, exclude) ensures PacketOk(cfg, w.hist, w.nodes, k) {
      AnswerIsOk(cfg, w, w.c, k);
    }
    CoordinatorStepKeeps(cfg, w, w.c, Updates(w.c, exclude));
  }

  lemma LeaveKeeps(cfg: Config, w: World, k: Packet)
    requires Inv(cfg, w) && k in w.net && k.Leave? && w.c.work.Free?
    ensures Inv(cfg, Record(w, BeginLeave(w.c, k.from, k.token, k.request), {}))
  {
    hide Inv, CInv, Moves, Quiet, BeginLeave, PacketOk;
    Parts(cfg, w);
    Sender(cfg, w, k);
    BeginLeaveKeeps(cfg, w.c, k.from, k.token, k.request);
    BeginLeaveIsQuiet(w.c, k.from, k.token, k.request);
    CoordinatorStepKeeps(cfg, w, BeginLeave(w.c, k.from, k.token, k.request), {});
  }

  lemma DetectsKeeps(cfg: Config, w: World)
    requires Inv(cfg, w)
    ensures Inv(cfg, Record(w, Detect(cfg, w.c, w.clock), {}))
  {
    hide Inv, CInv, Moves, Quiet, Detect, PacketOk;
    Parts(cfg, w);
    DetectKeeps(cfg, w.c, w.clock);
    DetectIsQuiet(cfg, w.c, w.clock);
    CoordinatorStepKeeps(cfg, w, Detect(cfg, w.c, w.clock), {});
  }

  lemma DownsKeeps(cfg: Config, w: World, id: Identity)
    requires Inv(cfg, w)
    ensures Inv(cfg, Record(w, Down(cfg, w.c, id).0, {}))
  {
    hide Inv, CInv, Moves, Quiet, Down, PacketOk;
    Parts(cfg, w);
    DownKeeps(cfg, w.c, id);
    DownIsQuiet(cfg, w.c, id);
    CoordinatorStepKeeps(cfg, w, Down(cfg, w.c, id).0, {});
  }

  lemma SelfLeavesKeeps(cfg: Config, w: World, status: Status)
    requires Inv(cfg, w) && w.c.stopping && cfg.coordinator in w.c.members
    requires Rank(w.c.members[cfg.coordinator].status) < Rank(status)
    ensures Inv(cfg, Record(w, SelfMoves(cfg, w.c, status), {}))
  {
    hide Inv, CInv, Moves, Quiet, SelfMoves, PacketOk;
    Parts(cfg, w);
    SelfMovesKeeps(cfg, w.c, status);
    SelfMovesIsQuiet(cfg, w.c, status);
    CoordinatorStepKeeps(cfg, w, SelfMoves(cfg, w.c, status), {});
  }

  lemma FreeKeeps(cfg: Config, c: Coordinator, d: Coordinator)
    requires CInv(cfg, d) && !d.work.FinishLeave? && Moves(c, d)
    ensures CInv(cfg, d.(work := Free)) && Moves(c, d.(work := Free))
  {
    hide GoodPoint, Later;
    var e := d.(work := Free);
    forall j ensures KeysAt(cfg, e, j) && WorkAt(cfg, e, j) {
      assert KeysAt(cfg, d, j) && WorkAt(cfg, d, j);
    }
  }

  lemma ExpireKeepsWork(c: Coordinator, i: Identity, request: RequestId)
    ensures Expire(c, i, request).work == c.work
  {
  }

  /** Taking back a provisional join, and freeing the worker if it was to do that. */
  lemma ExpiresKeeps(cfg: Config, w: World, id: Identity, request: RequestId, d: Coordinator)
    requires Inv(cfg, w) && !w.c.work.FinishLeave?
    requires d == Expire(w.c, id, request) || d == Expire(w.c, id, request).(work := Free)
    ensures Inv(cfg, Record(w, d, {}))
  {
    hide Inv, CInv, Moves, Quiet, Expire, PacketOk;
    Parts(cfg, w);
    ExpireKeeps(cfg, w.c, id, request);
    ExpireIsQuiet(w.c, id, request);
    ExpireKeepsWork(w.c, id, request);
    FreeKeeps(cfg, w.c, Expire(w.c, id, request));
    CoordinatorStepKeeps(cfg, w, d, {});
  }

  /** The acknowledgement of a leave reports the member as left at the moment it leaves. */
  lemma LeaveAckIsOk(cfg: Config, w: World)
    requires Inv(cfg, w) && w.c.work.FinishLeave? && w.c.work.who in w.c.members
    ensures var d := EndLeave(w.c);
            PacketOk(cfg, w.hist[d.revision := PointOf(d)], w.nodes,
                     LeaveAck(w.c.work.who, w.c.work.request, d.revision, d.members))
  {
    hide Inv, Moves, Quiet, Replace, Revoke;
    Parts(cfg, w);
    var c, to := w.c, w.c.work.who;
    ReplaceIs(c.(revision := c.revision + 1), to, c.members[to].(status := Left));
    RevokeIs(Departed(c, to), to, to);
    forall j ensures SoleAt(EndLeave(c).members, to, j) {
      assert !Rivals(c.members, to, j);
    }
    assert KeysAt(cfg, c, to);
    StillIsQuiet(c);
    TokenHolder(cfg, w, c, to);
  }

  lemma FinishesLeaveKeeps(cfg: Config, w: World)
    requires Inv(cfg, w) && w.c.work.FinishLeave? && w.c.work.who in w.c.members
    ensures var d := EndLeave(w.c);
            Inv(cfg, Record(w, d, {LeaveAck(w.c.work.who, w.c.work.request, d.revision, d.members)}))
  {
    hide Inv, CInv, Moves, Quiet, EndLeave, PacketOk;
    Parts(cfg, w);
    EndLeaveKeeps(cfg, w.c);
    EndLeaveIsQuiet(w.c);
    LeaveAckIsOk(cfg, w);
    var d := EndLeave(w.c);
    CoordinatorStepKeeps(cfg, w, d, {LeaveAck(w.c.work.who, w.c.work.request, d.revision, d.members)});
  }
}
