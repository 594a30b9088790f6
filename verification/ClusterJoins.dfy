/** Joining: new members, their tokens and their confirmations. */
module ClusterJoins {
  import opened ClusterCoordinator
  import opened ClusterBookkeeping
  import opened ClusterRuns
  import opened ClusterInvariant
  import opened ClusterSteps

  // ----- Confirmations -----

  /** The participant holds an acceptance of its current token. */
  predicate Granted(w: World, i: Identity) {
    i in w.nodes && w.nodes[i].token.Some? && i in w.since && w.since[i] <= w.nodes[i].grant
  }

  lemma ConfirmerIsGranted(cfg: Config, w: World, k: Packet)
    requires Inv(cfg, w) && k in w.net && k.JoinConfirm? && k.from in w.c.tokens && w.c.tokens[k.from] == k.token
    ensures Granted(w, k.from)
  {
    Sender(cfg, w, k);
    hide CInv, HistInv, PacketOk, NodeInv, ListedAt;
    assert TokenAt(w, k.from) && ConfirmAt(w, k);
    assert GrantAt(w.c, w.since, w.issued, (k.from, k.token, k.grant));
  }

  lemma TokensOfConfirm(cfg: Config, w: World, d: Coordinator, i: Identity)
    requires Inv(cfg, w) && Granted(w, i) && d.tokens == w.c.tokens && w.c.revision <= d.revision
    requires i in w.c.members && d.members == w.c.members[i := w.c.members[i].(status := Up)]
    ensures TokenInv(Record(w, d, {}))
  {
    hide CInv, HistInv, NodeInv, PacketOk, ListedAt;
    var v := Record(w, d, {});
    forall j ensures TokenAt(v, j) && HolderAt(v, j) { assert TokenAt(w, j) && HolderAt(w, j); }
    forall g | g in v.grants ensures GrantAt(v.c, v.since, v.issued, g) {
      assert GrantAt(w.c, w.since, w.issued, g);
    }
    forall k | k in v.net ensures ConfirmAt(v, k) { assert ConfirmAt(w, k); }
  }

  lemma ConfirmIs(c: Coordinator, i: Identity, request: RequestId, token: Token, now: nat)
    requires MayConfirm(c, i, request, token, now)
    ensures var d := Confirm(c, i, request, token, now);
            && d.tokens == c.tokens && d.revision == c.revision + 1
            && d.members == c.members[i := c.members[i].(status := Up)]
  {
  }

  lemma ConfirmKeepsInv(cfg: Config, w: World, k: Packet)
    requires Inv(cfg, w) && k in w.net && k.JoinConfirm? && w.c.work.Free?
    ensures Inv(cfg, Record(w, Confirm(w.c, k.from, k.request, k.token, w.clock), {}))
  {
    hide CInv, HistInv, NodeInv, PacketOk, TokenInv, Moves, Quiet, GoodPoint;
    Parts(cfg, w);
    Sender(cfg, w, k);
    ConfirmKeeps(cfg, w.c, k.from, k.request, k.token, w.clock);
    var d := Confirm(w.c, k.from, k.request, k.token, w.clock);
    if MayConfirm(w.c, k.from, k.request, k.token, w.clock) {
      ConfirmIs(w.c, k.from, k.request, k.token, w.clock);
      hide Confirm, MayConfirm;
      ConfirmerIsGranted(cfg, w, k);
      TokensOfConfirm(cfg, w, d, k.from);
      GoodInside(cfg, d);
      RestUnder(cfg, w, d, {});
      var v := Record(w, d, {});
      forall i ensures ListedAt(cfg, v, i) { assert ListedAt(cfg, w, i); }
    } else {
      hide Inv;
      StillIsQuiet(w.c);
      CoordinatorStepKeeps(cfg, w, d, {});
    }
  }

  lemma GoodInside(cfg: Config, c: Coordinator)
    requires CInv(cfg, c)
    ensures GoodPoint(cfg, PointOf(c))
  {
  }

  // ----- Requests -----

  /** What a join request does to members and tokens. */
  ghost predicate JoinEffect(c: Coordinator, d: Coordinator, i: Identity, endpoint: Endpoint, token: Token,
                             answered: bool)
  {
    if answered && i !in c.members then
      && i !in c.tokens && d.tokens == c.tokens[i := token] && d.revision == c.revision + 1
      && i in d.members && d.members[i] == Member(endpoint, Joining, true)
      && (forall j :: j in d.members && j != i ==> j in c.members && d.members[j] == c.members[j])
    else
      d.members == c.members && d.tokens == c.tokens && d.revision == c.revision && (answered ==> i in c.tokens)
  }

  /** Room was made, and a new member entered. */
  lemma EntryIs(cfg: Config, c: Coordinator, room: Coordinator, i: Identity, endpoint: Endpoint, request: RequestId,
                ref: nat, token: Token, now: nat)
    requires MakesRoom(cfg, c, room, true) && i !in c.members && i !in c.tokens
    ensures var d := Enter(cfg, room, i, endpoint, request, ref, token, now);
            JoinEffect(c, d, i, endpoint, token, true) && d.work == c.work
  {
    hide MakesRoom, Enter;
    RoomKeeps(cfg, c, room, true, i);
    EnterIs(cfg, room, i, endpoint, request, ref, token, now, i);
    forall j | j in room.members ensures j in c.members && room.members[j] == c.members[j] {
      RoomKeeps(cfg, c, room, true, j);
    }
  }

  lemma JoinIs(cfg: Config, c: Coordinator, i: Identity, endpoint: Endpoint, request: RequestId, ref: nat,
               token: Token, now: nat)
    requires CInv(cfg, c) && i != cfg.coordinator
    ensures var (d, answered) := Join(cfg, c, i, endpoint, request, ref, token, now);
            JoinEffect(c, d, i, endpoint, token, answered) && d.work == c.work
  {
    assert KeysAt(cfg, c, i);
    hide CInv, Enter, Reserve, KeysAt, MakesRoom, SameName;
    if MayJoin(cfg, c, i, endpoint, request) {
      if i in c.members {
        EnterIs(cfg, c, i, endpoint, request, ref, token, now, i);
      } else {
        ReserveMakesRoom(cfg, c);
        var (room, ok) := Reserve(cfg, c);
        if ok {
          EntryIs(cfg, c, room, i, endpoint, request, ref, token, now);
          hide JoinEffect;
        } else {
          RoomKeeps(cfg, c, room, ok, i);
        }
      }
    }
  }

  /** The world after a new member was entered, before its acceptance is sent. */
  function Entered(w: World, d: Coordinator, i: Identity, token: Token): World {
    w.(since := w.since[i := d.revision], issued := w.issued + {token})
  }

  lemma TokensOfEntry(cfg: Config, w: World, d: Coordinator, i: Identity, endpoint: Endpoint, token: Token)
    requires Inv(cfg, w) && i in w.nodes && token !in w.issued && i !in w.c.members
    requires JoinEffect(w.c, d, i, endpoint, token, true)
    ensures TokenInv(Record(Entered(w, d, i, token), d, {}))
  {
    hide CInv, HistInv, NodeInv, PacketOk, ListedAt;
    var v := Record(Entered(w, d, i, token), d, {});
    forall j ensures TokenAt(v, j) && HolderAt(v, j) { assert TokenAt(w, j) && HolderAt(w, j); }
    forall g | g in v.grants ensures GrantAt(v.c, v.since, v.issued, g) {
      assert GrantAt(w.c, w.since, w.issued, g);
    }
    forall k | k in v.net ensures ConfirmAt(v, k) { assert ConfirmAt(w, k); }
  }

  lemma EntryKeeps(cfg: Config, w: World, d: Coordinator, i: Identity, endpoint: Endpoint, token: Token)
    requires Inv(cfg, w) && i in w.nodes && token !in w.issued && i !in w.c.members
    requires JoinEffect(w.c, d, i, endpoint, token, true) && CInv(cfg, d) && Moves(w.c, d)
    requires endpoint == w.nodes[i].endpoint
    ensures Inv(cfg, Record(Entered(w, d, i, token), d, {}))
  {
    TokensOfEntry(cfg, w, d, i, endpoint, token);
    GoodInside(cfg, d);
    RestUnder(cfg, w, d, {});
    hide CInv, HistInv, NodeInv, PacketOk, TokenInv, Moves;
    var v := Record(Entered(w, d, i, token), d, {});
    forall j ensures ListedAt(cfg, v, j) { assert ListedAt(cfg, w, j); }
  }

  lemma AcceptanceTokens(cfg: Config, w: World, i: Identity, k: Packet)
    requires Inv(cfg, w) && i in w.c.tokens && k.JoinAccepted? && k.to == i && k.token == w.c.tokens[i]
    requires k.revision == w.c.revision
    ensures TokenInv(w.(net := w.net + {k}, grants := w.grants + {(i, w.c.tokens[i], w.c.revision)}))
  {
    var v := w.(net := w.net + {k}, grants := w.grants + {(i, w.c.tokens[i], w.c.revision)});
    hide CInv, HistInv, NodeInv, PacketOk, ListedAt;
    assert TokenAt(w, i);
    forall j ensures TokenAt(v, j) && HolderAt(v, j) { assert TokenAt(w, j) && HolderAt(w, j); }
    forall g | g in v.grants ensures GrantAt(v.c, v.since, v.issued, g) {
      if g in w.grants { assert GrantAt(w.c, w.since, w.issued, g); }
    }
    forall q | q in v.net ensures ConfirmAt(v, q) {
      if q in w.net { assert ConfirmAt(w, q); }
    }
  }

  /** Sending the acceptance of the current token. */
  lemma AcceptanceKeeps(cfg: Config, w: World, i: Identity, request: RequestId)
    requires Inv(cfg, w) && i in w.c.tokens
    ensures var k := JoinAccepted(i, request, w.c.tokens[i], w.c.revision, w.c.members);
            Inv(cfg, w.(net := w.net + {k}, grants := w.grants + {(i, w.c.tokens[i], w.c.revision)}))
  {
    hide CInv, HistInv, NodeInv, PacketOk, TokenInv, Moves, Quiet;
    var k := JoinAccepted(i, request, w.c.tokens[i], w.c.revision, w.c.members);
    var v := w.(net := w.net + {k}, grants := w.grants + {(i, w.c.tokens[i], w.c.revision)});
    StillIsQuiet(w.c);
    Parts(cfg, w);
    AnswerIsOk(cfg, w, w.c, k);
    AcceptanceTokens(cfg, w, i, k);
    forall j ensures ListedAt(cfg, v, j) { assert ListedAt(cfg, w, j); }
  }

  /** A worker that has to take the join back. */
  lemma UndoKeeps(cfg: Config, w: World, i: Identity, request: RequestId)
    requires Inv(cfg, w) && w.c.work.Free?
    ensures Inv(cfg, w.(c := w.c.(work := UndoJoin(i, request))))
  {
    hide NodeInv, PacketOk, GoodPoint, Later;
    var d := w.c.(work := UndoJoin(i, request));
    var v := w.(c := d);
    forall j ensures KeysAt(cfg, d, j) && WorkAt(cfg, d, j) && ListedAt(cfg, v, j) {
      assert KeysAt(cfg, w.c, j) && WorkAt(cfg, w.c, j) && ListedAt(cfg, w, j);
    }
    forall j ensures TokenAt(v, j) && HolderAt(v, j) { assert TokenAt(w, j) && HolderAt(w, j); }
    forall g | g in v.grants ensures GrantAt(v.c, v.since, v.issued, g) {
      assert GrantAt(w.c, w.since, w.issued, g);
    }
    forall q | q in v.net ensures ConfirmAt(v, q) { assert ConfirmAt(w, q); }
  }

  lemma JoiningKeeps(cfg: Config, w: World, k: Packet, token: Token, delivered: bool)
    requires Inv(cfg, w) && k in w.net && k.JoinRequest? && w.c.work.Free? && token !in w.issued
    ensures Inv(cfg, Admitting(cfg, w, k, token, delivered))
  {
    hide Inv, CInv, Moves, Quiet, Join;
    Parts(cfg, w);
    Sender(cfg, w, k);
    var (d, answered) := Join(cfg, w.c, k.from, k.endpoint, k.request, k.ref, token, w.clock);
    JoinKeeps(cfg, w.c, k.from, k.endpoint, k.request, k.ref, token, w.clock);
    JoinIs(cfg, w.c, k.from, k.endpoint, k.request, k.ref, token, w.clock);
    if answered && k.from !in w.c.members {
      var v := Record(Entered(w, d, k.from, token), d, {});
      EntryKeeps(cfg, w, d, k.from, k.endpoint, token);
      AnswerOrUndo(cfg, v, k);
      assert v.net == w.net && PointOf(d) == PointOf(d.(work := UndoJoin(k.from, k.request)));
    } else {
      SameIsQuiet(w.c, d);
      var v := Record(w, d, {});
      CoordinatorStepKeeps(cfg, w, d, {});
      assert v.net == w.net && PointOf(d) == PointOf(d.(work := UndoJoin(k.from, k.request)));
      if answered { AnswerOrUndo(cfg, v, k); }
    }
  }

  lemma SameIsQuiet(c: Coordinator, d: Coordinator)
    requires d.members == c.members && d.tokens == c.tokens
    ensures Quiet(c, d)
  {
    forall j ensures QuietAt(c, d, j) { }
  }

  lemma AnswerOrUndo(cfg: Config, w: World, k: Packet)
    requires Inv(cfg, w) && k.JoinRequest? && k.from in w.c.tokens && w.c.work.Free?
    ensures Inv(cfg, w.(c := w.c.(work := UndoJoin(k.from, k.request))))
    ensures var a := JoinAccepted(k.from, k.request, w.c.tokens[k.from], w.c.revision, w.c.members);
            Inv(cfg, w.(net := w.net + {a}, grants := w.grants + {(k.from, w.c.tokens[k.from], w.c.revision)}))
  {
    hide Inv;
    UndoKeeps(cfg, w, k.from, k.request);
    AcceptanceKeeps(cfg, w, k.from, k.request);
  }
}
