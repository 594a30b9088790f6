/** How participants take in the coordinator's snapshots. */
module ClusterViews {
  import opened Basics
  import opened ClusterCoordinator
  import opened ClusterBookkeeping
  import opened ClusterParticipant
  import opened ClusterInvariant

  lemma {:induction false} SubsetSize<T>(a: set<T>, b: set<T>)
    requires a <= b
    ensures |a| <= |b|
  {
    assert |b| == |a| + |b - a| by { assert b == a + (b - a); }
  }

  /** What a participant knows to have left has left, or is retired, at every later point. */
  lemma KnownGone(cfg: Config, hist: map<nat, Point>, c: Coordinator, self: Identity, p: Participant, s: nat,
                  j: Identity)
    requires HistInv(cfg, hist, c) && NodeInv(cfg, hist, self, p) && s in hist && p.revision < s
    requires (j in p.members && p.members[j].status.Left? && j != self) || j in p.retired
    ensures if j in hist[s].members then hist[s].members[j].status.Left? && j !in p.retired else j in hist[s].retired
  {
    if p.snapshot.Some? {
      var x, y := hist[p.revision], hist[s];
      assert ShownAt(cfg, self, p.members, p.snapshot.value, j);
      assert Later(x, y);
      assert LaterAt(x, y, j) && ListedWell(cfg, y, j);
    }
  }

  lemma DroppedAreRetired(cfg: Config, hist: map<nat, Point>, c: Coordinator, self: Identity, p: Participant, s: nat)
    requires HistInv(cfg, hist, c) && NodeInv(cfg, hist, self, p) && s in hist && p.revision < s
    requires self in hist[s].members
    ensures p.retired + Dropped(p, hist[s].members) <= hist[s].retired
  {
    forall j | j in p.retired + Dropped(p, hist[s].members) ensures j in hist[s].retired {
      KnownGone(cfg, hist, c, self, p, s, j);
    }
  }

  /** A snapshot the coordinator really took, newer than the view, is rejected only because the participant has
      already left by its own account while the snapshot still lists it as active. */
  lemma RejectedIffLeft(cfg: Config, hist: map<nat, Point>, c: Coordinator, self: Identity, p: Participant, s: nat,
                        table: Members)
    requires HistInv(cfg, hist, c) && NodeInv(cfg, hist, self, p) && p.revision < s && p.contacted
    requires Honest(hist, self, p.endpoint, s, table)
    ensures Rejected(cfg, self, p, table) <==> p.members[self].status.Left? && !table[self].status.Left?
  {
    assert GoodPoint(cfg, hist[s]);
    forall i | i in table ensures !WrongEndpoint(cfg, self, p, i, table[i]) {
      assert ListedWell(cfg, hist[s], i);
    }
    DroppedAreRetired(cfg, hist, c, self, p, s);
    SubsetSize(p.retired + Dropped(p, table), hist[s].retired);
    forall i | i in table && Revived(p, i, table[i]) && (i != self || i in p.retired) ensures false {
      KnownGone(cfg, hist, c, self, p, s, i);
    }
    if p.members[self].status.Left? && !table[self].status.Left? {
      assert Revived(p, self, table[self]);
    }
  }

  /** Exactly which snapshots of the coordinator a participant accepts. */
  lemma AcceptedIff(cfg: Config, hist: map<nat, Point>, c: Coordinator, self: Identity, p: Participant, s: nat,
                    table: Members)
    requires HistInv(cfg, hist, c) && NodeInv(cfg, hist, self, p) && p.contacted
    requires Honest(hist, self, p.endpoint, s, table)
    ensures Apply(cfg, self, p, s, table).1
            <==> p.revision == s || (p.revision < s && !(p.members[self].status.Left? && !table[self].status.Left?))
  {
    assert GoodPoint(cfg, hist[s]);
    hide Rejected, Install, GoodPoint, NodeInv;
    if p.revision < s {
      RejectedIffLeft(cfg, hist, c, self, p, s, table);
    } else if p.revision == s {
      SameRevision(cfg, hist, self, p, s, table);
    }
  }

  lemma SameRevision(cfg: Config, hist: map<nat, Point>, self: Identity, p: Participant, s: nat, table: Members)
    requires NodeInv(cfg, hist, self, p) && Honest(hist, self, p.endpoint, s, table) && p.revision == s > 0
    ensures p.snapshot == Some(table)
  {
  }

  // ----- What accepting keeps -----

  lemma OwnShown(cfg: Config, self: Identity, p: Participant, table: Members, j: Identity)
    requires self in p.members && self in table
    ensures ShownAt(cfg, self, Own(self, p, table), table, j)
  {
  }

  lemma InstallKeeps(cfg: Config, hist: map<nat, Point>, c: Coordinator, self: Identity, p: Participant, s: nat,
                     table: Members)
    requires HistInv(cfg, hist, c) && NodeInv(cfg, hist, self, p) && p.revision < s && p.contacted
    requires Honest(hist, self, p.endpoint, s, table)
    requires table[self].status.Left? ==> p.leaveRequest.Some?
    ensures NodeInv(cfg, hist, self, Install(self, p, s, table))
  {
    DroppedAreRetired(cfg, hist, c, self, p, s);
    forall j ensures ShownAt(cfg, self, Own(self, p, table), table, j) { OwnShown(cfg, self, p, table, j); }
    hide HistInv, ShownAt, Dropped;
    assert Own(self, p, table)[self].status == p.members[self].status
           || (Own(self, p, table) == table && !p.members[self].status.Left?);
  }

  lemma ApplyKeeps(cfg: Config, hist: map<nat, Point>, c: Coordinator, self: Identity, p: Participant, s: nat,
                   table: Members)
    requires HistInv(cfg, hist, c) && NodeInv(cfg, hist, self, p) && p.contacted
    requires Honest(hist, self, p.endpoint, s, table)
    requires table[self].status.Left? ==> p.leaveRequest.Some?
    ensures var q := Apply(cfg, self, p, s, table).0;
            && NodeInv(cfg, hist, self, q) && p.revision <= q.revision
            && q == p.(members := q.members, revision := q.revision, view := q.view, retired := q.retired,
                       snapshot := q.snapshot)
            && (Apply(cfg, self, p, s, table).1 ==> q.revision == s)
  {
    hide NodeInv, Rejected;
    if p.revision < s { InstallKeeps(cfg, hist, c, self, p, s, table); }
    if p.revision == s { HistPositive(cfg, hist, c, s); SameRevision(cfg, hist, self, p, s, table); }
  }

  lemma HistPositive(cfg: Config, hist: map<nat, Point>, c: Coordinator, s: nat)
    requires HistInv(cfg, hist, c) && s in hist
    ensures 1 <= s <= c.revision
  {
  }

  /** Everything the other nodes can tell about a participant stays, apart from a newer view. */
  predicate Steady(p: Participant, q: Participant) {
    q.endpoint == p.endpoint && p.revision <= q.revision && q.token == p.token && q.grant == p.grant
  }

  lemma VerdictKeeps(cfg: Config, hist: map<nat, Point>, self: Identity, p: Participant, reachable: bool)
    requires NodeInv(cfg, hist, self, p) && cfg.coordinator in p.members
    ensures NodeInv(cfg, hist, self, Put(p, cfg.coordinator, p.members[cfg.coordinator].(reachable := reachable)))
  {
    hide Honest;
    var q := Put(p, cfg.coordinator, p.members[cfg.coordinator].(reachable := reachable));
    if p.snapshot.Some? {
      forall j ensures ShownAt(cfg, self, q.members, p.snapshot.value, j) {
        assert ShownAt(cfg, self, p.members, p.snapshot.value, j);
      }
    }
  }

  lemma PlainKeeps(cfg: Config, hist: map<nat, Point>, self: Identity, p: Participant, q: Participant)
    requires NodeInv(cfg, hist, self, p)
    requires q == p.(acked := q.acked, evidence := q.evidence, joinRequest := q.joinRequest, joined := q.joined,
                     sequence := q.sequence, token := q.token, grant := q.grant)
    ensures NodeInv(cfg, hist, self, q)
  {
    hide Honest, ShownAt;
  }

  lemma HeardKeeps(cfg: Config, hist: map<nat, Point>, self: Identity, p: Participant, now: int)
    requires NodeInv(cfg, hist, self, p)
    ensures var q := FinishJoin(self, SeeCoordinator(cfg, p, now)); NodeInv(cfg, hist, self, q) && Steady(p, q)
  {
    hide NodeInv;
    var e := p.(evidence := Some(now));
    PlainKeeps(cfg, hist, self, p, e);
    if cfg.coordinator in p.members { VerdictKeeps(cfg, hist, self, e, true); }
    var seen := SeeCoordinator(cfg, p, now);
    PlainKeeps(cfg, hist, self, seen, FinishJoin(self, seen));
  }

  lemma AckedKeeps(cfg: Config, hist: map<nat, Point>, c: Coordinator, self: Identity, p: Participant, token: Token,
                   sequence: nat, s: nat, table: Members, now: int)
    requires HistInv(cfg, hist, c) && NodeInv(cfg, hist, self, p)
    requires Honest(hist, self, p.endpoint, s, table) && !table[self].status.Left?
    ensures var q := Acked(cfg, self, p, token, sequence, s, table, now); NodeInv(cfg, hist, self, q) && Steady(p, q)
  {
    assert self in p.members;
    hide NodeInv, HistInv, Honest, Apply, FinishJoin, SeeCoordinator;
    if p.contacted {
      ApplyKeeps(cfg, hist, c, self, p, s, table);
      var q := Apply(cfg, self, p, s, table).0;
      PlainKeeps(cfg, hist, self, q, q.(acked := sequence));
      HeardKeeps(cfg, hist, self, q.(acked := sequence), now);
    }
  }

  lemma UpdatedKeeps(cfg: Config, hist: map<nat, Point>, c: Coordinator, self: Identity, p: Participant, token: Token,
                     s: nat, table: Members, now: int)
    requires HistInv(cfg, hist, c) && NodeInv(cfg, hist, self, p)
    requires Honest(hist, self, p.endpoint, s, table) && !table[self].status.Left?
    ensures var q := Updated(cfg, self, p, token, s, table, now); NodeInv(cfg, hist, self, q) && Steady(p, q)
  {
    assert self in p.members;
    hide NodeInv, HistInv, Honest, Apply, FinishJoin, SeeCoordinator;
    if p.contacted {
      ApplyKeeps(cfg, hist, c, self, p, s, table);
      HeardKeeps(cfg, hist, self, Apply(cfg, self, p, s, table).0, now);
    }
  }

  lemma LeaveAckedKeeps(cfg: Config, hist: map<nat, Point>, c: Coordinator, self: Identity, p: Participant,
                        request: RequestId, s: nat, table: Members)
    requires HistInv(cfg, hist, c) && NodeInv(cfg, hist, self, p) && Honest(hist, self, p.endpoint, s, table)
    ensures var q := LeaveAcked(cfg, self, p, request, s, table); NodeInv(cfg, hist, self, q) && Steady(p, q)
  {
    assert self in p.members;
    hide HistInv, Honest, Apply, ShownAt;
    if p.contacted && p.leaveRequest == Some(request) { ApplyKeeps(cfg, hist, c, self, p, s, table); }
  }

  lemma AcceptedKeeps(cfg: Config, hist: map<nat, Point>, c: Coordinator, self: Identity, p: Participant,
                      request: RequestId, token: Token, s: nat, table: Members, now: int)
    requires HistInv(cfg, hist, c) && NodeInv(cfg, hist, self, p)
    requires Honest(hist, self, p.endpoint, s, table) && !table[self].status.Left?
    ensures var (q, confirms) := Accepted(cfg, self, p, request, token, s, table, now);
            && NodeInv(cfg, hist, self, q) && q.endpoint == p.endpoint && p.revision <= q.revision
            && (if confirms then q.token == Some(token) && q.grant == s == q.revision
                else q.token == p.token && q.grant == p.grant)
  {
    assert self in p.members;
    hide NodeInv, HistInv, Honest, Apply;
    if p.contacted && p.joinRequest == Some(request) {
      ApplyKeeps(cfg, hist, c, self, p, s, table);
      var q := Apply(cfg, self, p, s, table).0;
      PlainKeeps(cfg, hist, self, q, q.(token := Some(token), grant := s, evidence := Some(now)));
    }
  }

  /** A participant's own steps towards leaving. */
  lemma OwnStatusKeeps(cfg: Config, hist: map<nat, Point>, self: Identity, p: Participant, status: Status,
                       q: Participant)
    requires NodeInv(cfg, hist, self, p) && (status.Leaving? || status.Left?)
    requires var r := Put(p, self, p.members[self].(status := status));
             q == r.(leaveRequest := q.leaveRequest, leaveDone := q.leaveDone, stage := q.stage)
    requires if status.Left? then q.stage.Closed? else q.stage.Closing?
    ensures NodeInv(cfg, hist, self, q)
  {
    hide Honest;
    if p.snapshot.Some? {
      forall j ensures ShownAt(cfg, self, q.members, p.snapshot.value, j) {
        assert ShownAt(cfg, self, p.members, p.snapshot.value, j);
      }
    }
  }
}
