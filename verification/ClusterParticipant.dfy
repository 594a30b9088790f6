/** A cluster participant: the view it keeps of the coordinator's member table. */
module ClusterParticipant {
  import opened Basics
  import opened ClusterCoordinator

  /** How far its shutdown has got. */
  datatype Stage = Serving | Departing | Closing | Closed

  /** `grant` is the wire revision at which the membership token was received. `snapshot` is the member table last
      accepted from the coordinator, as it came. */
  datatype Participant =
    Participant(endpoint: Endpoint, members: Members, revision: nat, view: nat, contacted: bool,
                token: Option<Token>, grant: nat, joinRequest: Option<RequestId>, joined: bool,
                leaveRequest: Option<RequestId>, leaveDone: bool, sequence: nat, acked: int,
                retired: set<Identity>, snapshot: Option<Members>, evidence: Option<int>, stage: Stage)

  function Fresh(self: Identity, endpoint: Endpoint): Participant {
    Participant(endpoint, map[self := Member(endpoint, Joining, true)], 0, 0, false, None, 0, None, false, None, false,
                0, -1, {}, None, None, Serving)
  }

  function Put(p: Participant, i: Identity, m: Member): Participant {
    if i in p.members && p.members[i] == m then p else p.(view := p.view + 1, members := p.members[i := m])
  }

  // ----- Accepting a snapshot -----

  predicate WrongEndpoint(cfg: Config, self: Identity, p: Participant, i: Identity, m: Member) {
    if i == self then m.endpoint != p.endpoint else i.name == cfg.coordinator.name && m.endpoint != cfg.seed
  }

  /** Departed members that a snapshot no longer lists. */
  function Dropped(p: Participant, table: Members): set<Identity> {
    set i | i in p.members && p.members[i].status.Left? && i !in table
  }

  /** A member this participant knows to have left comes back. */
  predicate Revived(p: Participant, i: Identity, m: Member) {
    !m.status.Left? && (i in p.retired || (i in p.members && p.members[i].status.Left?))
  }

  predicate Rejected(cfg: Config, self: Identity, p: Participant, table: Members) {
    || (exists i :: i in table && WrongEndpoint(cfg, self, p, i, table[i]))
    || self !in table || !p.contacted || cfg.coordinator !in table
    || |p.retired + Dropped(p, table)| > cfg.retiredLimit
    || (exists i :: i in table && Revived(p, i, table[i]))
  }

  /** A participant that is leaving keeps saying so itself. */
  function Own(self: Identity, p: Participant, table: Members): Members
    requires self in table && self in p.members
  {
    var status := p.members[self].status;
    if status.Leaving? || status.Left? then table[self := table[self].(status := status)] else table
  }

  function Install(self: Identity, p: Participant, revision: nat, table: Members): Participant
    requires self in table && self in p.members
  {
    var mine := Own(self, p, table);
    p.(members := mine, revision := revision, view := if p.members == mine then p.view else p.view + 1,
       retired := p.retired + Dropped(p, table), snapshot := Some(table))
  }

  function Apply(cfg: Config, self: Identity, p: Participant, revision: nat, table: Members): (Participant, bool)
    requires self in p.members
  {
    if revision < p.revision || |table| > cfg.memberLimit then (p, false)
    else if revision == p.revision && p.snapshot.Some? then (p, table == p.snapshot.value)
    else if Rejected(cfg, self, p, table) then (p, false)
    else (Install(self, p, revision, table), true)
  }

  // ----- Messages from the coordinator -----

  function SeeCoordinator(cfg: Config, p: Participant, now: int): Participant {
    var q := p.(evidence := Some(now));
    if cfg.coordinator in q.members && !q.members[cfg.coordinator].reachable
    then Put(q, cfg.coordinator, q.members[cfg.coordinator].(reachable := true)) else q
  }

  function FinishJoin(self: Identity, p: Participant): Participant {
    if p.joinRequest.Some? && self in p.members && p.members[self].status.Up?
    then p.(joinRequest := None, joined := true) else p
  }

  /** The result says whether the participant goes on to confirm. */
  function Accepted(cfg: Config, self: Identity, p: Participant, request: RequestId, token: Token, revision: nat,
                    table: Members, now: int): (Participant, bool)
    requires self in p.members
  {
    if !p.contacted || p.joinRequest != Some(request) then (p, false)
    else
      var (q, ok) := Apply(cfg, self, p, revision, table);
      if !ok then (q, false) else (q.(token := Some(token), grant := revision, evidence := Some(now)), true)
  }

  function Acked(cfg: Config, self: Identity, p: Participant, token: Token, sequence: nat, revision: nat,
                 table: Members, now: int): Participant
    requires self in p.members
  {
    if !p.contacted || p.token != Some(token) || sequence <= p.acked || sequence >= p.sequence then p
    else
      var (q, ok) := Apply(cfg, self, p, revision, table);
      if !ok then q else FinishJoin(self, SeeCoordinator(cfg, q.(acked := sequence), now))
  }

  function Updated(cfg: Config, self: Identity, p: Participant, token: Token, revision: nat, table: Members,
                   now: int): Participant
    requires self in p.members
  {
    if !p.contacted || p.token != Some(token) then p
    else
      var (q, ok) := Apply(cfg, self, p, revision, table);
      if !ok then q else FinishJoin(self, SeeCoordinator(cfg, q, now))
  }

  function LeaveAcked(cfg: Config, self: Identity, p: Participant, request: RequestId, revision: nat,
                      table: Members): Participant
    requires self in p.members
  {
    if !p.contacted || p.leaveRequest != Some(request) then p
    else Apply(cfg, self, p, revision, table).0.(leaveDone := true, leaveRequest := None)
  }

  // ----- What it does by itself -----

  function Contact(p: Participant, request: RequestId): Participant {
    p.(contacted := true, joinRequest := Some(request))
  }

  function Doubt(cfg: Config, p: Participant, now: int): Participant {
    if !p.contacted || cfg.coordinator !in p.members || !p.members[cfg.coordinator].status.Up?
       || !p.members[cfg.coordinator].reachable
       || now - (if p.evidence.Some? then p.evidence.value else now) < cfg.unreachableTimeout
    then p
    else Put(p, cfg.coordinator, p.members[cfg.coordinator].(reachable := false))
  }

  function BeginStop(self: Identity, p: Participant): Participant
    requires self in p.members
  {
    var status := p.members[self].status;
    p.(stage := if status.Up? || (status.Joining? && p.token.Some? && p.contacted) then Departing else Closing)
  }

  function AskToLeave(self: Identity, p: Participant, request: RequestId): Participant
    requires self in p.members
  {
    Put(p, self, p.members[self].(status := Leaving))
      .(leaveRequest := Some(request), leaveDone := false, stage := Closing)
  }

  function Close(self: Identity, p: Participant): Participant
    requires self in p.members
  {
    Put(p, self, p.members[self].(status := Left)).(stage := Closed)
  }

  // ----- The participant object -----

  class ClusterView {
    const cfg: Config
    const self: Identity
    const endpoint: Endpoint
    var members: Members
    var revision: nat
    var viewRevision: nat
    var contacted: bool
    var token: Option<Token>
    var grant: nat
    var joinRequest: Option<RequestId>
    var joined: bool
    var leaveRequest: Option<RequestId>
    var leaveDone: bool
    var sequence: nat
    var acked: int
    var retired: set<Identity>
    var snapshot: Option<Members>
    var evidence: Option<int>
    var stage: Stage

    function View(): Participant
      reads this
    {
      Participant(endpoint, members, revision, viewRevision, contacted, token, grant, joinRequest, joined,
                  leaveRequest, leaveDone, sequence, acked, retired, snapshot, evidence, stage)
    }

    constructor (cfg: Config, self: Identity, endpoint: Endpoint)
      ensures this.cfg == cfg && this.self == self && View() == Fresh(self, endpoint)
    {
      this.cfg, this.self, this.endpoint := cfg, self, endpoint;
      members, revision, viewRevision := map[self := Member(endpoint, Joining, true)], 0, 0;
      contacted, token, grant, joinRequest, joined := false, None, 0, None, false;
      leaveRequest, leaveDone, sequence, acked := None, false, 0, -1;
      retired, snapshot, evidence, stage := {}, None, None, Serving;
    }

    method ReplaceMember(i: Identity, m: Member)
      modifies this`members, this`viewRevision
      ensures View() == Put(old(View()), i, m)
    {
      if i in members && members[i] == m { return; }
      viewRevision := viewRevision + 1;
      members := members[i := m];
    }

    method HasWrongEndpoint(table: Members) returns (wrong: bool)
      ensures wrong <==> exists i :: i in table && WrongEndpoint(cfg, self, View(), i, table[i])
    {
      var rest := table.Keys;
      while rest != {}
        invariant rest <= table.Keys
        invariant forall i :: i in table && i !in rest ==> !WrongEndpoint(cfg, self, View(), i, table[i])
        decreases rest
      {
        var i :| i in rest;
        rest := rest - {i};
        if i == self {
          if table[i].endpoint != endpoint { return true; }
        } else if i.name == cfg.coordinator.name && table[i].endpoint != cfg.seed {
          return true;
        }
      }
      wrong := false;
    }

    method HasRevived(table: Members) returns (revived: bool)
      ensures revived <==> exists i :: i in table && Revived(View(), i, table[i])
    {
      var rest := table.Keys;
      while rest != {}
        invariant rest <= table.Keys
        invariant forall i :: i in table && i !in rest ==> !Revived(View(), i, table[i])
        decreases rest
      {
        var i :| i in rest;
        rest := rest - {i};
        if !table[i].status.Left? && (i in retired || (i in members && members[i].status.Left?)) { return true; }
      }
      revived := false;
    }

    method Refuses(table: Members) returns (refused: bool)
      ensures refused == Rejected(cfg, self, View(), table)
    {
      hide WrongEndpoint, Revived;
      var wrong := HasWrongEndpoint(table);
      if wrong || self !in table || !contacted || cfg.coordinator !in table { return true; }
      if |retired + Dropped(View(), table)| > cfg.retiredLimit { return true; }
      refused := HasRevived(table);
    }

    method KeepOwnStatus(table: Members) returns (converted: Members)
      requires self in members && self in table
      ensures converted == Own(self, View(), table)
    {
      converted := table;
      var status := members[self].status;
      if status.Leaving? || status.Left? { converted := table[self := table[self].(status := status)]; }
    }

    method InstallSnapshot(revision: nat, table: Members)
      requires self in members && self in table
      modifies this
      ensures View() == Install(self, old(View()), revision, table)
    {
      hide Own, Dropped;
      var converted := KeepOwnStatus(table);
      var dropped := Dropped(View(), table);
      var changed := members != converted;
      viewRevision := if changed then viewRevision + 1 else viewRevision;
      members := converted;
      this.revision := revision;
      retired := retired + dropped;
      snapshot := Some(table);
    }

    method ApplySnapshot(revision: nat, table: Members) returns (ok: bool)
      requires self in members
      modifies this
      ensures (View(), ok) == Apply(cfg, self, old(View()), revision, table)
    {
      if revision < this.revision || |table| > cfg.memberLimit { return false; }
      if revision == this.revision && snapshot.Some? { return table == snapshot.value; }
      var refused := Refuses(table);
      if refused { return false; }
      hide Install;
      InstallSnapshot(revision, table);
      ok := true;
    }

    method MarkCoordinatorReachable(now: int)
      modifies this
      ensures View() == SeeCoordinator(cfg, old(View()), now)
    {
      evidence := Some(now);
      if cfg.coordinator in members && !members[cfg.coordinator].reachable {
        ReplaceMember(cfg.coordinator, members[cfg.coordinator].(reachable := true));
      }
    }

    method CompleteJoin()
      modifies this
      ensures View() == FinishJoin(self, old(View()))
    {
      if joinRequest.Some? && self in members && members[self].status.Up? { joinRequest, joined := None, true; }
    }

    method HandleJoinAccepted(request: RequestId, token: Token, revision: nat, table: Members, now: int)
      returns (confirms: bool)
      requires self in members
      modifies this
      ensures (View(), confirms) == Accepted(cfg, self, old(View()), request, token, revision, table, now)
    {
      if !contacted || joinRequest != Some(request) { return false; }
      var ok := ApplySnapshot(revision, table);
      if !ok { return false; }
      this.token, grant, evidence := Some(token), revision, Some(now);
      confirms := true;
    }

    method HandleHeartbeatAck(token: Token, sequence: nat, revision: nat, table: Members, now: int)
      requires self in members
      modifies this
      ensures View() == Acked(cfg, self, old(View()), token, sequence, revision, table, now)
    {
      if !contacted || this.token != Some(token) || sequence <= acked || sequence >= this.sequence { return; }
      var ok := ApplySnapshot(revision, table);
      if !ok { return; }
      acked := sequence;
      MarkCoordinatorReachable(now);
      CompleteJoin();
    }

    method HandleMembershipUpdate(token: Token, revision: nat, table: Members, now: int)
      requires self in members
      modifies this
      ensures View() == Updated(cfg, self, old(View()), token, revision, table, now)
    {
      if !contacted || this.token != Some(token) { return; }
      var ok := ApplySnapshot(revision, table);
      if ok {
        MarkCoordinatorReachable(now);
        CompleteJoin();
      }
    }

    method HandleLeaveAck(request: RequestId, revision: nat, table: Members)
      requires self in members
      modifies this
      ensures View() == LeaveAcked(cfg, self, old(View()), request, revision, table)
    {
      if !contacted || leaveRequest != Some(request) { return; }
      var ok := ApplySnapshot(revision, table);
      leaveDone, leaveRequest := true, None;
    }

    method DetectUnreachableCoordinator(now: int)
      modifies this
      ensures View() == Doubt(cfg, old(View()), now)
    {
      if !contacted || cfg.coordinator !in members { return; }
      var m := members[cfg.coordinator];
      if !m.status.Up? || !m.reachable { return; }
      if now - (if evidence.Some? then evidence.value else now) < cfg.unreachableTimeout { return; }
      ReplaceMember(cfg.coordinator, m.(reachable := false));
    }

    method Leave(request: RequestId)
      requires self in members
      modifies this
      ensures View() == AskToLeave(self, old(View()), request)
    {
      ReplaceMember(self, members[self].(status := Leaving));
      leaveRequest, leaveDone, stage := Some(request), false, Closing;
    }
  }
}
