/** The membership coordinator: its tables and the critical sections that change them. */
module ClusterCoordinator {

  type Token(==, !new)
  type RequestId(==, !new)
  type Endpoint(==, !new)

  datatype Identity = Identity(name: string, uid: nat)

  datatype Status = Joining | Up | Leaving | Left

  function Rank(s: Status): nat {
    match s case Joining => 0 case Up => 1 case Leaving => 2 case Left => 3
  }

  datatype Member = Member(endpoint: Endpoint, status: Status, reachable: bool)
  type Members = map<Identity, Member>

  /** `coordinator` and `seed` are the identity and the endpoint of the coordinator itself. */
  datatype Config =
    Config(coordinator: Identity, seed: Endpoint, peers: map<string, Endpoint>, memberLimit: nat, retiredLimit: nat,
           joinTimeout: nat, unreachableTimeout: nat)
  {
    predicate Valid() { memberLimit > 0 && retiredLimit > 0 && joinTimeout > 0 && unreachableTimeout > 0 }
  }

  datatype Provisional = Provisional(request: RequestId, deadline: nat)

  /** What the worker thread still has to do in a further critical section for the message at hand. */
  datatype Work = Free | FinishLeave(who: Identity, request: RequestId) | UndoJoin(who: Identity, request: RequestId)

  datatype Coordinator =
    Coordinator(members: Members, revision: nat, view: nat, tokens: map<Identity, Token>, refs: map<Identity, nat>,
                heartbeats: map<Identity, int>, evidence: map<Identity, int>, pending: map<Identity, Provisional>,
                leftOrder: seq<Identity>, retired: set<Identity>, stopping: bool, work: Work)

  /** A coordinator that has just formed its cluster. */
  function Formed(cfg: Config, now: nat): Coordinator {
    Coordinator(map[cfg.coordinator := Member(cfg.seed, Up, true)], 1, 1, map[], map[], map[],
                map[cfg.coordinator := now], map[], [], {}, false, Free)
  }

  function Replace(c: Coordinator, i: Identity, m: Member): Coordinator {
    if i in c.members && c.members[i] == m then c else c.(view := c.view + 1, members := c.members[i := m])
  }

  function Without<T>(m: map<Identity, T>, i: Identity): map<Identity, T> {
    m - {i}
  }

  function Revoke(c: Coordinator, i: Identity): Coordinator {
    c.(pending := Without(c.pending, i), tokens := Without(c.tokens, i), refs := Without(c.refs, i),
       heartbeats := Without(c.heartbeats, i), evidence := Without(c.evidence, i),
       leftOrder := if i in c.members && c.members[i].status.Left? then c.leftOrder + [i] else c.leftOrder)
  }

  function Evicted(c: Coordinator, i: Identity): (e: Coordinator)
    ensures e.leftOrder == c.leftOrder
  {
    Revoke(c.(retired := c.retired + {i}, members := Without(c.members, i), view := c.view + 1), i)
  }

  /** Make room for one more member by moving departed ones, oldest first, to the retired set. */
  function Reserve(cfg: Config, c: Coordinator): (Coordinator, bool)
    decreases |c.leftOrder|
  {
    if |c.members| < cfg.memberLimit || c.leftOrder == [] then (c, |c.members| < cfg.memberLimit)
    else
      var i := c.leftOrder[0];
      var popped := c.(leftOrder := c.leftOrder[1..]);
      if !(i in c.members && c.members[i].status.Left?) then Reserve(cfg, popped)
      else if i !in c.retired && |c.retired| >= cfg.retiredLimit then (popped, false)
      else
        Reserve(cfg, Evicted(popped, i))
  }

  predicate SameName(members: Members, i: Identity) {
    exists j :: j in members && j.name == i.name && j != i && !members[j].status.Left?
  }

  predicate MayJoin(cfg: Config, c: Coordinator, i: Identity, endpoint: Endpoint, request: RequestId) {
    && i.name in cfg.peers && cfg.peers[i.name] == endpoint
    && !c.stopping && !SameName(c.members, i) && i !in c.retired
    && (i in c.members ==> c.members[i].status.Joining?)
    && (i in c.pending ==> c.pending[i].request == request)
  }

  function Grant(c: Coordinator, i: Identity, ref: nat, token: Token, now: nat): Coordinator {
    c.(tokens := if i in c.tokens then c.tokens else c.tokens[i := token], refs := c.refs[i := ref],
       evidence := c.evidence[i := now],
       heartbeats := if i in c.heartbeats then c.heartbeats else c.heartbeats[i := -1])
  }

  function List(c: Coordinator, i: Identity, endpoint: Endpoint): Coordinator {
    if i in c.members then c else Replace(c.(revision := c.revision + 1), i, Member(endpoint, Joining, true))
  }

  /** Enter a member, or refresh its provisional entry, once there is room. */
  function Enter(cfg: Config, c: Coordinator, i: Identity, endpoint: Endpoint, request: RequestId, ref: nat,
                 token: Token, now: nat): Coordinator
  {
    var listed := List(Grant(c, i, ref, token, now), i, endpoint);
    if i in c.pending then listed
    else listed.(pending := c.pending[i := Provisional(request, now + cfg.joinTimeout)])
  }

  /** Handle a join request; the result says whether it is to be answered. `token` is fresh. */
  function Join(cfg: Config, c: Coordinator, i: Identity, endpoint: Endpoint, request: RequestId, ref: nat,
                token: Token, now: nat): (r: (Coordinator, bool))
    ensures r.1 ==> i in r.0.tokens
  {
    if !MayJoin(cfg, c, i, endpoint, request) then (c, false)
    else
      var (room, ok) := if i in c.members then (c, true) else Reserve(cfg, c);
      if !ok then (room, false) else (Enter(cfg, room, i, endpoint, request, ref, token, now), true)
  }

  /** Take back a provisional join whose answer could not be sent or whose time is up. */
  function Expire(c: Coordinator, i: Identity, request: RequestId): Coordinator {
    if !(i in c.pending && c.pending[i].request == request && i in c.members && c.members[i].status.Joining?) then c
    else
      var removed := c.(pending := Without(c.pending, i), members := Without(c.members, i), view := c.view + 1);
      Revoke(removed, i).(revision := c.revision + 1)
  }

  predicate MayConfirm(c: Coordinator, i: Identity, request: RequestId, token: Token, now: nat) {
    && !c.stopping && i in c.members && c.members[i].status.Joining?
    && i in c.pending && c.pending[i].request == request && now <= c.pending[i].deadline
    && i in c.tokens && c.tokens[i] == token
  }

  function Confirm(c: Coordinator, i: Identity, request: RequestId, token: Token, now: nat): Coordinator {
    if !MayConfirm(c, i, request, token, now) then c
    else
      Replace(c.(pending := Without(c.pending, i), evidence := c.evidence[i := now], revision := c.revision + 1),
              i, c.members[i].(status := Up))
  }

  predicate MayBeat(c: Coordinator, i: Identity, token: Token, sequence: nat) {
    && i in c.members && c.members[i].status.Up? && i in c.tokens && c.tokens[i] == token && i in c.refs
    && (if i in c.heartbeats then c.heartbeats[i] else -1) < sequence
  }

  function Beat(c: Coordinator, i: Identity, token: Token, sequence: nat, now: nat): Coordinator {
    if !MayBeat(c, i, token, sequence) then c
    else
      var noted := c.(heartbeats := c.heartbeats[i := sequence], evidence := c.evidence[i := now]);
      if c.members[i].reachable then noted
      else Replace(noted.(revision := c.revision + 1), i, c.members[i].(reachable := true))
  }

  predicate IsOverdue(cfg: Config, c: Coordinator, i: Identity, now: nat) {
    && i in c.members && i != cfg.coordinator && c.members[i].status.Up? && c.members[i].reachable
    && now - (if i in c.evidence then c.evidence[i] else now) >= cfg.unreachableTimeout
  }

  function Overdue(cfg: Config, c: Coordinator, now: nat): set<Identity> {
    set i | i in c.members && IsOverdue(cfg, c, i, now)
  }

  function Marked(members: Members, late: set<Identity>): Members {
    map i | i in members :: if i in late then members[i].(reachable := false) else members[i]
  }

  function MarkAll(c: Coordinator, late: set<Identity>): Coordinator {
    c.(members := Marked(c.members, late), revision := c.revision + |late|, view := c.view + |late|)
  }

  function Detect(cfg: Config, c: Coordinator, now: nat): Coordinator {
    MarkAll(c, Overdue(cfg, c, now))
  }

  function MarkOne(cfg: Config, c: Coordinator, i: Identity, now: nat): Coordinator {
    if !IsOverdue(cfg, c, i, now) then c
    else c.(members := c.members[i := c.members[i].(reachable := false)],
            revision := c.revision + 1, view := c.view + 1)
  }

  /** Marking the overdue members one at a time. */
  lemma MarkNext(cfg: Config, c: Coordinator, late: set<Identity>, i: Identity, now: nat)
    requires late <= c.members.Keys && i in c.members && i !in late
    ensures MarkOne(cfg, MarkAll(c, late), i, now)
            == if IsOverdue(cfg, c, i, now) then MarkAll(c, late + {i}) else MarkAll(c, late)
  {
    if IsOverdue(cfg, c, i, now) {
      var members := MarkOne(cfg, MarkAll(c, late), i, now).members;
      assert members == Marked(c.members, late + {i});
    }
  }

  lemma MarkedKeys(members: Members, late: set<Identity>)
    ensures Marked(members, late).Keys == members.Keys
  {
  }

  lemma MarkNone(c: Coordinator)
    ensures MarkAll(c, {}) == c
  {
    assert Marked(c.members, {}) == c.members;
  }

  predicate MayLeave(c: Coordinator, i: Identity, token: Token) {
    i in c.members && i in c.tokens && c.tokens[i] == token && i in c.refs
  }

  function BeginLeave(c: Coordinator, i: Identity, token: Token, request: RequestId): Coordinator {
    if !MayLeave(c, i, token) then c
    else
      var noted := c.(work := FinishLeave(i, request));
      if !c.members[i].status.Up? then noted
      else Replace(noted.(revision := c.revision + 1), i, c.members[i].(status := Leaving))
  }

  /** The member of a leave request as its acknowledgement reports it. */
  function Departed(c: Coordinator, i: Identity): Coordinator
    requires i in c.members
  {
    if c.members[i].status.Left? then c
    else Replace(c.(revision := c.revision + 1), i, c.members[i].(status := Left))
  }

  function EndLeave(c: Coordinator): Coordinator
    requires c.work.FinishLeave? && c.work.who in c.members
  {
    Revoke(Departed(c, c.work.who), c.work.who).(work := Free)
  }

  datatype DownOutcome = Downed | Ignored | Refused

  function Down(cfg: Config, c: Coordinator, i: Identity): (Coordinator, DownOutcome) {
    if i == cfg.coordinator || c.stopping then (c, Refused)
    else if i !in c.members || c.members[i].status.Left? then (c, Ignored)
    else if !c.members[i].status.Up? || c.members[i].reachable then (c, Refused)
    else (Revoke(Replace(c.(revision := c.revision + 1), i, c.members[i].(status := Left)), i), Downed)
  }

  /** One of the two steps in which the coordinator itself leaves. */
  function SelfMoves(cfg: Config, c: Coordinator, status: Status): Coordinator
    requires cfg.coordinator in c.members
  {
    Replace(c.(revision := c.revision + 1), cfg.coordinator, c.members[cfg.coordinator].(status := status))
  }

  // ----- The coordinator object -----

  class ClusterRuntime {
    const cfg: Config
    var members: Members
    var revision: nat
    var viewRevision: nat
    var tokens: map<Identity, Token>
    var refs: map<Identity, nat>
    var heartbeats: map<Identity, int>
    var evidence: map<Identity, int>
    var pending: map<Identity, Provisional>
    var leftOrder: seq<Identity>
    var retired: set<Identity>
    var stopping: bool
    var work: Work

    ghost function View(): Coordinator
      reads this
    {
      Coordinator(members, revision, viewRevision, tokens, refs, heartbeats, evidence, pending, leftOrder, retired,
                  stopping, work)
    }

    /** Construct the runtime and form the cluster. */
    constructor (cfg: Config, now: nat)
      ensures this.cfg == cfg && View() == Formed(cfg, now)
    {
      this.cfg := cfg;
      members, revision, viewRevision := map[cfg.coordinator := Member(cfg.seed, Joining, true)], 0, 0;
      tokens, refs, heartbeats, pending := map[], map[], map[], map[];
      evidence := map[cfg.coordinator := now];
      leftOrder, retired, stopping, work := [], {}, false, Free;
      new;
      revision := revision + 1;
      ReplaceMember(cfg.coordinator, members[cfg.coordinator].(status := Up));
    }

    method ReplaceMember(i: Identity, m: Member)
      modifies this`members, this`viewRevision
      ensures View() == Replace(old(View()), i, m)
    {
      if i in members && members[i] == m { return; }
      viewRevision := viewRevision + 1;
      members := members[i := m];
    }

    method RevokeMember(i: Identity)
      modifies this
      ensures View() == Revoke(old(View()), i)
    {
      hide Without;
      ghost var c := View();
      pending := Without(pending, i);
      tokens := Without(tokens, i);
      refs := Without(refs, i);
      heartbeats := Without(heartbeats, i);
      evidence := Without(evidence, i);
      assert View() == Revoke(c, i).(leftOrder := c.leftOrder);
      if i in members && members[i].status.Left? { leftOrder := leftOrder + [i]; }
    }

    method Evict(i: Identity)
      modifies this
      ensures View() == Evicted(old(View()), i)
    {
      retired := retired + {i};
      members := Without(members, i);
      viewRevision := viewRevision + 1;
      RevokeMember(i);
    }

    method ReserveCapacity() returns (ok: bool)
      modifies this
      ensures (View(), ok) == Reserve(cfg, old(View()))
    {
      hide Evicted;
      while |members| >= cfg.memberLimit && leftOrder != []
        invariant Reserve(cfg, View()) == Reserve(cfg, old(View()))
        decreases |leftOrder|
      {
        ghost var c := View();
        var i := leftOrder[0];
        leftOrder := leftOrder[1..];
        if i in members && members[i].status.Left? {
          if i !in retired && |retired| >= cfg.retiredLimit { return false; }
          Evict(i);
          assert Reserve(cfg, c) == Reserve(cfg, View());
        }
      }
      ok := |members| < cfg.memberLimit;
    }

    method HasSameName(i: Identity) returns (same: bool)
      ensures same == SameName(members, i)
    {
      same := false;
      var rest := members.Keys;
      while rest != {}
        invariant rest <= members.Keys
        invariant same <==> exists j :: j in members && j !in rest && j.name == i.name && j != i
                                        && !members[j].status.Left?
        decreases rest
      {
        var j :| j in rest;
        rest := rest - {j};
        if j.name == i.name && j != i && !members[j].status.Left? { same := true; }
      }
    }

    method HandleJoinRequest(i: Identity, endpoint: Endpoint, request: RequestId, ref: nat, token: Token, now: nat)
      returns (answered: bool)
      modifies this
      ensures (View(), answered) == Join(cfg, old(View()), i, endpoint, request, ref, token, now)
    {
      if !(i.name in cfg.peers && cfg.peers[i.name] == endpoint) || stopping { return false; }
      var same := HasSameName(i);
      if same || i in retired || (i in members && !members[i].status.Joining?)
         || (i in pending && pending[i].request != request)
      { return false; }
      var existing := i in members;
      if !existing {
        var ok := ReserveCapacity();
        if !ok { return false; }
      }
      EnterMember(i, endpoint, request, ref, token, now);
      answered := true;
    }

    method GrantAccess(i: Identity, ref: nat, token: Token, now: nat)
      modifies this
      ensures View() == Grant(old(View()), i, ref, token, now)
    {
      if i !in tokens { tokens := tokens[i := token]; }
      refs := refs[i := ref];
      evidence := evidence[i := now];
      if i !in heartbeats { heartbeats := heartbeats[i := -1]; }
    }

    method EnterMember(i: Identity, endpoint: Endpoint, request: RequestId, ref: nat, token: Token, now: nat)
      modifies this
      ensures View() == Enter(cfg, old(View()), i, endpoint, request, ref, token, now)
    {
      GrantAccess(i, ref, token, now);
      ghost var granted := View();
      if i !in members {
        revision := revision + 1;
        ReplaceMember(i, Member(endpoint, Joining, true));
      }
      assert View() == List(granted, i, endpoint);
      if i !in pending { pending := pending[i := Provisional(request, now + cfg.joinTimeout)]; }
    }

    method ExpireProvisionalJoin(i: Identity, request: RequestId)
      modifies this
      ensures View() == Expire(old(View()), i, request)
    {
      if !(i in pending && pending[i].request == request && i in members && members[i].status.Joining?) { return; }
      pending := Without(pending, i);
      members := Without(members, i);
      viewRevision := viewRevision + 1;
      RevokeMember(i);
      revision := revision + 1;
    }

    method HandleJoinConfirm(i: Identity, request: RequestId, token: Token, now: nat)
      modifies this
      ensures View() == Confirm(old(View()), i, request, token, now)
    {
      if stopping || i !in members || !members[i].status.Joining? || i !in pending || pending[i].request != request
         || pending[i].deadline < now || i !in tokens || tokens[i] != token
      { return; }
      pending := Without(pending, i);
      evidence := evidence[i := now];
      revision := revision + 1;
      ReplaceMember(i, members[i].(status := Up));
    }

    method HandleHeartbeat(i: Identity, token: Token, sequence: nat, now: nat) returns (answered: bool)
      modifies this
      ensures answered == MayBeat(old(View()), i, token, sequence)
      ensures View() == Beat(old(View()), i, token, sequence, now)
    {
      if i !in members || !members[i].status.Up? || i !in tokens || tokens[i] != token || i !in refs { return false; }
      var previous := if i in heartbeats then heartbeats[i] else -1;
      if sequence <= previous { return false; }
      heartbeats := heartbeats[i := sequence];
      evidence := evidence[i := now];
      if !members[i].reachable {
        revision := revision + 1;
        ReplaceMember(i, members[i].(reachable := true));
      }
      answered := true;
    }

    method MarkOverdue(i: Identity, now: nat)
      requires i in members
      modifies this`members, this`revision, this`viewRevision
      ensures View() == MarkOne(cfg, old(View()), i, now)
    {
      var m := members[i];
      if i == cfg.coordinator || !m.status.Up? || !m.reachable { return; }
      if now - (if i in evidence then evidence[i] else now) < cfg.unreachableTimeout { return; }
      revision := revision + 1;
      ReplaceMember(i, m.(reachable := false));
    }

    method DetectUnreachable(now: nat)
      modifies this
      ensures View() == Detect(cfg, old(View()), now)
    {
      ghost var c := View();
      ghost var late: set<Identity> := {};
      var rest := members.Keys;
      MarkNone(c);
      hide IsOverdue, MarkOne, Marked;
      while rest != {}
        invariant rest <= c.members.Keys == members.Keys
        invariant late == set i | i in c.members && i !in rest && IsOverdue(cfg, c, i, now)
        invariant View() == MarkAll(c, late)
        decreases rest
      {
        var i :| i in rest;
        MarkNext(cfg, c, late, i, now);
        rest := rest - {i};
        MarkOverdue(i, now);
        if IsOverdue(cfg, c, i, now) { late := late + {i}; }
        assert members.Keys == c.members.Keys by { MarkedKeys(c.members, late); }
      }
      assert late == Overdue(cfg, c, now);
    }

    /** The first critical section of a leave request. */
    method HandleLeave(i: Identity, token: Token, request: RequestId)
      modifies this
      ensures View() == BeginLeave(old(View()), i, token, request)
    {
      if i !in members || i !in tokens || tokens[i] != token || i !in refs { return; }
      if members[i].status.Up? {
        revision := revision + 1;
        ReplaceMember(i, members[i].(status := Leaving));
      }
      work := FinishLeave(i, request);
    }

    /** The second one, with the snapshot that goes into the acknowledgement. */
    method FinishLeaving() returns (snapshot: (nat, Members))
      requires work.FinishLeave? && work.who in members
      modifies this
      ensures View() == EndLeave(old(View()))
      ensures snapshot == (View().revision, View().members)
    {
      var i := work.who;
      if !members[i].status.Left? {
        revision := revision + 1;
        ReplaceMember(i, members[i].(status := Left));
      }
      snapshot := (revision, members);
      RevokeMember(i);
      work := Free;
    }

    method DownMember(i: Identity) returns (outcome: DownOutcome)
      modifies this
      ensures (View(), outcome) == Down(cfg, old(View()), i)
    {
      if i == cfg.coordinator || stopping { return Refused; }
      if i !in members || members[i].status.Left? { return Ignored; }
      if !members[i].status.Up? { return Refused; }
      if members[i].reachable { return Refused; }
      revision := revision + 1;
      ReplaceMember(i, members[i].(status := Left));
      RevokeMember(i);
      outcome := Downed;
    }

    method MoveSelf(status: Status)
      requires cfg.coordinator in members
      modifies this
      ensures View() == SelfMoves(cfg, old(View()), status)
    {
      var m := members[cfg.coordinator];
      revision := revision + 1;
      ReplaceMember(cfg.coordinator, m.(status := status));
    }
  }
}
