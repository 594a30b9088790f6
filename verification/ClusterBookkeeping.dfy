/** What every critical section of the coordinator keeps. */
module ClusterBookkeeping {
  import opened ClusterCoordinator

  /** What a revision stands for: the member table and the identities evicted from it. */
  datatype Point = Point(members: Members, retired: set<Identity>)

  function PointOf(c: Coordinator): Point {
    Point(c.members, c.retired)
  }

  predicate Active(cfg: Config, members: Members, i: Identity) {
    i in members && i != cfg.coordinator && !members[i].status.Left?
  }

  predicate Provisionally(cfg: Config, members: Members, i: Identity) {
    i in members && i != cfg.coordinator && members[i].status.Joining?
  }

  /** Of two incarnations of one name, at least one has left. */
  predicate Rivals(members: Members, i: Identity, j: Identity) {
    i in members && j in members && i.name == j.name && i != j && !members[i].status.Left? && !members[j].status.Left?
  }

  ghost predicate OneActive(members: Members) {
    forall i, j :: !Rivals(members, i, j)
  }

  /** An evicted identity is not listed, and the coordinator's name is its own. */
  predicate ListedWell(cfg: Config, p: Point, i: Identity) {
    i in p.members ==> i !in p.retired && (i.name == cfg.coordinator.name ==> i == cfg.coordinator)
  }

  ghost predicate GoodPoint(cfg: Config, p: Point) {
    && cfg.coordinator in p.members && p.members[cfg.coordinator].endpoint == cfg.seed
    && p.members[cfg.coordinator].reachable
    && |p.members| <= cfg.memberLimit && |p.retired| <= cfg.retiredLimit
    && (forall i :: ListedWell(cfg, p, i))
    && OneActive(p.members)
  }

  /** Credentials belong to exactly the active members other than the coordinator, and provisional entries to
      exactly those that are joining. */
  predicate KeysAt(cfg: Config, c: Coordinator, i: Identity) {
    && (i in c.tokens <==> Active(cfg, c.members, i))
    && (i in c.refs <==> i in c.tokens) && (i in c.heartbeats <==> i in c.tokens)
    && (i in c.evidence <==> i in c.tokens || i == cfg.coordinator)
    && (i in c.pending <==> Provisionally(cfg, c.members, i))
  }

  /** Only the leave request at hand leaves a member in the leaving status. */
  predicate WorkAt(cfg: Config, c: Coordinator, i: Identity) {
    i in c.members && i != cfg.coordinator && c.members[i].status.Leaving? ==> c.work.FinishLeave? && c.work.who == i
  }

  ghost predicate WorkInv(cfg: Config, c: Coordinator) {
    && (!c.stopping ==> cfg.coordinator in c.members && c.members[cfg.coordinator].status.Up?)
    && (c.work.FinishLeave? ==> Active(cfg, c.members, c.work.who) && !c.members[c.work.who].status.Up?)
    && forall i :: WorkAt(cfg, c, i)
  }

  ghost predicate CInv(cfg: Config, c: Coordinator) {
    GoodPoint(cfg, PointOf(c)) && (forall i :: KeysAt(cfg, c, i)) && WorkInv(cfg, c)
  }

  /** Nobody moves back, an identity that had got further than joining disappears only into the retired set, and
      what is retired stays retired. */
  predicate LaterAt(x: Point, y: Point, i: Identity) {
    && (i in x.retired ==> i in y.retired)
    && (i in x.members ==>
          if i in y.members then Rank(x.members[i].status) <= Rank(y.members[i].status)
          else x.members[i].status.Joining? || i in y.retired)
  }

  /** How the points of a coordinator follow each other. */
  ghost predicate Later(x: Point, y: Point) {
    forall i :: LaterAt(x, y, i)
  }

  lemma LaterTransitive(cfg: Config, x: Point, y: Point, z: Point)
    requires Later(x, y) && Later(y, z) && GoodPoint(cfg, z)
    ensures Later(x, z)
  {
    forall i ensures LaterAt(x, z, i) {
      assert LaterAt(x, y, i) && LaterAt(y, z, i) && ListedWell(cfg, z, i);
    }
  }

  /** One step: nothing wire-visible changes, or the revision grows. */
  ghost predicate Moves(c: Coordinator, d: Coordinator) {
    if d.revision == c.revision then PointOf(d) == PointOf(c)
    else d.revision > c.revision && Later(PointOf(c), PointOf(d))
  }

  // ----- One member changes -----

  lemma ReplaceIs(c: Coordinator, i: Identity, m: Member)
    ensures Replace(c, i, m) == c.(members := c.members[i := m], view := Replace(c, i, m).view)
  {
    if i in c.members && c.members[i] == m { assert c.members[i := m] == c.members; }
  }

  lemma RevokeIs(c: Coordinator, i: Identity, j: Identity)
    ensures var d := Revoke(c, i);
            && d.members == c.members && d.retired == c.retired && d.revision == c.revision && d.work == c.work
            && d.stopping == c.stopping
            && (j in d.tokens <==> j in c.tokens && j != i) && (j in d.tokens ==> d.tokens[j] == c.tokens[j])
            && (j in d.refs <==> j in c.refs && j != i) && (j in d.heartbeats <==> j in c.heartbeats && j != i)
            && (j in d.evidence <==> j in c.evidence && j != i) && (j in d.pending <==> j in c.pending && j != i)
  {
  }

  /** A member moves forward, or only its reachability changes. */
  lemma MemberAdvances(cfg: Config, c: Coordinator, d: Coordinator, i: Identity, m: Member)
    requires CInv(cfg, c) && i in c.members && m.endpoint == c.members[i].endpoint
    requires i == cfg.coordinator ==> m.reachable
    requires Rank(c.members[i].status) <= Rank(m.status)
    requires d.members == c.members[i := m] && d.retired == c.retired && d.revision == c.revision + 1
    ensures GoodPoint(cfg, PointOf(d)) && Moves(c, d)
  {
    hide KeysAt, WorkInv;
    var x, y := PointOf(c), PointOf(d);
    forall j ensures ListedWell(cfg, y, j) && LaterAt(x, y, j) {
      assert ListedWell(cfg, x, j);
    }
    forall j, k ensures !Rivals(d.members, j, k) {
      assert !Rivals(c.members, j, k);
    }
  }

  lemma ConfirmKeeps(cfg: Config, c: Coordinator, i: Identity, request: RequestId, token: Token, now: nat)
    requires CInv(cfg, c) && c.work.Free? && i != cfg.coordinator
    ensures CInv(cfg, Confirm(c, i, request, token, now)) && Moves(c, Confirm(c, i, request, token, now))
  {
    hide GoodPoint, Later;
    var d := Confirm(c, i, request, token, now);
    if MayConfirm(c, i, request, token, now) {
      MemberAdvances(cfg, c, d, i, c.members[i].(status := Up));
      forall j ensures KeysAt(cfg, d, j) && WorkAt(cfg, d, j) {
        assert KeysAt(cfg, c, j) && WorkAt(cfg, c, j);
      }
    }
  }

  lemma BeatIs(c: Coordinator, i: Identity, token: Token, sequence: nat, now: nat, j: Identity)
    requires MayBeat(c, i, token, sequence)
    ensures var d := Beat(c, i, token, sequence, now);
            && d.members == c.members[i := c.members[i].(reachable := true)]
            && d.revision == (if c.members[i].reachable then c.revision else c.revision + 1)
            && d.retired == c.retired && d.tokens == c.tokens && d.refs == c.refs && d.pending == c.pending
            && d.work == c.work && d.stopping == c.stopping
            && (j in d.heartbeats <==> j in c.heartbeats || j == i) && (j in d.evidence <==> j in c.evidence || j == i)
  {
    hide Replace;
    var m := c.members[i].(reachable := true);
    ReplaceIs(c.(heartbeats := c.heartbeats[i := sequence], evidence := c.evidence[i := now],
                 revision := c.revision + 1), i, m);
    if c.members[i].reachable { assert c.members[i := m] == c.members; }
  }

  lemma BeatKeeps(cfg: Config, c: Coordinator, i: Identity, token: Token, sequence: nat, now: nat)
    requires CInv(cfg, c) && i != cfg.coordinator
    ensures CInv(cfg, Beat(c, i, token, sequence, now)) && Moves(c, Beat(c, i, token, sequence, now))
  {
    var d := Beat(c, i, token, sequence, now);
    if MayBeat(c, i, token, sequence) {
      hide GoodPoint, Later, Beat;
      var m := c.members[i].(reachable := true);
      BeatIs(c, i, token, sequence, now, i);
      if c.members[i].reachable {
        assert c.members[i := m] == c.members;
      } else {
        MemberAdvances(cfg, c, d, i, m);
      }
      assert KeysAt(cfg, c, i);
      forall j ensures KeysAt(cfg, d, j) && WorkAt(cfg, d, j) {
        BeatIs(c, i, token, sequence, now, j);
        assert KeysAt(cfg, c, j) && WorkAt(cfg, c, j);
      }
    }
  }

  lemma BeginLeaveKeeps(cfg: Config, c: Coordinator, i: Identity, token: Token, request: RequestId)
    requires CInv(cfg, c) && c.work.Free? && i != cfg.coordinator
    ensures CInv(cfg, BeginLeave(c, i, token, request)) && Moves(c, BeginLeave(c, i, token, request))
  {
    hide GoodPoint, Later, Replace;
    var d := BeginLeave(c, i, token, request);
    if MayLeave(c, i, token) {
      assert KeysAt(cfg, c, i) && WorkAt(cfg, c, i);
      if c.members[i].status.Up? {
        ReplaceIs(c.(work := FinishLeave(i, request), revision := c.revision + 1), i, c.members[i].(status := Leaving));
        MemberAdvances(cfg, c, d, i, c.members[i].(status := Leaving));
      }
      forall j ensures KeysAt(cfg, d, j) && WorkAt(cfg, d, j) {
        assert KeysAt(cfg, c, j) && WorkAt(cfg, c, j);
      }
    }
  }

  lemma EndLeaveKeeps(cfg: Config, c: Coordinator)
    requires CInv(cfg, c) && c.work.FinishLeave?
    ensures c.work.who in c.members && CInv(cfg, EndLeave(c)) && Moves(c, EndLeave(c))
  {
    hide GoodPoint, Later, Replace, Revoke;
    var i, d := c.work.who, EndLeave(c);
    var left := c.members[i].(status := Left);
    ReplaceIs(c.(revision := c.revision + 1), i, left);
    RevokeIs(Departed(c, i), i, i);
    MemberAdvances(cfg, c, d, i, left);
    forall j ensures KeysAt(cfg, d, j) && WorkAt(cfg, d, j) {
      RevokeIs(Departed(c, i), i, j);
      assert KeysAt(cfg, c, j) && WorkAt(cfg, c, j);
    }
  }

  lemma DownKeeps(cfg: Config, c: Coordinator, i: Identity)
    requires CInv(cfg, c)
    ensures CInv(cfg, Down(cfg, c, i).0) && Moves(c, Down(cfg, c, i).0)
  {
    hide GoodPoint, Later, Replace, Revoke;
    var (d, outcome) := Down(cfg, c, i);
    if outcome.Downed? {
      var left := c.members[i].(status := Left);
      var e := Replace(c.(revision := c.revision + 1), i, left);
      ReplaceIs(c.(revision := c.revision + 1), i, left);
      RevokeIs(e, i, i);
      MemberAdvances(cfg, c, d, i, left);
      forall j ensures KeysAt(cfg, d, j) && WorkAt(cfg, d, j) {
        RevokeIs(e, i, j);
        assert KeysAt(cfg, c, j) && WorkAt(cfg, c, j);
      }
    }
  }

  lemma SelfMovesKeeps(cfg: Config, c: Coordinator, status: Status)
    requires CInv(cfg, c) && c.stopping && cfg.coordinator in c.members
    requires Rank(c.members[cfg.coordinator].status) < Rank(status)
    ensures CInv(cfg, SelfMoves(cfg, c, status)) && Moves(c, SelfMoves(cfg, c, status))
  {
    assert c.members[cfg.coordinator].reachable;
    hide GoodPoint, Later;
    var d := SelfMoves(cfg, c, status);
    MemberAdvances(cfg, c, d, cfg.coordinator, c.members[cfg.coordinator].(status := status));
    forall j ensures KeysAt(cfg, d, j) && WorkAt(cfg, d, j) {
      assert KeysAt(cfg, c, j) && WorkAt(cfg, c, j);
    }
  }

  lemma DetectKeeps(cfg: Config, c: Coordinator, now: nat)
    requires CInv(cfg, c)
    ensures CInv(cfg, Detect(cfg, c, now)) && Moves(c, Detect(cfg, c, now))
  {
    var late, d := Overdue(cfg, c, now), Detect(cfg, c, now);
    if late == {} { MarkNone(c); }
    MarkedKeys(c.members, late);
    assert |d.members| == |d.members.Keys| == |c.members.Keys| == |c.members|;
    forall j ensures KeysAt(cfg, d, j) && WorkAt(cfg, d, j) && ListedWell(cfg, PointOf(d), j) {
      assert KeysAt(cfg, c, j) && WorkAt(cfg, c, j) && ListedWell(cfg, PointOf(c), j);
    }
    forall j ensures LaterAt(PointOf(c), PointOf(d), j) { }
    forall j, k ensures !Rivals(d.members, j, k) {
      assert !Rivals(c.members, j, k);
    }
  }

  lemma WithoutOne(m: Members, i: Identity)
    requires i in m
    ensures |Without(m, i)| == |m| - 1
  {
    assert Without(m, i).Keys == m.Keys - {i};
    assert |m| == |m.Keys| && |Without(m, i)| == |Without(m, i).Keys|;
  }

  lemma ProvisionalRemoved(cfg: Config, c: Coordinator, d: Coordinator, i: Identity)
    requires GoodPoint(cfg, PointOf(c)) && Provisionally(cfg, c.members, i)
    requires d.members == Without(c.members, i) && d.retired == c.retired && d.revision == c.revision + 1
    ensures GoodPoint(cfg, PointOf(d)) && Moves(c, d)
  {
    WithoutOne(c.members, i);
    forall j ensures ListedWell(cfg, PointOf(d), j) && LaterAt(PointOf(c), PointOf(d), j) {
      assert ListedWell(cfg, PointOf(c), j);
    }
    forall j, k ensures !Rivals(d.members, j, k) {
      assert !Rivals(c.members, j, k);
    }
  }

  lemma ExpireKeeps(cfg: Config, c: Coordinator, i: Identity, request: RequestId)
    requires CInv(cfg, c) && !c.work.FinishLeave?
    ensures CInv(cfg, Expire(c, i, request)) && Moves(c, Expire(c, i, request))
  {
    hide GoodPoint, Later;
    var d := Expire(c, i, request);
    if d != c {
      assert KeysAt(cfg, c, i);
      ProvisionalRemoved(cfg, c, d, i);
      hide Moves;
      forall j ensures KeysAt(cfg, d, j) && WorkAt(cfg, d, j) {
        assert KeysAt(cfg, c, j) && WorkAt(cfg, c, j);
      }
    }
  }

  // ----- Room for a new member -----

  ghost predicate Evicts(c: Coordinator, d: Coordinator, i: Identity) {
    i in c.members && c.members[i].status.Left? && d.members == Without(c.members, i) && d.retired == c.retired + {i}
  }

  /** Making room either leaves the tables alone or evicts exactly one departed member, and then there is room. */
  ghost predicate MakesRoom(cfg: Config, c: Coordinator, d: Coordinator, ok: bool) {
    && (ok <==> |d.members| < cfg.memberLimit)
    && d == c.(leftOrder := d.leftOrder, members := d.members, retired := d.retired, view := d.view)
    && (PointOf(d) != PointOf(c) ==> ok && |c.members| == cfg.memberLimit && exists i :: Evicts(c, d, i))
    && |d.retired| <= cfg.retiredLimit
  }

  /** A departed member has no credentials left to take away. */
  lemma RevokingDeparted(cfg: Config, c: Coordinator, i: Identity)
    requires CInv(cfg, c) && i in c.members && i != cfg.coordinator && c.members[i].status.Left?
    ensures Evicted(c, i) == c.(members := Without(c.members, i), retired := c.retired + {i}, view := c.view + 1)
  {
    assert KeysAt(cfg, c, i);
    hide CInv;
    assert Without(c.tokens, i) == c.tokens && Without(c.pending, i) == c.pending;
    assert Without(c.refs, i) == c.refs && Without(c.heartbeats, i) == c.heartbeats;
    assert Without(c.evidence, i) == c.evidence;
  }

  lemma OrderIsFree(cfg: Config, c: Coordinator, order: seq<Identity>)
    requires CInv(cfg, c)
    ensures CInv(cfg, c.(leftOrder := order))
  {
    var d := c.(leftOrder := order);
    assert PointOf(d) == PointOf(c);
    hide GoodPoint;
    forall j ensures KeysAt(cfg, d, j) && WorkAt(cfg, d, j) {
      assert KeysAt(cfg, c, j) && WorkAt(cfg, c, j);
    }
  }

  lemma {:induction false} ReserveMakesRoom(cfg: Config, c: Coordinator)
    requires CInv(cfg, c) && !c.stopping
    ensures MakesRoom(cfg, c, Reserve(cfg, c).0, Reserve(cfg, c).1)
    decreases |c.leftOrder|
  {
    if |c.members| >= cfg.memberLimit && c.leftOrder != [] {
      var i := c.leftOrder[0];
      var popped := c.(leftOrder := c.leftOrder[1..]);
      OrderIsFree(cfg, c, c.leftOrder[1..]);
      if !(i in c.members && c.members[i].status.Left?) {
        ReserveMakesRoom(cfg, popped);
        hide CInv;
        var d := Reserve(cfg, popped).0;
        if PointOf(d) != PointOf(c) {
          var j :| Evicts(popped, d, j);
          assert Evicts(c, d, j);
        }
      } else if !(i !in c.retired && |c.retired| >= cfg.retiredLimit) {
        RevokingDeparted(cfg, popped, i);
        WithoutOne(c.members, i);
        hide CInv, Without;
        assert Evicts(c, Evicted(popped, i), i);
      }
    }
  }

  // ----- Joining -----

  /** What making room does to one identity. */
  predicate RoomAt(c: Coordinator, room: Coordinator, j: Identity) {
    && (j in room.members ==> j in c.members && room.members[j] == c.members[j])
    && (j in c.members && j !in room.members ==> c.members[j].status.Left? && j in room.retired)
    && (j in c.retired ==> j in room.retired)
    && (j in room.retired && j !in c.retired ==> j in c.members && j !in room.members)
  }

  lemma RoomKeeps(cfg: Config, c: Coordinator, room: Coordinator, ok: bool, j: Identity)
    requires MakesRoom(cfg, c, room, ok)
    ensures room.tokens == c.tokens && room.refs == c.refs && room.heartbeats == c.heartbeats
    ensures room.evidence == c.evidence && room.pending == c.pending
    ensures room.revision == c.revision && room.work == c.work && room.stopping == c.stopping
    ensures (ok <==> |room.members| < cfg.memberLimit) && |room.retired| <= cfg.retiredLimit
    ensures RoomAt(c, room, j)
    ensures !ok ==> PointOf(room) == PointOf(c)
  {
    if PointOf(room) != PointOf(c) { var k :| Evicts(c, room, k); }
  }

  /** A new name enters the table after room was made. */
  lemma EnterNewPoint(cfg: Config, c: Coordinator, d: Coordinator, i: Identity, m: Member)
    requires CInv(cfg, c) && !c.stopping && MakesRoom(cfg, c, d, true)
    requires i !in c.members && i !in c.retired && !SameName(c.members, i) && m.status.Joining?
    ensures i !in d.members && GoodPoint(cfg, Point(d.members[i := m], d.retired))
    ensures Later(PointOf(c), Point(d.members[i := m], d.retired))
  {
    hide KeysAt, MakesRoom;
    var x, y := PointOf(c), Point(d.members[i := m], d.retired);
    assert i.name != cfg.coordinator.name;
    hide SameName;
    RoomKeeps(cfg, c, d, true, i);
    RoomKeeps(cfg, c, d, true, cfg.coordinator);
    forall j ensures ListedWell(cfg, y, j) && LaterAt(x, y, j) {
      RoomKeeps(cfg, c, d, true, j);
      assert ListedWell(cfg, x, j);
    }
    forall j | j in d.members ensures j in c.members && d.members[j] == c.members[j] {
      RoomKeeps(cfg, c, d, true, j);
    }
    NoRivals(c.members, d.members, i, m);
  }

  lemma NoRivals(before: Members, after: Members, i: Identity, m: Member)
    requires OneActive(before) && !SameName(before, i)
    requires forall j :: j in after ==> j in before && after[j] == before[j]
    ensures OneActive(after[i := m])
  {
    var full := after[i := m];
    forall j, k ensures !Rivals(full, j, k) {
      assert !Rivals(before, j, k);
    }
  }

  lemma GrantIs(c: Coordinator, i: Identity, ref: nat, token: Token, now: nat, j: Identity)
    ensures var d := Grant(c, i, ref, token, now);
            && d == c.(tokens := d.tokens, refs := d.refs, evidence := d.evidence, heartbeats := d.heartbeats)
            && d.tokens == (if i in c.tokens then c.tokens else c.tokens[i := token])
            && (j in d.refs <==> j in c.refs || j == i) && (j in d.heartbeats <==> j in c.heartbeats || j == i)
            && (j in d.evidence <==> j in c.evidence || j == i)
  {
  }

  lemma ListIs(c: Coordinator, i: Identity, endpoint: Endpoint)
    ensures var d := List(c, i, endpoint);
            if i in c.members then d == c
            else d == c.(members := c.members[i := Member(endpoint, Joining, true)], revision := c.revision + 1,
                         view := d.view)
  {
    hide Replace;
    ReplaceIs(c.(revision := c.revision + 1), i, Member(endpoint, Joining, true));
  }

  lemma EnterIs(cfg: Config, c: Coordinator, i: Identity, endpoint: Endpoint, request: RequestId, ref: nat,
                token: Token, now: nat, j: Identity)
    ensures var d := Enter(cfg, c, i, endpoint, request, ref, token, now);
            && d.tokens == (if i in c.tokens then c.tokens else c.tokens[i := token])
            && d.members == (if i in c.members then c.members else c.members[i := Member(endpoint, Joining, true)])
            && d.revision == (if i in c.members then c.revision else c.revision + 1)
            && d.work == c.work && d.retired == c.retired && d.stopping == c.stopping
            && (j in d.refs <==> j in c.refs || j == i) && (j in d.heartbeats <==> j in c.heartbeats || j == i)
            && (j in d.evidence <==> j in c.evidence || j == i) && (j in d.pending <==> j in c.pending || j == i)
  {
    hide Grant, List;
    var g := Grant(c, i, ref, token, now);
    var l := List(g, i, endpoint);
    var d := Enter(cfg, c, i, endpoint, request, ref, token, now);
    assert d == l.(pending := if i in c.pending then l.pending else d.pending);
    assert i !in c.pending ==> d.pending == c.pending[i := Provisional(request, now + cfg.joinTimeout)];
    hide Enter;
    GrantIs(c, i, ref, token, now, j);
    ListIs(g, i, endpoint);
  }

  lemma EnterKeepsKeys(cfg: Config, c: Coordinator, room: Coordinator, i: Identity, endpoint: Endpoint,
                       request: RequestId, ref: nat, token: Token, now: nat)
    requires CInv(cfg, c) && !c.stopping && MakesRoom(cfg, c, room, true)
    requires i !in c.members && i !in c.retired && i != cfg.coordinator && i !in room.members
    ensures var d := Enter(cfg, room, i, endpoint, request, ref, token, now);
            && PointOf(d) == Point(room.members[i := Member(endpoint, Joining, true)], room.retired)
            && d.revision == c.revision + 1
            && (forall j :: KeysAt(cfg, d, j)) && (c.work.Free? ==> WorkInv(cfg, d))
  {
    hide GoodPoint, MakesRoom, Enter;
    var d := Enter(cfg, room, i, endpoint, request, ref, token, now);
    assert KeysAt(cfg, c, i);
    RoomKeeps(cfg, c, room, true, cfg.coordinator);
    EnterIs(cfg, room, i, endpoint, request, ref, token, now, i);
    forall j ensures KeysAt(cfg, d, j) && (c.work.Free? ==> WorkAt(cfg, d, j)) {
      RoomKeeps(cfg, c, room, true, j);
      EnterIs(cfg, room, i, endpoint, request, ref, token, now, j);
      assert KeysAt(cfg, c, j) && WorkAt(cfg, c, j);
    }
  }

  lemma RefreshKeeps(cfg: Config, c: Coordinator, i: Identity, endpoint: Endpoint, request: RequestId, ref: nat,
                     token: Token, now: nat)
    requires CInv(cfg, c) && i in c.members && i != cfg.coordinator && c.members[i].status.Joining?
    ensures var d := Enter(cfg, c, i, endpoint, request, ref, token, now);
            CInv(cfg, d) && PointOf(d) == PointOf(c) && d.revision == c.revision && d.tokens == c.tokens
  {
    hide GoodPoint, Enter;
    var d := Enter(cfg, c, i, endpoint, request, ref, token, now);
    assert KeysAt(cfg, c, i);
    EnterIs(cfg, c, i, endpoint, request, ref, token, now, i);
    forall j ensures KeysAt(cfg, d, j) && WorkAt(cfg, d, j) {
      EnterIs(cfg, c, i, endpoint, request, ref, token, now, j);
      assert KeysAt(cfg, c, j) && WorkAt(cfg, c, j);
    }
  }

  /** Every wire-visible effect of a join request, an eviction included, comes with a new revision. */
  lemma JoinKeeps(cfg: Config, c: Coordinator, i: Identity, endpoint: Endpoint, request: RequestId, ref: nat,
                  token: Token, now: nat)
    requires CInv(cfg, c) && c.work.Free? && i != cfg.coordinator
    ensures var (d, _) := Join(cfg, c, i, endpoint, request, ref, token, now);
            CInv(cfg, d) && Moves(c, d)
  {
    hide GoodPoint, Later, KeysAt, WorkInv, Enter, MakesRoom;
    if MayJoin(cfg, c, i, endpoint, request) {
      if i in c.members {
        RefreshKeeps(cfg, c, i, endpoint, request, ref, token, now);
      } else {
        var (room, ok) := Reserve(cfg, c);
        ReserveMakesRoom(cfg, c);
        if ok {
          EnterNewPoint(cfg, c, room, i, Member(endpoint, Joining, true));
          EnterKeepsKeys(cfg, c, room, i, endpoint, request, ref, token, now);
        } else {
          FailedReserve(cfg, c, room);
        }
      }
    }
  }

  lemma FailedReserve(cfg: Config, c: Coordinator, room: Coordinator)
    requires CInv(cfg, c) && MakesRoom(cfg, c, room, false)
    ensures CInv(cfg, room) && Moves(c, room)
  {
    hide GoodPoint;
    assert PointOf(room) == PointOf(c);
    forall j ensures KeysAt(cfg, room, j) && WorkAt(cfg, room, j) {
      assert KeysAt(cfg, c, j) && WorkAt(cfg, c, j);
    }
  }
}
