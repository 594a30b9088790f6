/** What every delivery keeps: the state of each stage, and of each link with the two stages it joins. */
module StreamInvariant {
  import opened Basics
  import opened StreamStages
  import opened StreamGraph

  // ----- Sequence facts -----

  function NextsOf(ds: seq<DownMsg>): seq<Elem> {
    if ds == [] then [] else (if ds[0].Next? then [ds[0].elem] else []) + NextsOf(ds[1..])
  }

  lemma {:induction false} NextsOfConcat(a: seq<DownMsg>, b: seq<DownMsg>)
    ensures NextsOf(a + b) == NextsOf(a) + NextsOf(b)
  {
    if a == [] {
      assert a + b == b;
    } else {
      assert (a + b)[1..] == a[1..] + b;
      NextsOfConcat(a[1..], b);
    }
  }

  lemma {:induction false} NextsOfNexts(es: seq<Elem>)
    ensures NextsOf(Nexts(es)) == es
  {
    if es != [] {
      assert Nexts(es)[1..] == Nexts(es[1..]);
      NextsOfNexts(es[1..]);
    }
  }

  lemma NextsOfToDown<S>(r: Reaction<S>)
    ensures NextsOf(ToDown(r)) == r.elems
  {
    NextsOfNexts(r.elems);
    NextsOfConcat(Nexts(r.elems), match r.end case More => [] case Done => [Complete] case Fault => [Error]);
  }

  function ReqSum(us: seq<UpMsg>): int {
    if us == [] then 0 else (if us[0].Request? then us[0].n else 0) + ReqSum(us[1..])
  }

  lemma {:induction false} ReqSumConcat(a: seq<UpMsg>, b: seq<UpMsg>)
    ensures ReqSum(a + b) == ReqSum(a) + ReqSum(b)
  {
    if a == [] {
      assert a + b == b;
    } else {
      assert (a + b)[1..] == a[1..] + b;
      ReqSumConcat(a[1..], b);
    }
  }

  ghost predicate PositiveRequests(us: seq<UpMsg>) {
    forall k :: 0 <= k < |us| && us[k].Request? ==> us[k].n > 0
  }

  lemma {:induction false} ReqSumNonNegative(us: seq<UpMsg>)
    requires PositiveRequests(us)
    ensures ReqSum(us) >= 0
    ensures (exists k :: 0 <= k < |us| && us[k].Request?) ==> ReqSum(us) > 0
  {
    if us != [] {
      assert forall k :: 0 <= k < |us[1..]| ==> us[1..][k] == us[k + 1];
      ReqSumNonNegative(us[1..]);
      if k :| 0 <= k < |us| && us[k].Request? {
        if k > 0 { assert us[1..][k - 1].Request?; }
      }
    }
  }

  lemma FilterMapSnoc(f: Elem -> Outcome, xs: seq<Elem>, e: Elem)
    ensures FilterMap(f, xs + [e]) == FilterMap(f, xs) + Out(f(e))
  {
    assert (xs + [e])[..|xs + [e]| - 1] == xs;
  }

  lemma {:induction false} FilterMapBounded(f: Elem -> Outcome, xs: seq<Elem>)
    ensures |FilterMap(f, xs)| <= |xs|
  {
    if xs != [] { FilterMapBounded(f, xs[..|xs| - 1]); }
  }

  // ----- Stages -----

  /** A map stage that still runs has emitted or buffers everything it owes, keeps within its buffer, has
      handed over all there is demand for, and has on order all it is allowed to. */
  ghost predicate StageInv(cfg: StageCfg, s: Stage, recv: seq<Elem>, sent: seq<Elem>) {
    && sent <= FilterMap(cfg.transform, recv)
    && (recv != [] ==> s.hasUp)
    && (s.upClosed ==> s.hasUp)
    && (s.completionSent ==>
          s.terminated && s.upClosed && s.hasDown && s.buf == [] && sent == FilterMap(cfg.transform, recv))
    && (!s.terminated || s.completionSent ==> NoneRaises(cfg.transform, recv))
    && (!s.hasDown ==> sent == [] && s.demand == 0 && s.inFlight == 0)
    && |s.buf| + s.inFlight <= Min(cfg.maxbuf, Max(cfg.prefetch, s.demand))
    && (!s.terminated ==>
          && FilterMap(cfg.transform, recv) == sent + s.buf
          && (s.hasDown && s.demand > 0 ==> s.buf == [] && !s.upClosed)
          && (s.hasUp && s.hasDown && !s.upClosed ==> |s.buf| + s.inFlight >= Target(cfg, s))
          && (!s.hasUp || s.upClosed ==> s.inFlight == 0))
  }

  ghost predicate NoneRaises(f: Elem -> Outcome, xs: seq<Elem>) {
    forall k :: 0 <= k < |xs| ==> !f(xs[k]).Raise?
  }

  ghost predicate SourceInv(g: Graph, s: Source, sent: seq<Elem>) {
    && sent + s.rest == g.items
    && s.raises == g.raises
    && (s.exhausted ==> s.terminated && s.hasDown && s.rest == [] && !s.raises)
    && (!s.hasDown ==> sent == [])
  }

  ghost predicate SinkInv(g: Graph, s: Sink, recv: seq<Elem>) {
    && (recv != [] ==> s.hasUp)
    && (s.result.Succeeded? ==> s.hasUp)
    && s.items <= recv
    && (s.result.Open? || s.result.Succeeded? ==>
          s.items == recv && forall k :: 0 <= k < |recv| ==> g.accepts(recv[k]))
    && (s.result.Succeeded? ==> s.result.items == s.items)
    && !s.result.Cancelled?
  }

  ghost predicate ActorInv(g: Graph, i: nat, a: Actor, recv: seq<Elem>, sent: seq<Elem>) {
    match a
    case SourceActor(s) => SourceInv(g, s, sent)
    case MapActor(s) => 1 <= i <= |g.stages| && StageInv(g.stages[i - 1], s, recv, sent)
    case SinkActor(s) => SinkInv(g, s, recv)
  }

  // ----- Links -----

  ghost predicate EndsWith<T>(xs: seq<T>, x: T) {
    xs != [] && xs[|xs| - 1] == x
  }

  /** A queue going down: elements, then perhaps one end of a producer that no longer runs. */
  ghost predicate DownShape(ds: seq<DownMsg>, live: bool, completed: bool) {
    && (forall j :: 0 <= j < |ds| - 1 ==> ds[j].Next?)
    && (ds != [] && !ds[|ds| - 1].Next? ==> !live)
    && (EndsWith(ds, Complete) ==> completed)
    && (EndsWith(ds, Error) ==> !completed)
  }

  /** A queue going up: positive requests, a subscription only in front and a cancellation only at the end. */
  ghost predicate UpShape(us: seq<UpMsg>, mayCancel: bool, maySubscribe: bool) {
    && PositiveRequests(us)
    && (forall j :: 0 <= j < |us| && us[j].Cancel? ==> j == |us| - 1 && mayCancel)
    && (forall j :: 0 <= j < |us| && us[j].Subscribe? ==> j == 0 && maySubscribe)
  }

  ghost predicate DownInv(p: Actor, k: Link, c: Actor) {
    && DownShape(k.down, p.Live(), p.Completed())
    && (c.Live() ==> k.sent == k.recv + NextsOf(k.down))
    && (c.UpClosed() ==> p.Completed() && k.recv == k.sent && k.down == [])
    && k.recv <= k.sent
    && (!p.HasDown() ==> k.down == [] && k.sent == [] && p.Demand() == 0)
    && (p.HasDown() ==> c.HasUp())
    && (p.Completed() ==> !p.Live() && p.HasDown())
  }

  ghost predicate UpInv(p: Actor, k: Link, c: Actor) {
    && (c.Live() ==> k.wire == !c.HasUp())
    && (k.wire ==> !c.HasUp())
    && (!c.HasUp() ==> k.up == [])
    && (p.Live() ==>
          && UpShape(k.up, !c.Live() && k.recv != [], !p.HasDown())
          && (!p.HasDown() && c.HasUp() ==> k.up != [] && k.up[0].Subscribe?))
  }

  /** Demand is conserved: what the consumer has on order is in transit up, owed by the producer, or in
      transit down. */
  ghost predicate CreditInv(g: Graph, p: Actor, k: Link, c: Actor) {
    && (p.Live() && c.Live() ==> c.Credit(g) == ReqSum(k.up) + p.Demand() + |NextsOf(k.down)|)
    && (p.Live() ==> |k.sent| + p.Demand() + ReqSum(k.up) <= |k.recv| + c.Credit(g))
    && (c.Live() && !c.UpClosed() ==> |NextsOf(k.down)| <= c.Credit(g))
  }

  ghost predicate LinkInv(g: Graph, p: Actor, k: Link, c: Actor) {
    DownInv(p, k, c) && UpInv(p, k, c) && CreditInv(g, p, k, c)
  }

  /** While no stage is terminated from outside: a stage that knows its downstream announces its end, a stage
      that stops early cancels its upstream, and nothing flows towards a stage that has no downstream yet. */
  ghost predicate Announced(p: Actor, k: Link, c: Actor) {
    && (!p.Live() && p.HasDown() && c.Live() && !c.UpClosed() ==> k.down != [] && !k.down[|k.down| - 1].Next?)
    && (p.Live() && !c.Live() ==> EndsWith(k.up, Cancel))
    && (!p.HasDown() ==> c.Live() && (p.SourceActor? ==> p.Live()))
    && (!c.HasDown() ==> k.sent == [] && p.Demand() == 0 && (p.SourceActor? ==> p.Live())
                         && forall j :: 0 <= j < |k.up| ==> k.up[j].Subscribe?)
  }

  ghost function RecvOf(net: Net, i: nat): seq<Elem> {
    if 1 <= i <= |net.links| then net.links[i - 1].recv else []
  }

  ghost function SentOf(net: Net, i: nat): seq<Elem> {
    if i < |net.links| then net.links[i].sent else []
  }

  ghost predicate Inv(g: Graph, net: Net)
    requires WellShaped(g, net)
  {
    && (forall l :: 0 <= l < |net.links| ==> LinkInv(g, net.actors[l], net.links[l], net.actors[l + 1]))
    && (forall i :: 0 <= i < |net.actors| ==> ActorInv(g, i, net.actors[i], RecvOf(net, i), SentOf(net, i)))
  }

  ghost predicate AllAnnounced(g: Graph, net: Net)
    requires WellShaped(g, net)
  {
    forall l :: 0 <= l < |net.links| ==> Announced(net.actors[l], net.links[l], net.actors[l + 1])
  }

  // ----- One stage handles one message -----

  /** What the links guarantee about the message a live stage is handed. */
  ghost predicate Legit(g: Graph, c: Actor, m: Msg, sent: seq<Elem>) {
    match m
    case SetUpstream => !c.HasUp() && !c.SourceActor?
    case FromUp(d) => !c.SourceActor? && c.HasUp() && !c.UpClosed() && (d.Next? ==> c.Credit(g) > 0)
    case FromDown(u) =>
      && !c.SinkActor?
      && (u.Request? ==> u.n > 0 && c.HasDown())
      && (u.Subscribe? ==> !c.HasDown())
      && (u.Cancel? ==> sent != [])
  }

  /** What the link above sees of a reaction. */
  ghost predicate UpEffect(g: Graph, a: Actor, m: Msg, r: Reaction<Actor>) {
    var b := r.state;
    && r.subscribe == m.SetUpstream?
    && b.HasUp() == (a.HasUp() || m.SetUpstream?)
    && r.request >= 0
    && (r.request > 0 || r.cancel ==> b.HasUp() && b.HasDown())
    && (r.cancel ==> !b.Live())
    && (!b.Live() || b.UpClosed() ==> r.request == 0)
    && (a.HasDown() ==> b.HasDown())
    && (b.Live() && !b.UpClosed() ==> b.Credit(g) == a.Credit(g) - |Received(m)| + r.request)
    && (a.MapActor? ==> b.Credit(g) <= a.Credit(g) - |Received(m)| + r.request)
    && (m != FromUp(Complete) ==> b.Credit(g) >= a.Credit(g) - |Received(m)| + r.request)
    && (m == FromUp(Complete) ==> r.request == 0 && !r.cancel)
    && b.UpClosed() == (a.UpClosed() || m == FromUp(Complete))
    && (!b.Live() ==>
          m == FromUp(Complete) || m == FromUp(Error) || r.cancel || a.UpClosed() || a.SourceActor?)
    && (m == FromUp(Error) ==> !b.Live() && r.request == 0 && !r.cancel)
  }

  function Asked(m: Msg): int {
    if m.FromDown? && m.up.Request? then m.up.n else 0
  }

  /** What the link below sees of a reaction. */
  ghost predicate DownEffect(a: Actor, m: Msg, r: Reaction<Actor>) {
    var b := r.state;
    && b.HasDown() == (a.HasDown() || m == FromDown(Subscribe))
    && (r.elems != [] || r.end != More ==> a.HasDown())
    && (b.Live() ==> r.end == More)
    && (r.end == Done ==> b.Completed()) && (r.end == Fault ==> !b.Completed())
    && (b.Completed() ==> !b.Live() && b.HasDown())
    && (!b.Live() && b.HasDown() && !a.SinkActor? ==> m == FromDown(Cancel) || r.end != More)
    && (m == FromDown(Cancel) ==> !b.Live() && r.elems == [] && r.end == More)
    && b.Demand() + |r.elems| <= a.Demand() + Asked(m)
    && (b.Live() ==> b.Demand() + |r.elems| == a.Demand() + Asked(m))
    && (!b.HasDown() ==> b.Demand() == 0)
    && (a.SourceActor? == b.SourceActor? && a.SinkActor? == b.SinkActor?)
    && (a.SourceActor? && !b.Live() ==> m.FromDown? && !m.up.Subscribe? && b.HasDown())
  }

  ghost predicate ReactionOk(g: Graph, i: nat, a: Actor, m: Msg, r: Reaction<Actor>,
                             recv: seq<Elem>, sent: seq<Elem>) {
    && UpEffect(g, a, m, r)
    && DownEffect(a, m, r)
    && ActorInv(g, i, r.state, recv + Received(m), sent + r.elems)
    && (r.cancel ==> recv + Received(m) != [])
  }

  lemma SourceReacts(g: Graph, i: nat, s: Source, m: Msg, sent: seq<Elem>)
    requires !s.terminated && SourceInv(g, s, sent) && Legit(g, SourceActor(s), m, sent)
    ensures ReactionOk(g, i, SourceActor(s), m, React(g, i, SourceActor(s), m), [], sent)
  {
    assert sent + [] == sent;
    if m.FromDown? && m.up.Request? && m.up.n <= |s.rest| {
      var n := m.up.n;
      assert (sent + s.rest[..n]) + s.rest[n..] == sent + s.rest;
    }
  }

  lemma SinkReacts(g: Graph, i: nat, s: Sink, m: Msg, recv: seq<Elem>)
    requires g.Valid() && s.result.Open? && SinkInv(g, s, recv) && Legit(g, SinkActor(s), m, [])
    ensures ReactionOk(g, i, SinkActor(s), m, React(g, i, SinkActor(s), m), recv, [])
  {
    assert recv + [] == recv;
  }

  ghost predicate StagePushPre(g: Graph, i: nat, s: Stage, recv: seq<Elem>, sent: seq<Elem>)
    requires 1 <= i <= |g.stages|
  {
    && !s.terminated && !s.completionSent
    && FilterMap(g.stages[i - 1].transform, recv) == sent + s.buf
    && NoneRaises(g.stages[i - 1].transform, recv)
    && (recv != [] ==> s.hasUp) && (s.upClosed ==> s.hasUp)
    && (!s.hasDown ==> sent == [] && s.demand == 0)
    && |s.buf| + s.inFlight <= Min(g.stages[i - 1].maxbuf, Max(g.stages[i - 1].prefetch, s.demand))
    && (!s.hasUp || !s.hasDown || s.upClosed ==> s.inFlight == 0)
  }

  lemma StagePullFills(cfg: StageCfg, s: Stage)
    requires cfg.Valid() && !s.terminated
    requires |s.buf| + s.inFlight <= Min(cfg.maxbuf, Max(cfg.prefetch, s.demand))
    ensures var r := StagePull(cfg, s); var b := r.state;
            && b == s.(inFlight := s.inFlight + r.request) && r == Reaction(b, false, r.request, false, [], More)
            && r.request >= 0 && (r.request > 0 ==> s.hasUp && s.hasDown && !s.upClosed)
            && |b.buf| + b.inFlight <= Min(cfg.maxbuf, Max(cfg.prefetch, b.demand))
            && (s.hasUp && s.hasDown && !s.upClosed ==> |b.buf| + b.inFlight >= Target(cfg, b))
  {
  }

  lemma StagePushReacts(g: Graph, i: nat, s: Stage, recv: seq<Elem>, sent: seq<Elem>)
    requires 1 <= i <= |g.stages| && g.stages[i - 1].Valid()
    requires StagePushPre(g, i, s, recv, sent)
    ensures var r := StagePush(g.stages[i - 1], s); var b := r.state;
            && StageInv(g.stages[i - 1], b, recv, sent + r.elems)
            && b.hasUp == s.hasUp && b.hasDown == s.hasDown && b.upClosed == s.upClosed
            && b.terminated == b.completionSent == (r.end == Done)
            && (b.terminated ==> s.upClosed) && r.end != Fault
            && (r.elems != [] || r.end != More ==> s.hasDown)
            && |r.elems| + b.demand == s.demand
            && !r.subscribe && !r.cancel && r.request >= 0
            && (r.request > 0 ==> s.hasUp && s.hasDown && !s.upClosed)
            && b.inFlight == s.inFlight + r.request && (s.upClosed ==> b.inFlight == 0)
            && (!s.hasDown ==> b.demand == 0)
  {
    hide StagePull, FilterMap;
    var k := if s.hasDown then Min(s.demand, |s.buf|) else 0;
    assert s.buf == s.buf[..k] + s.buf[k..];
    assert sent + s.buf == (sent + s.buf[..k]) + s.buf[k..];
    StagePullFills(g.stages[i - 1], s.(buf := s.buf[k..], demand := s.demand - k));
  }

  /** From what a push does to what the neighbours see of it. */
  lemma PushIsOk(g: Graph, i: nat, s: Stage, m: Msg, s1: Stage, recv: seq<Elem>, sent: seq<Elem>)
    requires g.Valid() && 1 <= i <= |g.stages| && !s.terminated && !s.completionSent
    requires !m.SetUpstream? && m != FromDown(Subscribe) && m != FromDown(Cancel) && m != FromUp(Error)
    requires s1 == s.(buf := s1.buf, demand := s1.demand, inFlight := s1.inFlight, upClosed := s1.upClosed)
    requires s1.demand == s.demand + Asked(m)
    requires s1.upClosed == (s.upClosed || m == FromUp(Complete))
    requires m != FromUp(Complete) ==> s1.inFlight == s.inFlight - |Received(m)|
    requires StagePushPre(g, i, s1, recv + Received(m), sent)
    ensures var r := StagePush(g.stages[i - 1], s1);
            ReactionOk(g, i, MapActor(s), m, Lift(r, MapActor(r.state)), recv, sent)
  {
    hide StagePush, StageInv, StagePushPre;
    StagePushReacts(g, i, s1, recv + Received(m), sent);
  }

  lemma StageWired(g: Graph, i: nat, s: Stage, m: Msg, recv: seq<Elem>, sent: seq<Elem>)
    requires g.Valid() && 1 <= i <= |g.stages| && !s.terminated
    requires m.SetUpstream? || m == FromDown(Subscribe)
    requires StageInv(g.stages[i - 1], s, recv, sent) && Legit(g, MapActor(s), m, sent)
    ensures ReactionOk(g, i, MapActor(s), m, React(g, i, MapActor(s), m), recv, sent)
  {
    assert recv + [] == recv && sent + [] == sent;
  }

  lemma StageStops(g: Graph, i: nat, s: Stage, m: Msg, recv: seq<Elem>, sent: seq<Elem>)
    requires g.Valid() && 1 <= i <= |g.stages| && !s.terminated
    requires m == FromDown(Cancel) || m == FromUp(Error)
    requires StageInv(g.stages[i - 1], s, recv, sent) && Legit(g, MapActor(s), m, sent)
    ensures ReactionOk(g, i, MapActor(s), m, React(g, i, MapActor(s), m), recv, sent)
  {
    hide StagePush;
    assert recv + [] == recv && sent + [] == sent;
  }

  lemma StageRaises(g: Graph, i: nat, s: Stage, e: Elem, recv: seq<Elem>, sent: seq<Elem>)
    requires g.Valid() && 1 <= i <= |g.stages| && !s.terminated
    requires g.stages[i - 1].transform(e).Raise?
    requires StageInv(g.stages[i - 1], s, recv, sent) && Legit(g, MapActor(s), FromUp(Next(e)), sent)
    ensures var m := FromUp(Next(e)); ReactionOk(g, i, MapActor(s), m, React(g, i, MapActor(s), m), recv, sent)
  {
    FilterMapSnoc(g.stages[i - 1].transform, recv, e);
    assert sent + [] == sent;
    assert s.hasDown && s.inFlight > 0;
    hide StagePush, FilterMap;
  }

  lemma StageReacts(g: Graph, i: nat, s: Stage, m: Msg, recv: seq<Elem>, sent: seq<Elem>)
    requires g.Valid() && 1 <= i <= |g.stages| && !s.terminated
    requires StageInv(g.stages[i - 1], s, recv, sent) && Legit(g, MapActor(s), m, sent)
    ensures ReactionOk(g, i, MapActor(s), m, React(g, i, MapActor(s), m), recv, sent)
  {
    hide StagePush, StagePull, UpEffect, DownEffect, ActorInv;
    var cfg := g.stages[i - 1];
    assert recv + [] == recv;
    match m
    case SetUpstream => StageWired(g, i, s, m, recv, sent);
    case FromDown(Subscribe) => StageWired(g, i, s, m, recv, sent);
    case FromDown(Request(n)) =>
      PushIsOk(g, i, s, m, s.(demand := s.demand + n), recv, sent);
    case FromDown(Cancel) => StageStops(g, i, s, m, recv, sent);
    case FromUp(Next(e)) =>
      FilterMapSnoc(cfg.transform, recv, e);
      var s1 := s.(inFlight := s.inFlight - 1);
      match cfg.transform(e) {
        case Raise => StageRaises(g, i, s, e, recv, sent);
        case Drop =>
          PushIsOk(g, i, s, m, s1, recv, sent);
        case Emit(y) =>
          assert sent + (s.buf + [y]) == (sent + s.buf) + [y];
          PushIsOk(g, i, s, m, s1.(buf := s.buf + [y]), recv, sent);
      }
    case FromUp(Complete) =>
      PushIsOk(g, i, s, m, s.(upClosed := true, inFlight := 0), recv, sent);
    case FromUp(Error) => StageStops(g, i, s, m, recv, sent);
  }
}
