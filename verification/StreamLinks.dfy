/** What one delivery does to the link above and to the link below the stage that handles it. */
module StreamLinks {
  import opened StreamStages
  import opened StreamGraph
  import opened StreamInvariant

  /** The link above a stage, with the message the stage is handed taken off it. */
  ghost function TakeDown(k: Link, m: Msg): Link {
    match m
    case SetUpstream => k.(wire := false)
    case FromUp(_) => if k.down != [] then k.(down := k.down[1..]) else k
    case FromDown(_) => k
  }

  /** The link below a stage, with the message the stage is handed taken off it. */
  ghost function TakeUp(k: Link, m: Msg): Link {
    if m.FromDown? && k.up != [] then k.(up := k.up[1..]) else k
  }

  ghost predicate ComesDown(k: Link, m: Msg) {
    && (m.SetUpstream? ==> k.wire)
    && (m.FromUp? ==> k.down != [] && k.down[0] == m.down)
  }

  ghost predicate ComesUp(k: Link, m: Msg) {
    m.FromDown? ==> k.up != [] && k.up[0] == m.up
  }

  lemma NextsOfTail(ds: seq<DownMsg>, m: Msg)
    requires ds != [] && m.FromUp? && ds[0] == m.down
    ensures NextsOf(ds) == Received(m) + NextsOf(ds[1..])
  {
  }

  lemma ReqSumToUp<S>(r: Reaction<S>)
    requires r.request >= 0
    ensures ReqSum(ToUp(r)) == r.request
  {
    var a, b, c := (if r.subscribe then [Subscribe] else []), (if r.request > 0 then [Request(r.request)] else []),
                   (if r.cancel then [Cancel] else []);
    ReqSumConcat(a + b, c);
    ReqSumConcat(a, b);
  }

  lemma AllNext(ds: seq<DownMsg>, completed: bool, j: nat)
    requires DownShape(ds, true, completed) && j < |ds|
    ensures ds[j].Next?
  {
  }

  lemma DownShapeAppends<S>(ds: seq<DownMsg>, r: Reaction<S>, live: bool, completed: bool)
    requires DownShape(ds, true, false) && (live ==> r.end == More)
    requires (r.end == Done ==> completed) && (r.end == Fault ==> !completed)
    ensures DownShape(ds + ToDown(r), live, completed)
  {
    var es, n := ds + ToDown(r), |ds| + |r.elems|;
    forall j | 0 <= j < n ensures es[j].Next? {
      if j < |ds| { AllNext(ds, false, j); }
    }
    match r.end {
      case More => assert |es| == n;
      case Done => assert |es| == n + 1 && es[n] == Complete;
      case Fault => assert |es| == n + 1 && es[n] == Error;
    }
  }

  lemma WeakenShape(ds: seq<DownMsg>, completed: bool)
    requires DownShape(ds, true, completed)
    ensures DownShape(ds, true, false)
  {
  }

  lemma EndIsLast<S>(ds: seq<DownMsg>, r: Reaction<S>)
    requires r.end != More
    ensures var es := ds + ToDown(r); es != [] && !es[|es| - 1].Next?
  {
    assert (ds + ToDown(r))[|ds + ToDown(r)| - 1] == ToDown(r)[|ToDown(r)| - 1];
  }

  lemma UpShapeAppends<S>(us: seq<UpMsg>, r: Reaction<S>, mayCancel: bool, maySubscribe: bool)
    requires UpShape(us, false, maySubscribe)
    requires (r.subscribe ==> us == [] && maySubscribe) && (r.cancel ==> mayCancel)
    ensures UpShape(us + ToUp(r), mayCancel, maySubscribe)
  {
    var vs := us + ToUp(r);
    assert forall j :: 0 <= j < |vs| ==> vs[j] == if j < |us| then us[j] else ToUp(r)[j - |us|];
  }

  lemma UpShapeTail(us: seq<UpMsg>, mayCancel: bool, maySubscribe: bool)
    requires us != [] && UpShape(us, mayCancel, maySubscribe)
    ensures UpShape(us[1..], mayCancel, false)
  {
    assert forall j :: 0 <= j < |us[1..]| ==> us[1..][j] == us[j + 1];
  }

  // ----- The link above -----

  lemma ConsumerDown(g: Graph, p: Actor, k: Link, c: Actor, m: Msg, r: Reaction<Actor>)
    requires LinkInv(g, p, k, c) && c.Live() && ComesDown(k, m) && UpEffect(g, c, m, r)
    ensures DownInv(p, AsConsumer(TakeDown(k, m), m, r), r.state)
  {
    hide ToUp, ToDown, UpInv, CreditInv;
    var k1 := AsConsumer(TakeDown(k, m), m, r);
    if m.FromUp? {
      NextsOfTail(k.down, m);
      assert k.recv + NextsOf(k.down) == k1.recv + NextsOf(k1.down);
      if m.down == Complete { assert |k.down| == 1; assert k1.recv == k.recv; }
    } else {
      assert k1.recv == k.recv;
    }
  }

  lemma ConsumerUp(g: Graph, p: Actor, k: Link, c: Actor, m: Msg, r: Reaction<Actor>)
    requires LinkInv(g, p, k, c) && c.Live() && ComesDown(k, m) && UpEffect(g, c, m, r)
    requires r.cancel ==> k.recv + Received(m) != []
    ensures UpInv(p, AsConsumer(TakeDown(k, m), m, r), r.state)
  {
    var k1 := AsConsumer(TakeDown(k, m), m, r);
    if p.Live() {
      UpShapeAppends(k.up, r, !r.state.Live() && k1.recv != [], !p.HasDown());
    }
    hide DownInv, CreditInv, UpShape;
  }

  lemma ConsumerCredit(g: Graph, p: Actor, k: Link, c: Actor, m: Msg, r: Reaction<Actor>)
    requires LinkInv(g, p, k, c) && c.Live() && ComesDown(k, m) && UpEffect(g, c, m, r)
    ensures CreditInv(g, p, AsConsumer(TakeDown(k, m), m, r), r.state)
  {
    ReqSumConcat(k.up, ToUp(r));
    ReqSumToUp(r);
    if p.Live() { ReqSumNonNegative(k.up); }
    if m.FromUp? {
      NextsOfTail(k.down, m);
    }
  }

  lemma ConsumerAnnounces(g: Graph, p: Actor, k: Link, c: Actor, m: Msg, r: Reaction<Actor>)
    requires LinkInv(g, p, k, c) && Announced(p, k, c)
    requires c.Live() && ComesDown(k, m) && UpEffect(g, c, m, r) && !c.SourceActor?
    requires r.cancel ==> k.recv + Received(m) != []
    ensures Announced(p, AsConsumer(TakeDown(k, m), m, r), r.state)
  {
    hide CreditInv, UpShape, NextsOf;
    var k1 := AsConsumer(TakeDown(k, m), m, r);
    if r.cancel { assert EndsWith(k1.up, Cancel); }
    if !p.HasDown() { assert k.recv == [] && !m.FromUp?; }
  }

  lemma ConsumerStep(g: Graph, p: Actor, k: Link, c: Actor, m: Msg, r: Reaction<Actor>)
    requires LinkInv(g, p, k, c) && c.Live() && ComesDown(k, m) && UpEffect(g, c, m, r)
    requires (r.cancel ==> k.recv + Received(m) != []) && !c.SourceActor?
    ensures var k1 := AsConsumer(TakeDown(k, m), m, r);
            LinkInv(g, p, k1, r.state) && (Announced(p, k, c) ==> Announced(p, k1, r.state))
  {
    ConsumerDown(g, p, k, c, m, r);
    ConsumerUp(g, p, k, c, m, r);
    ConsumerCredit(g, p, k, c, m, r);
    if Announced(p, k, c) { ConsumerAnnounces(g, p, k, c, m, r); }
  }

  // ----- The link below -----

  lemma ProducerSends(k: Link, r: Reaction<Actor>)
    ensures NextsOf(k.down + ToDown(r)) == NextsOf(k.down) + r.elems
    ensures k.sent == k.recv + NextsOf(k.down) ==> k.sent + r.elems == k.recv + NextsOf(k.down + ToDown(r))
    ensures r.elems == [] && r.end == More ==> k.down + ToDown(r) == k.down && k.sent + r.elems == k.sent
  {
    NextsOfConcat(k.down, ToDown(r));
    NextsOfToDown(r);
    assert k.recv + (NextsOf(k.down) + r.elems) == (k.recv + NextsOf(k.down)) + r.elems;
    if r.elems == [] && r.end == More { assert ToDown(r) == []; }
  }

  lemma ProducerDown(g: Graph, p: Actor, k: Link, c: Actor, m: Msg, r: Reaction<Actor>)
    requires LinkInv(g, p, k, c) && p.Live() && ComesUp(k, m) && DownEffect(p, m, r)
    ensures DownInv(r.state, AsProducer(TakeUp(k, m), r), c)
  {
    hide ToDown, NextsOf, CreditInv, UpShape, DownShape;
    ProducerSends(k, r);
    WeakenShape(k.down, p.Completed());
    DownShapeAppends(k.down, r, r.state.Live(), r.state.Completed());
  }

  lemma ProducerUp(g: Graph, p: Actor, k: Link, c: Actor, m: Msg, r: Reaction<Actor>)
    requires LinkInv(g, p, k, c) && p.Live() && ComesUp(k, m) && DownEffect(p, m, r)
    ensures UpInv(r.state, AsProducer(TakeUp(k, m), r), c)
  {
    if m.FromDown? { UpShapeTail(k.up, !c.Live() && k.recv != [], !p.HasDown()); }
    hide ToDown, DownInv, CreditInv;
  }

  lemma ProducerCredit(g: Graph, p: Actor, k: Link, c: Actor, m: Msg, r: Reaction<Actor>)
    requires LinkInv(g, p, k, c) && p.Live() && ComesUp(k, m) && DownEffect(p, m, r)
    ensures CreditInv(g, r.state, AsProducer(TakeUp(k, m), r), c)
  {
    NextsOfConcat(k.down, ToDown(r));
    NextsOfToDown(r);
    var k1 := AsProducer(TakeUp(k, m), r);
    assert ReqSum(k.up) == Asked(m) + ReqSum(k1.up);
    assert forall j :: 0 <= j < |k1.up| ==> k1.up[j] == if m.FromDown? then k.up[j + 1] else k.up[j];
    ReqSumNonNegative(k1.up);
  }

  lemma ProducerAnnounces(g: Graph, p: Actor, k: Link, c: Actor, m: Msg, r: Reaction<Actor>)
    requires LinkInv(g, p, k, c) && Announced(p, k, c) && !p.SinkActor?
    requires p.Live() && ComesUp(k, m) && DownEffect(p, m, r)
    ensures Announced(r.state, AsProducer(TakeUp(k, m), r), c)
  {
    if m.FromDown? {
      assert k.up[0] == m.up;
      if |k.up| > 1 { assert k.up[1..][|k.up[1..]| - 1] == k.up[|k.up| - 1]; }
    }
    if r.end != More { EndIsLast(k.down, r); }
    hide ToDown, CreditInv;
  }

  lemma ProducerStep(g: Graph, p: Actor, k: Link, c: Actor, m: Msg, r: Reaction<Actor>)
    requires LinkInv(g, p, k, c) && p.Live() && ComesUp(k, m) && DownEffect(p, m, r) && !p.SinkActor?
    ensures var k1 := AsProducer(TakeUp(k, m), r);
            LinkInv(g, r.state, k1, c)
            && (Announced(p, k, c) ==> Announced(r.state, k1, c))
  {
    ProducerDown(g, p, k, c, m, r);
    ProducerUp(g, p, k, c, m, r);
    ProducerCredit(g, p, k, c, m, r);
    if Announced(p, k, c) { ProducerAnnounces(g, p, k, c, m, r); }
  }

  // ----- Messages to a stopped stage, and stages stopped from outside -----

  lemma DiscardDown(g: Graph, p: Actor, k: Link, c: Actor, m: Msg)
    requires LinkInv(g, p, k, c) && !c.Live() && ComesDown(k, m)
    ensures LinkInv(g, p, TakeDown(k, m), c) && (Announced(p, k, c) ==> Announced(p, TakeDown(k, m), c))
  {
    if m.FromUp? { NextsOfTail(k.down, m); }
    hide UpShape;
  }

  lemma DiscardUp(g: Graph, p: Actor, k: Link, c: Actor, m: Msg)
    requires LinkInv(g, p, k, c) && !p.Live() && ComesUp(k, m)
    ensures LinkInv(g, p, TakeUp(k, m), c) && (Announced(p, k, c) ==> Announced(p, TakeUp(k, m), c))
  {
    hide UpShape, DownShape;
  }

  lemma KillProducer(g: Graph, p: Actor, k: Link, c: Actor)
    requires LinkInv(g, p, k, c)
    ensures LinkInv(g, Killed(p), k, c)
  {
    hide UpShape;
  }

  lemma KillConsumer(g: Graph, p: Actor, k: Link, c: Actor)
    requires LinkInv(g, p, k, c)
    ensures LinkInv(g, p, k, Killed(c))
  {
    hide DownShape;
  }
}
